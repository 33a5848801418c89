/**
  The files of one Codex lane (ccd/ccgpt-auth.py) and what one read of them answers.

  One authDir is modelled: the credential, the checkpoint beside it, the status file, and each
  process's own unsaved record. A file's identity stands for the triple (inode, mtime, size): a
  file newly created, or written by anyone outside the library, gets an `ino` no file had before,
  and its mtime is the clock's reading, which never runs backwards but may stand still.
*/
module Credential {
  import opened Wrappers

  type Proc = nat

  /** A token and the claims decoded from it in memory (`_exp_of`, `_account_id_of`). */
  datatype Token = Token(id: nat, exp: Option<int>, account: Option<nat>)

  /** A backend record, the five keys of LiteLLM's format. */
  datatype Record = Record(
    access: Option<Token>,
    refresh: Option<Token>,
    idToken: Option<Token>,
    expiresAt: Option<int>,
    account: Option<nat>)

  /** What a regular file holds: a backend record, `{}`, another family's object, or bytes that do not parse. */
  datatype Content = Backend(rec: Record) | EmptyObject | OtherFamily | Torn

  datatype Identity = Identity(ino: nat, mtime: nat)

  /** What stands at a path. `synced` is false between a write and its fsync. */
  datatype Node = Missing | File(content: Content, id: Identity, synced: bool) | Irregular(id: Identity)

  /** `_current_identity`'s answer: nothing there, a measured regular file, or `_UNMEASURED`. */
  datatype Cond = NoFile | Measured(id: Identity) | Unmeasured

  datatype State = StateOk | NeedsSignin | LimitPaused | Ineligible | PlanDisabled | ConfigError

  /** The status file. `bound` is its `identity`, `cfg` its `configHash`. */
  datatype Status = Status(
    state: State,
    code: Option<nat>,
    rid: Option<nat>,
    expiresAt: Option<int>,
    lastRefresh: Option<int>,
    bound: Cond,
    unsaved: bool,
    cfg: nat)

  /** The ok-status fields of the refresh that produced a record. */
  datatype Refreshed = Refreshed(at: int, rid: Option<nat>)

  /** One entry of `_UNSAVED`. */
  datatype Entry = Entry(rec: Record, bound: Cond, refreshed: Option<Refreshed>)

  /** A token endpoint's answer. `NotSent` is a refused endpoint override: no request left. */
  datatype Answer =
    | Granted(access: Option<Token>, refresh: Option<Token>, idToken: Option<Token>, expiresIn: Option<int>, rid: Option<nat>)
    | RefusedToken(code: Option<nat>, rid: Option<nat>)
    | RefusedClient(code: Option<nat>, rid: Option<nat>)
    | Transient(code: Option<nat>, rid: Option<nat>)
    | NotSent

  /** One token request: who made it, with which refresh token, over which access token, whether that reading
      came from the file, and what the endpoint answered. */
  datatype Ask = Ask(asker: Proc, refresh: Token, access: Token, fromFile: bool, answer: Answer)

  /** The whole lane. `asks` is what the endpoint has seen, in order. */
  datatype World = World(
    cred: Node,
    pending: Node,
    status: Option<Status>,
    unsaved: map<Proc, Entry>,
    clock: nat,
    next: nat,
    asks: seq<Ask>)

  /** What one file operation does: it succeeds, raises OSError, or the process dies in its place. With `tear`
      the death also loses whatever was written and not yet fsynced. */
  datatype Fate = Fine | Fails | Dies(tear: bool)

  /** A read of the credential: it reads, its `lstat` raises, or the open or a read after it raises. */
  datatype ReadFate = Reads | LstatFails | ReadFails

  datatype Word = Present | Absent | Unreadable | ForeignFamily | Incomplete

  /** A reading. `rec` is there exactly when a backend record parsed. `ident` is the identity it carries. */
  datatype Reading = Reading(word: Word, rec: Option<Record>, ident: Cond)

  datatype Refusal =
    | NotSignedIn | NeedsSigninRefusal | ConfigErrorRefusal | ForeignFamilyRefusal | UnreadableRefusal
    | RefreshFailed | EndpointRefused | LoginFailed

  datatype Out<+T> = Value(v: T) | Raise(e: Refusal) | Died

  /** A call's end: the world it leaves, and how it left. */
  datatype Run<+T> = Run(w: World, out: Out<T>)

  // ── records and readings ──────────────────────────────────────────────────────────────────────

  predicate Complete(rec: Record) {
    rec.access.Some? && rec.refresh.Some?
  }

  function ExpOf(t: Option<Token>): Option<int> {
    if t.Some? then t.value.exp else None
  }

  function AccountOf(t: Option<Token>): Option<nat> {
    if t.Some? then t.value.account else None
  }

  /** `Reading.expires_at`: the stored number, else the access token's `exp`. */
  function ExpiresAt(rec: Record): Option<int> {
    rec.expiresAt.Or(ExpOf(rec.access))
  }

  /** `Reading.account_id`: the stored one, else the id token's claim, else the access token's. */
  function AccountId(rec: Record): Option<nat> {
    rec.account.Or(AccountOf(rec.idToken).Or(AccountOf(rec.access)))
  }

  /** `expired`: no known expiry is expired. */
  predicate Expired(rec: Record, now: int, within: int) {
    match ExpiresAt(rec)
    case None => true
    case Some(e) => now >= e - within
  }

  /** `_reading_of`. */
  function ReadingOf(c: Content, ident: Cond): Reading {
    match c
    case EmptyObject => Reading(Absent, None, ident)
    case OtherFamily => Reading(ForeignFamily, None, ident)
    case Torn => Reading(Unreadable, None, ident)
    case Backend(rec) => Reading(if Complete(rec) then Present else Incomplete, Some(rec), ident)
  }

  /** The identity a successful `lstat` of a regular file measures. */
  function CondOf(n: Node): Cond {
    match n
    case Missing => NoFile
    case File(_, id, _) => Measured(id)
    case Irregular(_) => Unmeasured
  }

  /** `_current_identity`: `ok` is false when the `lstat` raises anything but ENOENT. */
  function CurrentIdentity(w: World, ok: bool): Cond {
    if ok then CondOf(w.cred) else Unmeasured
  }

  /** `_read_file`: what the file itself holds. A reading whose `lstat` raised carries no identity. */
  function ReadFile(w: World, f: ReadFate): Reading {
    if f.LstatFails? then Reading(Unreadable, None, NoFile)
    else match w.cred
      case Missing => Reading(Absent, None, NoFile)
      case Irregular(id) => Reading(Unreadable, None, Measured(id))
      case File(c, id, _) =>
        if f.ReadFails? then Reading(Unreadable, None, Measured(id)) else ReadingOf(c, Measured(id))
  }

  /** Whether `_read_raw` answers from the process's unsaved record: the record is bound to what stands there. */
  predicate Served(w: World, p: Proc, ok: bool) {
    p in w.unsaved && CurrentIdentity(w, ok) == w.unsaved[p].bound
  }

  /** `_read_raw`: the unsaved record while it is bound to what stands there, else the file. */
  function ReadRaw(w: World, p: Proc, ok: bool, f: ReadFate): Reading {
    if Served(w, p, ok) then ReadingOf(Backend(w.unsaved[p].rec), w.unsaved[p].bound) else ReadFile(w, f)
  }

  /** `_raise_for`. */
  function RaiseFor(r: Reading): Option<Refusal> {
    match r.word
    case Present => None
    case Absent => Some(NotSignedIn)
    case Incomplete => Some(NeedsSigninRefusal)
    case ForeignFamily => Some(ForeignFamilyRefusal)
    case Unreadable => Some(UnreadableRefusal)
  }

  /** `_refuse_unwritable`, and `_refuse_signin` alike: never over an unreadable file nor another family's. */
  function Unwritable(r: Reading): Option<Refusal> {
    match r.word
    case Unreadable => Some(UnreadableRefusal)
    case ForeignFamily => Some(ForeignFamilyRefusal)
    case _ => None
  }

  // ── the status ────────────────────────────────────────────────────────────────────────────────

  /** The status is current: it was measured on what stands at the credential path now. */
  predicate Current(w: World) {
    w.status.Some? && w.status.value.bound == CondOf(w.cred) && CondOf(w.cred) != Unmeasured
  }

  /** `read_status`; `ok` is false when any system call of it raises. */
  function ReadStatus(w: World, ok: bool): Option<Status> {
    if ok && Current(w) then w.status else None
  }

  /** `_bars`, for a library whose `config_hash()` is `cfg`. */
  predicate Bars(s: Option<Status>, cfg: nat) {
    s.Some? && (s.value.state == NeedsSignin || (s.value.state == ConfigError && s.value.cfg == cfg))
  }

  predicate Upstream(s: State) {
    s == LimitPaused || s == Ineligible
  }

  /** `_identity_json`: an identity that could not be measured is written as null, like an absent file's. */
  function IdentityJson(c: Cond): Cond {
    if c == Unmeasured then NoFile else c
  }

  // ── death and the status write ────────────────────────────────────────────────────────────────

  /** A process dies: its unsaved record goes with it, and with `tear` so does unsynced data. */
  function Die(w: World, p: Proc, tear: bool): World {
    var pending := if tear && w.pending.File? && !w.pending.synced then w.pending.(content := Torn) else w.pending;
    w.(pending := pending, unsaved := w.unsaved - {p})
  }

  /** `write_status`: written beside itself, then renamed over itself, so it lands whole or not at all. */
  function WriteStatus(w: World, p: Proc, s: Status, f: Fate): Run<()> {
    match f
    case Fine => Run(w.(status := Some(s.(bound := IdentityJson(s.bound)))), Value(()))
    case Fails => Run(w, Value(()))
    case Dies(t) => Run(Die(w, p, t), Died)
  }
}
