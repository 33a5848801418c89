/**
  The locked sections of ccd/ccgpt-auth.py, as functions of the lane and of what each file operation
  does (a record of fates per function, one field an operation, in program order). Exclusion itself is
  flock(2)'s: a section runs alone, so a run is a sequence of sections, deaths and outside writes.
*/
module AuthSteps {
  import opened Wrappers
  import opened Credential

  // ── commit_record ─────────────────────────────────────────────────────────────────────────────

  datatype CommitFaults = CommitFaults(
    read: ReadFate, unlink: Fate, create: Fate, chmod: Fate, write: Fate, sync: Fate,
    rename: Fate, dirsync: Fate, measure: bool, cleanup: Fate)

  datatype Progress = Wrote | Broke | Gone

  /** The checkpoint: unlink the old one, create, chmod, write, fsync. */
  function WriteCheckpoint(w: World, p: Proc, rec: Record, f: CommitFaults): (World, Progress) {
    if f.unlink.Dies? then (Die(w, p, f.unlink.tear), Gone)
    else if f.unlink.Fails? then (w, Broke)
    else
      var w1 := w.(pending := Missing);
      if f.create.Dies? then (Die(w1, p, f.create.tear), Gone)
      else if f.create.Fails? then (w1, Broke)
      else
        var id := Identity(w.next, w.clock);
        var w2 := w1.(pending := File(Torn, id, false), next := w.next + 1);
        if f.chmod.Dies? then (Die(w2, p, f.chmod.tear), Gone)
        else if f.chmod.Fails? then (w2, Broke)
        else if f.write.Dies? then (Die(w2, p, f.write.tear), Gone)
        else if f.write.Fails? then (w2, Broke)
        else
          var w3 := w2.(pending := File(Backend(rec), id, false));
          if f.sync.Dies? then (Die(w3, p, f.sync.tear), Gone)
          else if f.sync.Fails? then (w3, Broke)
          else (w3.(pending := File(Backend(rec), id, true)), Wrote)
  }

  /** The OSError handler before the rename: the checkpoint unlinked (a failure of that is ignored), the record
      kept in memory bound to the file it was to replace. */
  function KeepUnsaved(w: World, p: Proc, e: Entry, cleanup: Fate): Run<bool> {
    if cleanup.Dies? then Run(Die(w, p, cleanup.tear), Died)
    else
      var w1 := if cleanup.Fine? then w.(pending := Missing) else w;
      Run(w1.(unsaved := w1.unsaved[p := e]), Value(false))
  }

  /** The rename and the directory fsync of a checkpoint that is whole. `bound` is the identity the re-read met. */
  function Publish(w: World, p: Proc, e: Entry, f: CommitFaults): Run<bool> {
    if f.rename.Dies? then Run(Die(w, p, f.rename.tear), Died)
    else if f.rename.Fails? then KeepUnsaved(w, p, e, f.cleanup)
    else
      var w1 := w.(cred := w.pending, pending := Missing);
      if f.dirsync.Dies? then Run(Die(w1, p, f.dirsync.tear), Died)
      else if f.dirsync.Fails? then
        Run(w1.(unsaved := w1.unsaved[p := e.(bound := CurrentIdentity(w1, f.measure))]), Value(false))
      else Run(w1.(unsaved := w1.unsaved - {p}), Value(true))
  }

  /** The commit once its checkpoint stands as `progress` says. */
  function Conclude(w: World, progress: Progress, p: Proc, e: Entry, f: CommitFaults): Run<bool> {
    match progress
    case Gone => Run(w, Died)
    case Broke => KeepUnsaved(w, p, e, f.cleanup)
    case Wrote => Publish(w, p, e, f)
  }

  function CommitRecord(w: World, p: Proc, rec: Record, refreshed: Option<Refreshed>, f: CommitFaults): Run<bool> {
    var current := ReadFile(w, f.read);
    if Unwritable(current).Some? then Run(w, Raise(Unwritable(current).value))
    else
      var (w1, progress) := WriteCheckpoint(w, p, rec, f);
      Conclude(w1, progress, p, Entry(rec, current.ident, refreshed), f)
  }

  // ── recover_pending ───────────────────────────────────────────────────────────────────────────

  datatype RecoverFaults = RecoverFaults(
    lstat: bool, open: Fate, sync: Fate, read: ReadFate, unlink: Fate, rename: Fate, dirsync: Fate)

  datatype Settled = NoCheckpoint | Promoted | Discarded

  /** The checkpoint's mtime is older than the credential's. */
  predicate Older(pending: Node, current: Reading) {
    !pending.Missing? && current.ident.Measured? && pending.id.mtime < current.ident.id.mtime
  }

  /** A checkpoint fit to be promoted: a regular file holding a backend record with both tokens. */
  predicate Candidate(pending: Node) {
    pending.File? && pending.content.Backend? && Complete(pending.content.rec)
  }

  function RecoverPending(w: World, p: Proc, f: RecoverFaults): Run<Settled> {
    if !f.lstat then Run(w, Raise(UnreadableRefusal))
    else if w.pending.Missing? then Run(w, Value(NoCheckpoint))
    else if w.pending.File? && f.open.Dies? then Run(Die(w, p, f.open.tear), Died)
    else if w.pending.File? && f.open.Fails? then Run(w, Raise(UnreadableRefusal))
    else if w.pending.File? && f.sync.Dies? then Run(Die(w, p, f.sync.tear), Died)
    else
      var w1 := if w.pending.File? && f.sync.Fine? then w.(pending := w.pending.(synced := true)) else w;
      var current := ReadFile(w1, f.read);
      if !Candidate(w1.pending) || Older(w1.pending, current) then
        if f.unlink.Dies? then Run(Die(w1, p, f.unlink.tear), Died)
        else if f.unlink.Fails? then Run(w1, Raise(UnreadableRefusal))
        else Run(w1.(pending := Missing), Value(Discarded))
      else if Unwritable(current).Some? then Run(w1, Raise(Unwritable(current).value))
      else if f.sync.Fails? then Run(w1, Raise(UnreadableRefusal))
      else if f.rename.Dies? then Run(Die(w1, p, f.rename.tear), Died)
      else if f.rename.Fails? then Run(w1, Raise(UnreadableRefusal))
      else
        var w2 := w1.(cred := w1.pending, pending := Missing);
        if f.dirsync.Dies? then Run(Die(w2, p, f.dirsync.tear), Died)
        else Run(w2, Value(Promoted))
  }

  // ── retry_unsaved ─────────────────────────────────────────────────────────────────────────────

  datatype RetryFaults = RetryFaults(measure: bool, prev: bool, commit: CommitFaults, remeasure: bool, status: Fate)

  datatype Retried = NoRecord | Dropped | Written | StillUnsaved

  /** `_refreshed_fields`: `(state, lastErrorCode, lastRequestId)` of a committed refresh over `prev`. */
  function RefreshedFields(prev: Option<Status>, rid: Option<nat>): (State, Option<nat>, Option<nat>) {
    if prev.Some? && Upstream(prev.value.state) then (prev.value.state, prev.value.code, prev.value.rid)
    else (StateOk, None, rid)
  }

  /** What `retry_unsaved` writes once its commit landed. */
  function RetriedFields(prev: Option<Status>, cfg: nat, rid: Option<nat>): (State, Option<nat>, Option<nat>) {
    if Bars(prev, cfg) && prev.value.state == ConfigError then (ConfigError, prev.value.code, prev.value.rid)
    else RefreshedFields(prev, rid)
  }

  /** The status a landed retry writes: the one the refresh that produced the record would have written. */
  function RetriedStatus(e: Entry, prev: Option<Status>, cfg: nat, bound: Cond): Status {
    var kept := if e.refreshed.Some? then e.refreshed.value.rid else None;
    var (state, code, rid) := RetriedFields(prev, cfg, kept);
    Status(state, code, rid, e.rec.expiresAt, if e.refreshed.Some? then Some(e.refreshed.value.at) else None,
           bound, false, cfg)
  }

  /** `retry_unsaved` once its commit ended as `c`. */
  function RetryFrom(c: Run<bool>, p: Proc, cfg: nat, e: Entry, prev: Option<Status>, f: RetryFaults): Run<Retried> {
    match c.out
    case Died => Run(c.w, Died)
    case Raise(x) => Run(c.w, Raise(x))
    case Value(saved) =>
      if !saved then Run(c.w, Value(StillUnsaved))
      else
        var s := WriteStatus(c.w, p, RetriedStatus(e, prev, cfg, CurrentIdentity(c.w, f.remeasure)), f.status);
        if s.out.Died? then Run(s.w, Died) else Run(s.w, Value(Written))
  }

  function RetryUnsaved(w: World, p: Proc, cfg: nat, f: RetryFaults): Run<Retried> {
    if p !in w.unsaved then Run(w, Value(NoRecord))
    else
      var e := w.unsaved[p];
      if CurrentIdentity(w, f.measure) != e.bound then Run(w.(unsaved := w.unsaved - {p}), Value(Dropped))
      else RetryFrom(CommitRecord(w, p, e.rec, e.refreshed, f.commit), p, cfg, e, ReadStatus(w, f.prev), f)
  }

  // ── _refresh_locked ───────────────────────────────────────────────────────────────────────────

  /** The library code of an answer that carried no access token, `refresh-response-incomplete`. */
  const RESPONSE_INCOMPLETE: nat := 0

  /** What a writer that ignores the lock does to the credential file. */
  datatype Outside = Untouched | Overwrote(content: Content) | Removed | MadeIrregular

  datatype RefreshFaults = RefreshFaults(
    gate: bool, prev: bool, answer: Answer, meanwhile: Outside, dies: bool, tear: bool, at: int,
    commit: CommitFaults, measure: bool, status: Fate)

  function ApplyOutside(w: World, o: Outside): World {
    match o
    case Untouched => w
    case Overwrote(c) => w.(cred := File(c, Identity(w.next, w.clock), true), next := w.next + 1)
    case Removed => w.(cred := Missing)
    case MadeIrregular => w.(cred := Irregular(Identity(w.next, w.clock)), next := w.next + 1)
  }

  /** `_unchanged_state`. */
  function UnchangedState(prev: Option<Status>): State {
    if prev.Some? && prev.value.state != NeedsSignin && prev.value.state != ConfigError then prev.value.state
    else StateOk
  }

  /** What a transient failure with this code and request id writes over `prev`. */
  function TransientFields(prev: Option<Status>, code: Option<nat>, rid: Option<nat>): (State, Option<nat>, Option<nat>) {
    if Upstream(UnchangedState(prev)) then RefreshedFields(prev, rid) else (UnchangedState(prev), code, rid)
  }

  /** `_merge`: the answer's tokens over the stored ones. */
  function Merge(stored: Record, a: Answer, now: int): Record
    requires a.Granted? && a.access.Some?
  {
    var idToken := a.idToken.Or(stored.idToken);
    var computed := if a.expiresIn.Some? then Some(now + a.expiresIn.value) else None;
    Record(a.access, a.refresh.Or(stored.refresh), idToken, ExpOf(a.access).Or(computed),
           AccountOf(idToken).Or(AccountOf(a.access).Or(AccountId(stored))))
  }

  /** The endpoint gave a new access token: the refresh token sent is spent. */
  predicate Answered(a: Answer) {
    a.Granted? && a.access.Some?
  }

  /** The world once the request has been answered: the endpoint has seen the token, and whatever another writer
      did to the file meanwhile has happened. */
  function AfterTrip(w: World, p: Proc, r: Record, fromUnsaved: bool, f: RefreshFaults): World
    requires Complete(r)
  {
    ApplyOutside(w, f.meanwhile).(
      asks := if f.answer.NotSent? then w.asks
              else w.asks + [Ask(p, r.refresh.value, r.access.value, !fromUnsaved, f.answer)])
  }

  /** The fields a failed refresh writes: `kept` for a record in memory, the status's own for a file. */
  function FailedStatus(w: World, p: Proc, cfg: nat, r: Reading, fromUnsaved: bool, prev: Option<Status>,
                        fields: (State, Option<nat>, Option<nat>), unsaved: bool): Status
    requires r.rec.Some? && (fromUnsaved ==> p in w.unsaved)
  {
    var last :=
      if fromUnsaved && w.unsaved[p].refreshed.Some? then Some(w.unsaved[p].refreshed.value.at)
      else if prev.Some? then prev.value.lastRefresh
      else None;
    Status(fields.0, fields.1, fields.2, ExpiresAt(r.rec.value), last, r.ident, unsaved, cfg)
  }

  /** A transient failure with this code and request id: `RefreshFailed`, the state left as it was. */
  function TransientFailure(w: World, w0: World, p: Proc, cfg: nat, r: Reading, fromUnsaved: bool, prev: Option<Status>,
                            code: Option<nat>, rid: Option<nat>, status: Fate): Run<Reading>
    requires r.rec.Some? && (fromUnsaved ==> p in w0.unsaved)
  {
    if fromUnsaved && Bars(prev, cfg) then Run(w, Raise(RefreshFailed))
    else
      var s := WriteStatus(w, p, FailedStatus(w0, p, cfg, r, fromUnsaved, prev, TransientFields(prev, code, rid),
                                              p in w0.unsaved), status);
      if s.out.Died? then Run(s.w, Died) else Run(s.w, Raise(RefreshFailed))
  }

  /** The endpoint refused the refresh token: a record in memory whose token it was is dropped. */
  function TokenRefused(w: World, w0: World, p: Proc, cfg: nat, r: Reading, fromUnsaved: bool, prev: Option<Status>,
                        code: Option<nat>, rid: Option<nat>, status: Fate): Run<Reading>
    requires r.rec.Some? && (fromUnsaved ==> p in w0.unsaved)
  {
    var w1 := if fromUnsaved then w.(unsaved := w.unsaved - {p}) else w;
    if fromUnsaved && Bars(prev, cfg) then Run(w1, Raise(NeedsSigninRefusal))
    else
      var s := WriteStatus(w1, p, FailedStatus(w0, p, cfg, r, fromUnsaved, prev, (NeedsSignin, code, rid),
                                               p in w0.unsaved && !fromUnsaved), status);
      if s.out.Died? then Run(s.w, Died) else Run(s.w, Raise(NeedsSigninRefusal))
  }

  /** The endpoint refused ccrc's own client. */
  function ClientRefused(w: World, w0: World, p: Proc, cfg: nat, r: Reading, fromUnsaved: bool, prev: Option<Status>,
                         code: Option<nat>, rid: Option<nat>, status: Fate): Run<Reading>
    requires r.rec.Some? && (fromUnsaved ==> p in w0.unsaved)
  {
    if fromUnsaved && Bars(prev, cfg) then Run(w, Raise(ConfigErrorRefusal))
    else
      var s := WriteStatus(w, p, FailedStatus(w0, p, cfg, r, fromUnsaved, prev, (ConfigError, code, rid),
                                              p in w0.unsaved), status);
      if s.out.Died? then Run(s.w, Died) else Run(s.w, Raise(ConfigErrorRefusal))
  }

  /** The arms that commit nothing. */
  function RefreshRefused(w: World, w0: World, p: Proc, cfg: nat, r: Reading, fromUnsaved: bool,
                          prev: Option<Status>, f: RefreshFaults): Run<Reading>
    requires r.rec.Some? && (fromUnsaved ==> p in w0.unsaved) && !Answered(f.answer)
  {
    match f.answer
    case NotSent => Run(w, Raise(EndpointRefused))
    case RefusedToken(code, rid) => TokenRefused(w, w0, p, cfg, r, fromUnsaved, prev, code, rid, f.status)
    case RefusedClient(code, rid) => ClientRefused(w, w0, p, cfg, r, fromUnsaved, prev, code, rid, f.status)
    case Transient(code, rid) => TransientFailure(w, w0, p, cfg, r, fromUnsaved, prev, code, rid, f.status)
    case Granted(_, _, _, _, rid) =>
      TransientFailure(w, w0, p, cfg, r, fromUnsaved, prev, Some(RESPONSE_INCOMPLETE), rid, f.status)
  }

  /** The arm that commits `rec`, the merged answer, once its commit ended as `c`. */
  function GrantedFrom(c: Run<bool>, p: Proc, cfg: nat, r: Reading, rec: Record, standing: bool,
                       prev: Option<Status>, refreshed: Refreshed, f: RefreshFaults): Run<Reading> {
    match c.out
    case Died => Run(c.w, Died)
    case Raise(x) => Run(c.w.(unsaved := c.w.unsaved[p := Entry(rec, r.ident, Some(refreshed))]), Raise(x))
    case Value(saved) =>
      var bound := if saved then CurrentIdentity(c.w, f.measure)
                   else if p in c.w.unsaved then c.w.unsaved[p].bound else r.ident;
      var answer := ReadingOf(Backend(rec), if bound.Measured? then bound else NoFile);
      if !saved && standing then Run(c.w, Value(answer))
      else
        var (state, code, rid) := RefreshedFields(prev, refreshed.rid);
        var s := WriteStatus(c.w, p, Status(state, code, rid, rec.expiresAt, Some(refreshed.at), bound, !saved, cfg),
                             f.status);
        if s.out.Died? then Run(s.w, Died) else Run(s.w, Value(answer))
  }

  /** The refusal a current status bars this reading with. */
  predicate Barred(w: World, cfg: nat, fromUnsaved: bool, ok: bool) {
    var s := ReadStatus(w, ok);
    Bars(s, cfg) && !(fromUnsaved && s.value.state == NeedsSignin)
  }

  function BarRefusal(w: World): Refusal
    requires w.status.Some?
  {
    if w.status.value.state == ConfigError then ConfigErrorRefusal else NeedsSigninRefusal
  }

  /** The answered request's record committed, over the world `w` the request left. */
  function RefreshGranted(w: World, p: Proc, cfg: nat, r: Reading, fromUnsaved: bool, prev: Option<Status>,
                          f: RefreshFaults): Run<Reading>
    requires r.rec.Some? && Answered(f.answer)
  {
    var rec := Merge(r.rec.value, f.answer, f.at);
    var refreshed := Refreshed(f.at, f.answer.rid);
    GrantedFrom(CommitRecord(w, p, rec, Some(refreshed), f.commit), p, cfg, r, rec,
                fromUnsaved && Bars(prev, cfg), prev, refreshed, f)
  }

  function RefreshLocked(w: World, p: Proc, cfg: nat, r: Reading, fromUnsaved: bool, f: RefreshFaults): Run<Reading>
    requires r.word == Present && r.rec.Some? && Complete(r.rec.value)
    requires fromUnsaved ==> p in w.unsaved
  {
    if Barred(w, cfg, fromUnsaved, f.gate) then Run(w, Raise(BarRefusal(w)))
    else
      var prev := ReadStatus(w, f.prev);
      var w1 := AfterTrip(w, p, r.rec.value, fromUnsaved, f);
      if f.dies then Run(Die(w1, p, f.tear), Died)
      else if Answered(f.answer) then RefreshGranted(w1, p, cfg, r, fromUnsaved, prev, f)
      else RefreshRefused(w1, w, p, cfg, r, fromUnsaved, prev, f)
  }

  // ── the locked sections ───────────────────────────────────────────────────────────────────────

  datatype SettleFaults = SettleFaults(recover: RecoverFaults, retry: RetryFaults)

  /** The settle once `recover_pending` ended as `a`. */
  function SettleFrom(a: Run<Settled>, p: Proc, cfg: nat, f: SettleFaults): Run<()> {
    match a.out
    case Died => Run(a.w, Died)
    case Raise(x) => Run(a.w, Raise(x))
    case Value(_) =>
      var b := RetryUnsaved(a.w, p, cfg, f.retry);
      match b.out
      case Died => Run(b.w, Died)
      case Raise(x) => Run(b.w, Raise(x))
      case Value(_) => Run(b.w, Value(()))
  }

  /** What every writer does first: `recover_pending`, then `retry_unsaved`. */
  function Settle(w: World, p: Proc, cfg: nat, f: SettleFaults): Run<()> {
    SettleFrom(RecoverPending(w, p, f.recover), p, cfg, f)
  }

  datatype RefreshRun = RefreshRun(settle: SettleFaults, measure: bool, read: ReadFate, refresh: RefreshFaults)

  /** Which door the section belongs to: `ensure_fresh` refreshes what expires, `refresh_rejected` what still carries
      the rejected access token. */
  datatype Door = EnsureFresh(now: int, within: int) | RefreshRejected(token: Token)

  predicate Wants(d: Door, rec: Record) {
    match d
    case EnsureFresh(now, within) => Expired(rec, now, within)
    case RefreshRejected(token) => rec.access == Some(token)
  }

  /** The part of `ensure_fresh` and `refresh_rejected` under the lock, after the settle. */
  function AfterSettle(w: World, p: Proc, cfg: nat, d: Door, f: RefreshRun): Run<Reading> {
    var r := ReadRaw(w, p, f.measure, f.read);
    if RaiseFor(r).Some? then Run(w, Raise(RaiseFor(r).value))
    else if !Wants(d, r.rec.value) then Run(w, Value(r))
    else RefreshLocked(w, p, cfg, r, Served(w, p, f.measure), f.refresh)
  }

  /** The section once its settle ended as `s`. */
  function RefreshFrom(s: Run<()>, p: Proc, cfg: nat, d: Door, f: RefreshRun): Run<Reading> {
    match s.out
    case Died => Run(s.w, Died)
    case Raise(x) => Run(s.w, Raise(x))
    case Value(_) => AfterSettle(s.w, p, cfg, d, f)
  }

  function RefreshSection(w: World, p: Proc, cfg: nat, d: Door, f: RefreshRun): Run<Reading> {
    RefreshFrom(Settle(w, p, cfg, f.settle), p, cfg, d, f)
  }

  // ── record_upstream ───────────────────────────────────────────────────────────────────────────

  datatype UpstreamFaults = UpstreamFaults(measure: bool, read: ReadFate, prev: bool, status: Fate)

  predicate Recordable(s: State) {
    s == StateOk || Upstream(s)
  }

  /** `record_upstream` under the lock; `code` and `rid` are already bounded. */
  function RecordUpstream(w: World, p: Proc, cfg: nat, state: Option<State>, code: Option<nat>, rid: Option<nat>,
                          f: UpstreamFaults): Run<Option<nat>>
    requires state.Some? ==> Recordable(state.value)
  {
    var r := ReadRaw(w, p, f.measure, f.read);
    if r.word != Present then Run(w, Value(None))
    else
      var prev := ReadStatus(w, f.prev);
      var current := if prev.Some? then prev.value.state else StateOk;
      if !Recordable(current) || (state == Some(StateOk) && current == StateOk) then Run(w, Value(rid))
      else
        var kept :=
          if prev.Some? then prev.value.(state := if state.Some? then state.value else current, code := code, rid := rid, cfg := cfg)
          else Status(if state.Some? then state.value else current, code, rid, ExpiresAt(r.rec.value), None, r.ident,
                      Served(w, p, f.measure), cfg);
        var s := WriteStatus(w, p, kept, f.status);
        if s.out.Died? then Run(s.w, Died) else Run(s.w, Value(rid))
  }

  // ── _commit_signin ────────────────────────────────────────────────────────────────────────────

  const SIGNIN_COMMIT_TRIES: nat := 3

  /** The retry loop: commits until one lands. `None`: every try answered False. */
  function Tries(w: World, p: Proc, rec: Record, refreshed: Refreshed, fs: seq<CommitFaults>): Run<bool>
    decreases |fs|
  {
    if fs == [] then Run(w, Value(false))
    else
      var c := CommitRecord(w, p, rec, Some(refreshed), fs[0]);
      if c.out == Value(false) then Tries(c.w, p, rec, refreshed, fs[1..]) else c
  }

  datatype SigninFaults = SigninFaults(
    settle: SettleFaults, measure: bool, read: ReadFate, tries: seq<CommitFaults>, reread: ReadFate,
    remeasure: bool, status: Fate)

  /** The map as it was before the tries. */
  function PutBack(w: World, p: Proc, before: map<Proc, Entry>): World {
    w.(unsaved := if p in before then w.unsaved[p := before[p]] else w.unsaved - {p})
  }

  /** The file already answers with the sign-in's two tokens. */
  predicate Landed(w: World, rec: Record, f: ReadFate) {
    var r := ReadFile(w, f);
    r.word == Present && r.rec.value.access == rec.access && r.rec.value.refresh == rec.refresh
  }

  /** `_commit_signin` once its tries ended as `t`; `before` is the unsaved map as it was before them. */
  function TriedFrom(t: Run<bool>, before: map<Proc, Entry>, p: Proc, cfg: nat, rec: Record, refreshed: Refreshed,
                     f: SigninFaults): Run<()> {
    match t.out
    case Died => Run(t.w, Died)
    case Raise(x) => Run(PutBack(t.w, p, before), Raise(x))
    case Value(saved) =>
      if !saved && !Landed(t.w, rec, f.reread) then Run(PutBack(t.w, p, before), Raise(LoginFailed))
      else
        var w1 := t.w.(unsaved := t.w.unsaved - {p});
        var s := WriteStatus(w1, p, Status(StateOk, None, refreshed.rid, rec.expiresAt, Some(refreshed.at),
                                           CurrentIdentity(w1, f.remeasure), false, cfg), f.status);
        if s.out.Died? then Run(s.w, Died) else Run(s.w, Value(()))
  }

  /** `_commit_signin` after its settle: the re-read that refuses, then the tries. */
  function SigninTries(w: World, p: Proc, cfg: nat, rec: Record, refreshed: Refreshed, f: SigninFaults): Run<()> {
    var r := ReadRaw(w, p, f.measure, f.read);
    if Unwritable(r).Some? then Run(w, Raise(Unwritable(r).value))
    else TriedFrom(Tries(w, p, rec, refreshed, f.tries), w.unsaved, p, cfg, rec, refreshed, f)
  }

  function SigninFrom(s: Run<()>, p: Proc, cfg: nat, rec: Record, refreshed: Refreshed, f: SigninFaults): Run<()> {
    match s.out
    case Died => s
    case Raise(_) => s
    case Value(_) => SigninTries(s.w, p, cfg, rec, refreshed, f)
  }

  function CommitSignin(w: World, p: Proc, cfg: nat, rec: Record, refreshed: Refreshed, f: SigninFaults): Run<()>
    requires |f.tries| == SIGNIN_COMMIT_TRIES
  {
    SigninFrom(Settle(w, p, cfg, f.settle), p, cfg, rec, refreshed, f)
  }

  // ── runs ──────────────────────────────────────────────────────────────────────────────────────

  /** One event of a run. A power loss is a `Crash` of every process. */
  datatype Step =
    | Refresh(p: Proc, cfg: nat, door: Door, refresh: RefreshRun)
    | UpstreamAnswer(p: Proc, cfg: nat, state: Option<State>, code: Option<nat>, rid: Option<nat>, upstream: UpstreamFaults)
    | SettleOnly(p: Proc, cfg: nat, settle: SettleFaults)
    | Signin(p: Proc, cfg: nat, rec: Record, refreshed: Refreshed, signin: SigninFaults)
    | Crash(p: Proc, tear: bool)
    | Foreign(outside: Outside)
    | Tick(amount: nat)

  /** The step is one the library can be asked for: an upstream state it takes, a sign-in whose record is complete. */
  predicate Legal(s: Step) {
    match s
    case UpstreamAnswer(_, _, state, _, _, _) => state.Some? ==> Recordable(state.value)
    case Signin(_, _, rec, _, f) => Complete(rec) && |f.tries| == SIGNIN_COMMIT_TRIES
    case _ => true
  }

  function Apply(w: World, s: Step): World
    requires Legal(s)
  {
    match s
    case Refresh(p, cfg, d, f) => RefreshSection(w, p, cfg, d, f).w
    case UpstreamAnswer(p, cfg, state, code, rid, f) => RecordUpstream(w, p, cfg, state, code, rid, f).w
    case SettleOnly(p, cfg, f) => Settle(w, p, cfg, f).w
    case Signin(p, cfg, rec, refreshed, f) => CommitSignin(w, p, cfg, rec, refreshed, f).w
    case Crash(p, tear) => Die(w, p, tear)
    case Foreign(o) => ApplyOutside(w, o)
    case Tick(amount) => w.(clock := w.clock + amount)
  }

  /** The lane after a run. */
  function Exec(w: World, steps: seq<Step>): World
    requires forall s <- steps :: Legal(s)
    decreases |steps|
  {
    if steps == [] then w else Exec(Apply(w, steps[0]), steps[1..])
  }
}
