/** What each operation says of a lane in its status, what it answers its caller, and what that means to the calls after. */
module AuthStatus {
  import opened Wrappers
  import opened Credential
  import opened AuthSteps
  import opened AuthFacts
  import opened AuthRuns
  import opened AuthDead
  import opened AuthPairs
  import opened AuthSignin
  import opened AuthUpstream

  /** The status is current for the file in place and says this state, with this code and request id. */
  predicate SaysOf(w: World, state: State, code: Option<nat>, rid: Option<nat>) {
    && w.cred.File? && Current(w)
    && w.status.value.state == state && w.status.value.code == code && w.status.value.rid == rid
  }

  /** A status that lands is current for what stands exactly where it was measured on that very file; or where nothing
      stands, and it was measured on nothing or could not be measured. */
  lemma WrittenIsCurrentIff(w: World, p: Proc, s: Status)
    ensures
      var w1 := WriteStatus(w, p, s, Fine).w;
      && w1 == w.(status := w1.status)
      && (Current(w1) <==> if w.cred.File? then s.bound == Measured(w.cred.id) else w.cred.Missing? && !s.bound.Measured?)
  {
  }

  // ── a refresh that commits nothing ────────────────────────────────────────────────────────────

  /** The refusal the caller is given for an answer that brought no pair. */
  predicate RaisedFor(a: Answer, x: Refusal) {
    match a
    case RefusedToken(_, _) => x == NeedsSigninRefusal
    case RefusedClient(_, _) => x == ConfigErrorRefusal
    case NotSent => x == EndpointRefused
    case _ => x == RefreshFailed
  }

  /** What an unanswered request's status says of the file: the refusal with its own code and request id; else, of a
      failure that may pass, an upstream state as it stood, a disabled plan with the failure's code, or ok with it. */
  predicate TellsOf(w: World, prev: Option<Status>, a: Answer) {
    match a
    case RefusedToken(code, rid) => SaysOf(w, NeedsSignin, code, rid)
    case RefusedClient(code, rid) => SaysOf(w, ConfigError, code, rid)
    case Transient(code, rid) => TellsOfFailure(w, prev, code, rid)
    case Granted(_, _, _, _, rid) => TellsOfFailure(w, prev, Some(RESPONSE_INCOMPLETE), rid)
    case NotSent => false
  }

  predicate TellsOfFailure(w: World, prev: Option<Status>, code: Option<nat>, rid: Option<nat>) {
    if prev.Some? && Upstream(prev.value.state) then SaysOf(w, prev.value.state, prev.value.code, prev.value.rid)
    else SaysOf(w, if prev.Some? && prev.value.state == PlanDisabled then PlanDisabled else StateOk, code, rid)
  }

  /** The last refresh a status tells of: that of the record in memory it is about, else the one told of before. */
  predicate TellsRefresh(s: Status, held: Option<Entry>, prev: Option<Status>) {
    if held.Some? && held.value.refreshed.Some? then s.lastRefresh == Some(held.value.refreshed.value.at)
    else s.lastRefresh == if prev.Some? then prev.value.lastRefresh else None
  }

  function HeldBy(w: World, p: Proc): Option<Entry> {
    if p in w.unsaved then Some(w.unsaved[p]) else None
  }

  /** A request that brings no pair: nothing but the status is written, and a record in memory whose token was refused
      is dropped; the status written is the file's own, says which failure it was, when the pair expires, when it was
      refreshed, and whether its process still holds a record; and the caller is told the same. */
  lemma FailureIsRecorded(w: World, w0: World, p: Proc, cfg: nat, r: Reading, fromUnsaved: bool, f: RefreshFaults)
    requires r.rec.Some? && (fromUnsaved ==> p in w0.unsaved) && w0.unsaved == w.unsaved && !Answered(f.answer)
    requires w.cred.File? && r.ident == CondOf(w.cred) && !f.status.Dies?
    ensures
      var prev := ReadStatus(w, f.prev);
      var c := RefreshRefused(w, w0, p, cfg, r, fromUnsaved, prev, f);
      var dropped := fromUnsaved && f.answer.RefusedToken?;
      && c.out.Raise? && RaisedFor(f.answer, c.out.e)
      && c.w == w.(status := c.w.status, unsaved := if dropped then w.unsaved - {p} else w.unsaved)
      && if f.answer.NotSent? || (fromUnsaved && Bars(prev, cfg)) || f.status.Fails? then c.w.status == w.status
         else
           && TellsOf(c.w, prev, f.answer)
           && c.w.status.value.expiresAt == ExpiresAt(r.rec.value) && c.w.status.value.cfg == cfg
           && c.w.status.value.unsaved == (p in c.w.unsaved)
           && TellsRefresh(c.w.status.value, if fromUnsaved then HeldBy(w0, p) else None, prev)
  {
  }

  // ── a refresh that commits ────────────────────────────────────────────────────────────────────

  /** A status put together for a pair the endpoint gave: ok with the request's own id, unless an upstream state stood. */
  predicate TellsOfSuccess(w: World, prev: Option<Status>, rid: Option<nat>) {
    if prev.Some? && Upstream(prev.value.state) then SaysOf(w, prev.value.state, prev.value.code, prev.value.rid)
    else SaysOf(w, StateOk, None, rid)
  }

  /** Once the commit has ended, the caller is answered with the new pair, of the file that holds it or is still to; and
      unless the write fails, or a needs-signin about a file's other token stands, the status says so of that file. Where
      the file cannot be measured, the reading and the status carry no identity, so that status bars nobody. */
  lemma SuccessIsRecorded(w: World, p: Proc, cfg: nat, r: Reading, fromUnsaved: bool, f: RefreshFaults)
    requires r.rec.Some? && Complete(r.rec.value) && Answered(f.answer)
    requires Valid(w) && w.cred.File? && Unwritable(ReadFile(w, f.commit.read)).None?
    requires NoDeath(f.commit) && !f.status.Dies?
    ensures
      var rec := Merge(r.rec.value, f.answer, f.at);
      var prev := ReadStatus(w, f.prev);
      var c := RefreshGranted(w, p, cfg, r, fromUnsaved, prev, f);
      var saved := Replaced(f.commit) && f.commit.dirsync.Fine?;
      var measured := if saved then f.measure else !Replaced(f.commit) || f.commit.measure;
      && c.out == Value(Reading(Present, Some(rec), if measured then CondOf(c.w.cred) else NoFile))
      && if (!saved && fromUnsaved && Bars(prev, cfg)) || f.status.Fails? then c.w.status == w.status
         else
           && c.w.status.Some? && (if measured then TellsOfSuccess(c.w, prev, f.answer.rid) else !Current(c.w))
           && c.w.status.value.expiresAt == rec.expiresAt && c.w.status.value.lastRefresh == Some(f.at)
           && c.w.status.value.unsaved == !saved && (p in c.w.unsaved <==> !saved) && c.w.status.value.cfg == cfg
  {
    var rec := Merge(r.rec.value, f.answer, f.at);
    var refreshed := Refreshed(f.at, f.answer.rid);
    MergeIsComplete(r.rec.value, f.answer, f.at);
    CommitReplaces(w, p, rec, Some(refreshed), f.commit);
    CommitShape(w, p, rec, Some(refreshed), f.commit);
    CommitLives(w, p, rec, Some(refreshed), f.commit);
    SuccessFrom(w, CommitRecord(w, p, rec, Some(refreshed), f.commit), p, cfg, r, rec, fromUnsaved, refreshed, f);
  }

  lemma CommitLives(w: World, p: Proc, rec: Record, refreshed: Option<Refreshed>, f: CommitFaults)
    requires NoDeath(f)
    ensures !CommitRecord(w, p, rec, refreshed, f).out.Died?
  {
  }

  lemma SuccessFrom(w: World, c: Run<bool>, p: Proc, cfg: nat, r: Reading, rec: Record, fromUnsaved: bool,
                    refreshed: Refreshed, f: RefreshFaults)
    requires Complete(rec) && c.out.Value? && c.w.status == w.status && w.cred.File? && c.w.cred.File? && !f.status.Dies?
    requires
      if c.out.v then p !in c.w.unsaved
      else p in c.w.unsaved && (c.w.unsaved[p].bound == CondOf(c.w.cred) || c.w.unsaved[p].bound == Unmeasured)
    ensures
      var prev := ReadStatus(w, f.prev);
      var standing := fromUnsaved && Bars(prev, cfg);
      var measured := if c.out.v then f.measure else c.w.unsaved[p].bound == CondOf(c.w.cred);
      var g := GrantedFrom(c, p, cfg, r, rec, standing, prev, refreshed, f);
      && g.out == Value(Reading(Present, Some(rec), if measured then CondOf(c.w.cred) else NoFile))
      && g.w == c.w.(status := g.w.status)
      && if (!c.out.v && standing) || f.status.Fails? then g.w.status == w.status
         else
           && g.w.status.Some? && (if measured then TellsOfSuccess(g.w, prev, refreshed.rid) else !Current(g.w))
           && g.w.status.value.expiresAt == rec.expiresAt && g.w.status.value.lastRefresh == Some(refreshed.at)
           && g.w.status.value.unsaved == !c.out.v && g.w.status.value.cfg == cfg
  {
  }

  // ── a file that is not written over ───────────────────────────────────────────────────────────

  /** What a writer is refused with: a file that cannot be read or does not parse, or another family's. */
  predicate RefusedOver(w: World, f: ReadFate, x: Refusal) {
    if f.LstatFails? || w.cred.Irregular? || (w.cred.File? && (f.ReadFails? || w.cred.content.Torn?)) then
      x == UnreadableRefusal
    else
      w.cred.File? && w.cred.content.OtherFamily? && x == ForeignFamilyRefusal
  }

  lemma RefusedOverIff(w: World, f: ReadFate, x: Refusal)
    ensures Unwritable(ReadFile(w, f)) == Some(x) <==> RefusedOver(w, f, x)
  {
  }

  /** An answered refresh whose commit refuses the file raises that refusal and keeps the new pair in memory, bound to
      the file it read, and nothing else changes. */
  lemma RefusedCommitIsKept(w: World, p: Proc, cfg: nat, r: Reading, fromUnsaved: bool, prev: Option<Status>,
                            f: RefreshFaults, x: Refusal)
    requires r.rec.Some? && Complete(r.rec.value) && Answered(f.answer) && RefusedOver(w, f.commit.read, x)
    ensures
      var kept := Entry(Merge(r.rec.value, f.answer, f.at), r.ident, Some(Refreshed(f.at, f.answer.rid)));
      RefreshGranted(w, p, cfg, r, fromUnsaved, prev, f) == Run(w.(unsaved := w.unsaved[p := kept]), Raise(x))
  {
    RefusedOverIff(w, f.commit.read, x);
  }

  lemma RecoverRefuses(w: World, p: Proc, f: RecoverFaults)
    ensures
      var c := RecoverPending(w, p, f);
      c.out.Raise? ==> c.out.e == UnreadableRefusal || RefusedOver(w, f.read, c.out.e)
  {
    RefusedOverIff(w, f.read, ForeignFamilyRefusal);
  }

  lemma RetryRefuses(w: World, p: Proc, cfg: nat, f: RetryFaults)
    requires Valid(w)
    ensures
      var c := RetryUnsaved(w, p, cfg, f);
      c.out.Raise? ==> RefusedOver(w, f.commit.read, c.out.e) && c.w == w
  {
    if p in w.unsaved {
      var e := w.unsaved[p];
      CommitReplacesOrRefuses(w, p, e.rec, e.refreshed, f.commit);
    }
  }

  lemma CommitReplacesOrRefuses(w: World, p: Proc, rec: Record, refreshed: Option<Refreshed>, f: CommitFaults)
    requires Valid(w)
    ensures
      var c := CommitRecord(w, p, rec, refreshed, f);
      c.out.Raise? ==> RefusedOver(w, f.read, c.out.e) && c.w == w
  {
    if Unwritable(ReadFile(w, f.read)).None? {
      CommitReplaces(w, p, rec, refreshed, f);
    } else {
      RefusedOverIff(w, f.read, Unwritable(ReadFile(w, f.read)).value);
    }
  }

  /** A settle that raises says that the file or the checkpoint cannot be read or written, or that the file is another
      family's, where it is; the section of either door raises the same and does nothing more. */
  lemma SettleRefusalIsRaised(w: World, p: Proc, cfg: nat, d: Door, f: RefreshRun)
    requires Valid(w) && Settle(w, p, cfg, f.settle).out.Raise?
    ensures
      var s := Settle(w, p, cfg, f.settle);
      && (s.out.e == UnreadableRefusal || (s.out.e == ForeignFamilyRefusal && s.w.cred.File? && s.w.cred.content.OtherFamily?))
      && RefreshSection(w, p, cfg, d, f) == Run(s.w, Raise(s.out.e))
  {
    var a := RecoverPending(w, p, f.settle.recover);
    RecoverShape(w, p, f.settle.recover);
    RecoverFactsMove(w, p, a);
    RecoverRefuses(w, p, f.settle.recover);
    RetryRefuses(a.w, p, cfg, f.settle.retry);
  }

  /** A retry that meets such a file raises the refusal and changes nothing. */
  lemma RefusedRetryChangesNothing(w: World, p: Proc, cfg: nat, f: RetryFaults, x: Refusal)
    requires p in w.unsaved && CurrentIdentity(w, f.measure) == w.unsaved[p].bound && RefusedOver(w, f.commit.read, x)
    ensures RetryUnsaved(w, p, cfg, f) == Run(w, Raise(x))
  {
    RefusedOverIff(w, f.commit.read, x);
  }

  /** So does a sign-in, with nothing in memory to be read in the file's place. */
  lemma RefusedSigninChangesNothing(w: World, p: Proc, cfg: nat, rec: Record, refreshed: Refreshed, f: SigninFaults, x: Refusal)
    requires !Served(w, p, f.measure) && RefusedOver(w, f.read, x)
    ensures SigninTries(w, p, cfg, rec, refreshed, f) == Run(w, Raise(x))
  {
    RefusedOverIff(w, f.read, x);
  }

  /** What a refresh makes of the pair: the answer's access token; its refresh and id tokens, or where it has none the
      stored ones; the expiry the access token itself tells, before the one the answer counts from now; and the account
      the id token in force tells, before the access token's, before the one known so far. */
  lemma MergeTells(stored: Record, a: Answer, now: int)
    requires Complete(stored) && Answered(a)
    ensures
      var rec := Merge(stored, a, now);
      && rec.access == a.access
      && rec.refresh == (if a.refresh.Some? then a.refresh else stored.refresh)
      && rec.idToken == (if a.idToken.Some? then a.idToken else stored.idToken)
      && (a.access.value.exp.Some? ==> rec.expiresAt == a.access.value.exp)
      && (a.access.value.exp.None? && a.expiresIn.Some? ==> rec.expiresAt == Some(now + a.expiresIn.value))
      && (a.access.value.exp.None? && a.expiresIn.None? ==> rec.expiresAt == None)
      && ExpiresAt(rec) == rec.expiresAt
    ensures
      var rec := Merge(stored, a, now);
      && (rec.idToken.Some? && rec.idToken.value.account.Some? ==> rec.account == rec.idToken.value.account)
      && (!(rec.idToken.Some? && rec.idToken.value.account.Some?) ==>
            rec.account == if a.access.value.account.Some? then a.access.value.account else AccountId(stored))
      && AccountId(rec) == rec.account
      && (AccountId(stored).Some? ==> rec.account.Some?)
  {
  }

  lemma MergeIsComplete(stored: Record, a: Answer, now: int)
    requires Complete(stored) && Answered(a)
    ensures Complete(Merge(stored, a, now))
  {
  }

  // ── a retry ───────────────────────────────────────────────────────────────────────────────────

  /** A retry that lands its record says of the new file what the refresh that obtained it would have said: a refused
      client under this configuration and an upstream state are carried, and anything else, a needs-signin about the old
      file's token included, is ok with that refresh's own request id. */
  lemma RetryIsRecorded(w: World, p: Proc, cfg: nat, f: RetryFaults)
    requires Valid(w) && p in w.unsaved && CurrentIdentity(w, f.measure) == w.unsaved[p].bound
    requires Unwritable(ReadFile(w, f.commit.read)).None? && Replaced(f.commit) && f.commit.dirsync.Fine?
    requires f.remeasure && !f.status.Dies?
    ensures
      var e := w.unsaved[p];
      var prev := ReadStatus(w, f.prev);
      var c := RetryUnsaved(w, p, cfg, f);
      && c.out == Value(Written) && Holds(c.w.cred, e.rec) && p !in c.w.unsaved
      && if f.status.Fails? then c.w.status == w.status
         else
           && (if prev.Some? && prev.value.state == ConfigError && prev.value.cfg == cfg
               then SaysOf(c.w, ConfigError, prev.value.code, prev.value.rid)
               else TellsOfSuccess(c.w, prev, if e.refreshed.Some? then e.refreshed.value.rid else None))
           && c.w.status.value.expiresAt == e.rec.expiresAt && !c.w.status.value.unsaved && c.w.status.value.cfg == cfg
           && c.w.status.value.lastRefresh == (if e.refreshed.Some? then Some(e.refreshed.value.at) else None)
  {
    var e := w.unsaved[p];
    CommitReplaces(w, p, e.rec, e.refreshed, f.commit);
    CommitShape(w, p, e.rec, e.refreshed, f.commit);
  }

  // ── a sign-in ─────────────────────────────────────────────────────────────────────────────────

  /** What a sign-in that returned tells: the status is its own, ok without a code, with its request id, time and expiry,
      nothing unsaved and its configuration; it is the file's where the file was measured, and bars no refresh. */
  ghost predicate TellsOfSignin(w: World, cfg: nat, rec: Record, refreshed: Refreshed, measured: bool) {
    && w.status.Some? && w.status.value.state == StateOk && w.status.value.code.None?
    && w.status.value.rid == refreshed.rid && w.status.value.lastRefresh == Some(refreshed.at)
    && w.status.value.expiresAt == rec.expiresAt && !w.status.value.unsaved && w.status.value.cfg == cfg
    && (measured ==> SaysOf(w, StateOk, None, refreshed.rid))
    && forall cfg', fromUnsaved, ok :: !Barred(w, cfg', fromUnsaved, ok)
  }

  lemma TriesAreRecorded(w: World, p: Proc, cfg: nat, rec: Record, refreshed: Refreshed, f: SigninFaults)
    requires Valid(w) && Complete(rec) && !f.status.Dies?
    requires SigninTries(w, p, cfg, rec, refreshed, f).out.Value?
    ensures
      var c := SigninTries(w, p, cfg, rec, refreshed, f);
      && SameTokens(c.w.cred, rec) && p !in c.w.unsaved
      && if f.status.Fails? then c.w.status == w.status else TellsOfSignin(c.w, cfg, rec, refreshed, f.remeasure)
  {
    TriesShape(w, p, rec, refreshed, f.tries);
    LandedIff(Tries(w, p, rec, refreshed, f.tries).w, rec, f.reread);
  }

  /** A sign-in that returns has signed the lane in: whether a try landed whole or the record was found in the file, its
      two tokens are there, nothing of its process's is unsaved, and unless its write fails the status says so. */
  lemma SigninIsRecorded(w: World, p: Proc, cfg: nat, rec: Record, refreshed: Refreshed, f: SigninFaults)
    requires Valid(w) && Complete(rec) && !f.status.Dies? && |f.tries| == SIGNIN_COMMIT_TRIES
    requires CommitSignin(w, p, cfg, rec, refreshed, f).out.Value?
    ensures
      var s := Settle(w, p, cfg, f.settle);
      var c := CommitSignin(w, p, cfg, rec, refreshed, f);
      && SameTokens(c.w.cred, rec) && p !in c.w.unsaved
      && if f.status.Fails? then c.w.status == s.w.status else TellsOfSignin(c.w, cfg, rec, refreshed, f.remeasure)
  {
    SettleMoves(w, p, cfg, f.settle);
    TriesAreRecorded(Settle(w, p, cfg, f.settle).w, p, cfg, rec, refreshed, f);
  }

  // ── an upstream answer ────────────────────────────────────────────────────────────────────────

  /** The state an upstream answer may move: none is current, or one it may itself set. */
  predicate Movable(w: World) {
    Current(w) ==> Recordable(w.status.value.state)
  }

  /** The state that stands. */
  function StateNow(w: World): State {
    if Current(w) then w.status.value.state else StateOk
  }

  /** An upstream answer over a credential that is there: whatever comes of it the caller is told its request id, and
      nothing but the status changes. It is written exactly where the state may be moved, ok is not said over ok, and the
      write lands; it then says the state given, or the one that stood where none is, with the answer's code and request
      id. Every other field is the one that stood, or with none current what the reading tells. */
  lemma UpstreamIsRecorded(w: World, p: Proc, cfg: nat, state: Option<State>, code: Option<nat>, rid: Option<nat>,
                           f: UpstreamFaults)
    requires state.Some? ==> Recordable(state.value)
    requires Valid(w) && w.cred.File? && f.prev && !f.status.Dies? && f.measure
    requires ReadRaw(w, p, f.measure, f.read).word == Present
    ensures
      var r := ReadRaw(w, p, f.measure, f.read);
      var c := RecordUpstream(w, p, cfg, state, code, rid, f);
      && c.out == Value(rid) && c.w == w.(status := c.w.status)
      && if Movable(w) && !(state == Some(StateOk) && StateNow(w) == StateOk) && f.status.Fine? then
           && SaysOf(c.w, if state.Some? then state.value else StateNow(w), code, rid)
           && c.w.status.value.cfg == cfg
           && if Current(w) then
                && c.w.status.value.expiresAt == w.status.value.expiresAt && c.w.status.value.unsaved == w.status.value.unsaved
                && c.w.status.value.lastRefresh == w.status.value.lastRefresh
              else
                && c.w.status.value.expiresAt == ExpiresAt(r.rec.value) && c.w.status.value.lastRefresh.None?
                && c.w.status.value.unsaved == Served(w, p, f.measure)
         else c.w.status == w.status
  {
    ReadRawKnown(w, p, f.measure, f.read);
  }

  /** Without a whole pair, in the file or in memory over it, nothing is recorded and nothing answered. */
  lemma NoPairNoRecord(w: World, p: Proc, cfg: nat, state: Option<State>, code: Option<nat>, rid: Option<nat>, f: UpstreamFaults)
    requires state.Some? ==> Recordable(state.value)
    requires !Served(w, p, f.measure) && !(f.read.Reads? && Whole(w.cred))
    ensures RecordUpstream(w, p, cfg, state, code, rid, f) == Run(w, Value(None))
  {
  }

  /** So the account's own state is on record exactly when its write landed. */
  lemma PausedIff(w: World, p: Proc, cfg: nat, state: State, code: Option<nat>, rid: Option<nat>, f: UpstreamFaults)
    requires Upstream(state) && Valid(w) && w.cred.File? && f.prev && !f.status.Dies? && f.measure
    requires ReadRaw(w, p, f.measure, f.read).word == Present && Movable(w) && !Paused(w, state, code, rid)
    ensures Paused(RecordUpstream(w, p, cfg, Some(state), code, rid, f).w, state, code, rid) <==> f.status.Fine?
  {
    UpstreamIsRecorded(w, p, cfg, Some(state), code, rid, f);
  }

  // ── the gate ──────────────────────────────────────────────────────────────────────────────────

  /** What keeps a request under the lock from being made, and nothing else: a client refused under this configuration; a
      needs-signin about the file, unless the pair is one in memory, which no needs-signin of the file's bars; or an
      endpoint that is not one to send to. The first two are raised at once and change nothing. */
  lemma AskedIff(w: World, p: Proc, cfg: nat, r: Reading, fromUnsaved: bool, f: RefreshFaults)
    requires r.word == Present && r.rec.Some? && Complete(r.rec.value) && KnownCond(r.ident, w)
    requires Valid(w) && (fromUnsaved ==> p in w.unsaved)
    ensures
      var c := RefreshLocked(w, p, cfg, r, fromUnsaved, f);
      var client := f.gate && Current(w) && w.status.value.state == ConfigError && w.status.value.cfg == cfg;
      var dead := f.gate && Current(w) && w.status.value.state == NeedsSignin && !fromUnsaved;
      && (client ==> c == Run(w, Raise(ConfigErrorRefusal))) && (dead ==> c == Run(w, Raise(NeedsSigninRefusal)))
      && if client || dead || f.answer.NotSent? then c.w.asks == w.asks
         else c.w.asks == w.asks + [Ask(p, r.rec.value.refresh.value, r.rec.value.access.value, !fromUnsaved, f.answer)]
  {
    var prev := ReadStatus(w, f.prev);
    var w1 := AfterTrip(w, p, r.rec.value, fromUnsaved, f);
    TripMoves(w, p, r.rec.value, fromUnsaved, f);
    if !f.dies && Answered(f.answer) {
      GrantedShape(w1, p, cfg, r, fromUnsaved, prev, f);
    } else if !f.dies {
      RefusedShape(w1, w, p, cfg, r, fromUnsaved, prev, f);
    }
  }

  // ── over runs ─────────────────────────────────────────────────────────────────────────────────

  /** A section of either door that refreshes the file: nothing to settle, nothing in memory, the file whole, wanted and
      not barred, the request sent, nobody dying and nobody else writing. */
  predicate AsksOfFile(w: World, p: Proc, cfg: nat, d: Door, f: RefreshRun) {
    && Whole(w.cred) && w.pending.Missing? && p !in w.unsaved && Wants(d, w.cred.content.rec)
    && f.settle.recover.lstat && f.read.Reads?
    && !(f.refresh.gate && Current(w) && Bars(w.status, cfg))
    && !f.refresh.answer.NotSent? && f.refresh.meanwhile.Untouched? && !f.refresh.dies && !f.refresh.status.Dies?
  }

  lemma AskedOfFile(w: World, p: Proc, cfg: nat, d: Door, f: RefreshRun)
    requires Valid(w) && AsksOfFile(w, p, cfg, d, f) && !Answered(f.refresh.answer)
    ensures
      var c := RefreshSection(w, p, cfg, d, f);
      var rec := w.cred.content.rec;
      && c.out.Raise? && RaisedFor(f.refresh.answer, c.out.e)
      && c.w.cred == w.cred && c.w.pending.Missing? && c.w.unsaved == w.unsaved
      && c.w.asks == w.asks + [Ask(p, rec.refresh.value, rec.access.value, true, f.refresh.answer)]
      && if f.refresh.status.Fine? then
           && TellsOf(c.w, ReadStatus(w, f.refresh.prev), f.refresh.answer) && c.w.status.value.cfg == cfg
           && c.w.status.value.expiresAt == ExpiresAt(rec)
         else c.w.status == w.status
  {
    assert Settle(w, p, cfg, f.settle) == Run(w, Value(()));
    var r := ReadRaw(w, p, f.measure, f.read);
    ReadRawKnown(w, p, f.measure, f.read);
    assert r == ReadingOf(w.cred.content, CondOf(w.cred)) && !Served(w, p, f.measure);
    var w1 := AfterTrip(w, p, r.rec.value, false, f.refresh);
    FailureIsRecorded(w1, w, p, cfg, r, false, f.refresh);
    assert !Barred(w, cfg, false, f.refresh.gate);
    assert RefreshSection(w, p, cfg, d, f) == RefreshRefused(w1, w, p, cfg, r, false, ReadStatus(w, f.refresh.prev), f.refresh);
  }

  /** How a file becomes dead, and that it then stays so: a token the endpoint refuses is put on record, and while its
      file stands no run of any processes sends it again or says otherwise of the file. */
  lemma RefusedTokenIsNeverSentAgain(w: World, p: Proc, cfg: nat, d: Door, f: RefreshRun, steps: seq<Step>)
    requires Valid(w) && AsksOfFile(w, p, cfg, d, f) && f.refresh.answer.RefusedToken? && f.refresh.status.Fine?
    requires forall s <- steps :: Legal(s) && StatusReads(s) && NewSignin(w.cred, s)
    ensures
      var c := RefreshSection(w, p, cfg, d, f);
      var w' := Exec(c.w, steps);
      && c.out == Raise(NeedsSigninRefusal) && Dead(c.w)
      && (CondOf(w'.cred) == CondOf(w.cred) ==>
            w'.cred == w.cred && NoneFromFile(c.w.asks, w'.asks)
            && SaysOf(w', NeedsSignin, f.refresh.answer.code, f.refresh.answer.rid))
  {
    AskedOfFile(w, p, cfg, d, f);
    RefreshSectionMoves(w, p, cfg, d, f);
    DeadStaysDead(RefreshSection(w, p, cfg, d, f).w, steps);
  }

  /** How a client becomes refused, and that it then stays so: no run of refreshes under that configuration asks again. */
  lemma RefusedClientIsNotAskedAgain(w: World, p: Proc, cfg: nat, d: Door, f: RefreshRun, steps: seq<Step>)
    requires Valid(w) && AsksOfFile(w, p, cfg, d, f) && f.refresh.answer.RefusedClient? && f.refresh.status.Fine?
    requires forall s <- steps :: Legal(s) && SameConfig(s, cfg)
    ensures
      var c := RefreshSection(w, p, cfg, d, f);
      var w' := Exec(c.w, steps);
      && c.out == Raise(ConfigErrorRefusal) && ClientBarred(c.w, cfg, f.refresh.answer.code)
      && ClientBarred(w', cfg, f.refresh.answer.code) && w'.asks == c.w.asks
  {
    AskedOfFile(w, p, cfg, d, f);
    RefreshSectionMoves(w, p, cfg, d, f);
    ClientRefusalHolds(RefreshSection(w, p, cfg, d, f).w, steps, cfg, f.refresh.answer.code);
  }

  // ── what a door answers without asking ────────────────────────────────────────────────────────

  /** The reading is one the door has no cause to refresh: of `ensure_fresh`, it is known to outlast the margin; of
      `refresh_rejected`, its access token is another than the one rejected. */
  predicate GoodEnough(d: Door, rec: Record) {
    match d
    case EnsureFresh(now, within) => ExpiresAt(rec).Some? && now + within < ExpiresAt(rec).value
    case RefreshRejected(token) => rec.access.Some? && rec.access.value != token
  }

  lemma WantedIff(d: Door, rec: Record)
    requires Complete(rec)
    ensures Wants(d, rec) <==> !GoodEnough(d, rec)
  {
  }

  /** A door answers without a request exactly where the pair it answers with is good enough, and asks of no other. */
  lemma AnswersUnaskedIff(w: World, p: Proc, cfg: nat, d: Door, f: RefreshRun)
    requires Valid(w) && f.refresh.meanwhile.Untouched?
    requires RefreshSection(w, p, cfg, d, f).out.Value?
    ensures
      var s := Settle(w, p, cfg, f.settle);
      var r := ReadRaw(s.w, p, f.measure, f.read);
      var c := RefreshSection(w, p, cfg, d, f);
      && s.out.Value? && r.word == Present
      && (c.w.asks == w.asks <==> GoodEnough(d, r.rec.value))
      && (c.w.asks == w.asks ==> c.out == Value(r) && c.w == s.w)
  {
    var s := Settle(w, p, cfg, f.settle);
    SettleMoves(w, p, cfg, f.settle);
    SettlePublishes(w, p, cfg, f.settle);
    var r := ReadRaw(s.w, p, f.measure, f.read);
    ReadRawKnown(s.w, p, f.measure, f.read);
    WantedIff(d, r.rec.value);
    if Wants(d, r.rec.value) {
      var fromUnsaved := Served(s.w, p, f.measure);
      LockedAnswers(s.w, p, cfg, r, fromUnsaved, f.refresh);
      AskedIff(s.w, p, cfg, r, fromUnsaved, f.refresh);
    }
  }
}
