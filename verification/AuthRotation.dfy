/** A refresh token the endpoint has rotated is not sent again, and one access token is refreshed once. */
module AuthRotation {
  import opened Wrappers
  import opened Credential
  import opened AuthSteps
  import opened AuthFacts
  import opened AuthRuns
  import opened AuthDead
  import opened AuthPairs

  /** No request after an answered one carries its refresh token, or was made over its access token. */
  ghost predicate NoneTwice(asks: seq<Ask>) {
    forall i, j | 0 <= i < j < |asks| && asks[i].answer.Granted? ::
      asks[j].refresh != asks[i].refresh && asks[j].access != asks[i].access
  }

  /** No answered request carried either token of this record. */
  ghost predicate Unspent(asks: seq<Ask>, rec: Record) {
    forall i | 0 <= i < |asks| && asks[i].answer.Granted? ::
      Some(asks[i].refresh) != rec.refresh && Some(asks[i].access) != rec.access
  }

  /** The answer rotates both tokens: it carries a pair that no request so far used and that differs from the one sent. */
  ghost predicate Rotates(asks: seq<Ask>, sent: Record, a: Answer) {
    a.Granted? ==>
      && a.access.Some? && a.refresh.Some?
      && a.access != sent.access && a.refresh != sent.refresh
      && forall i | 0 <= i < |asks| :: Some(asks[i].refresh) != a.refresh && Some(asks[i].access) != a.access
  }

  lemma AskKeepsNoneTwice(asks: seq<Ask>, rec: Record, ask: Ask)
    requires NoneTwice(asks) && Unspent(asks, rec)
    requires Some(ask.refresh) == rec.refresh && Some(ask.access) == rec.access
    ensures NoneTwice(asks + [ask])
  {
  }

  lemma RotatedIsUnspent(asks: seq<Ask>, sent: Record, ask: Ask, a: Answer, at: int)
    requires a.Granted? && Rotates(asks, sent, a) && Complete(sent)
    requires Some(ask.refresh) == sent.refresh && Some(ask.access) == sent.access
    ensures Answered(a) && Unspent(asks + [ask], Merge(sent, a, at))
  {
  }

  lemma UngrantedKeepsUnspent(asks: seq<Ask>, rec: Record, ask: Ask)
    requires Unspent(asks, rec) && !ask.answer.Granted?
    ensures Unspent(asks + [ask], rec)
  {
  }

  // ── any number of processes, every commit landing ─────────────────────────────────────────────

  /** Nothing unsaved, no checkpoint, and the file's pair is one the endpoint has not rotated. */
  ghost predicate AtRest(w: World) {
    && Valid(w) && w.pending.Missing? && w.unsaved == map[]
    && NoneTwice(w.asks)
    && (Whole(w.cred) ==> Unspent(w.asks, w.cred.content.rec))
  }

  /** The commit lands. */
  predicate Lands(f: CommitFaults) {
    f.read.Reads? && Fsynced(f) && f.rename.Fine? && f.dirsync.Fine?
  }

  /** The step is one of `ensure_fresh`, `refresh_rejected`, a settle, an upstream answer, a death between sections, or a
      sign-in. A granted answer arrives, rotates both tokens, and its commit lands. A sign-in brings a pair the endpoint
      has not rotated; its tries may fail at any operation, but nobody dies in it and a checkpoint it leaves can be
      removed. */
  ghost predicate Landing(w: World, s: Step)
    requires Legal(s)
  {
    match s
    case Refresh(_, _, _, f) =>
      && f.refresh.meanwhile.Untouched?
      && (f.refresh.answer.Granted? ==> !f.refresh.dies && Lands(f.refresh.commit))
      && (Whole(w.cred) ==> Rotates(w.asks, w.cred.content.rec, f.refresh.answer))
    case UpstreamAnswer(_, _, _, _, _, _) => true
    case SettleOnly(_, _, _) => true
    case Signin(_, _, rec, _, f) => !DiesIn(w, s) && Unspent(w.asks, rec) && forall t <- f.tries :: t.cleanup.Fine?
    case Crash(_, _) => true
    case Tick(_) => true
    case _ => false
  }

  /** With nothing to settle, the settle changes nothing. */
  lemma SettleIdle(w: World, p: Proc, cfg: nat, f: SettleFaults)
    requires w.pending.Missing? && p !in w.unsaved
    ensures Settle(w, p, cfg, f).w == w && !Settle(w, p, cfg, f).out.Died?
  {
  }

  lemma LandedCommit(w: World, p: Proc, rec: Record, refreshed: Option<Refreshed>, f: CommitFaults)
    requires Lands(f) && Writable(w.cred)
    ensures
      var c := CommitRecord(w, p, rec, refreshed, f);
      && c.out == Value(true) && Holds(c.w.cred, rec) && c.w.pending.Missing?
      && c.w.unsaved == w.unsaved - {p} && c.w.asks == w.asks
  {
  }

  /** A status write touches no file but the status and no record but a dying process's. */
  lemma StatusKeepsRest(w: World, p: Proc, s: Status, f: Fate)
    requires w.pending.Missing? && w.unsaved == map[]
    ensures
      var c := WriteStatus(w, p, s, f);
      c.w.cred == w.cred && c.w.pending.Missing? && c.w.unsaved == map[] && c.w.asks == w.asks
  {
    if f.Dies? {
      assert w.unsaved - {p} == map[];
    }
  }

  lemma GrantedSettles(w: World, p: Proc, cfg: nat, r: Reading, prev: Option<Status>, f: RefreshFaults)
    requires r.rec.Some? && Answered(f.answer) && Lands(f.commit) && Writable(w.cred)
    requires w.unsaved == map[]
    ensures
      var c := RefreshGranted(w, p, cfg, r, false, prev, f);
      && Holds(c.w.cred, Merge(r.rec.value, f.answer, f.at))
      && c.w.pending.Missing? && c.w.unsaved == map[] && c.w.asks == w.asks
  {
    var rec := Merge(r.rec.value, f.answer, f.at);
    var refreshed := Refreshed(f.at, f.answer.rid);
    LandedCommit(w, p, rec, Some(refreshed), f.commit);
    var c := CommitRecord(w, p, rec, Some(refreshed), f.commit);
    assert w.unsaved - {p} == map[];
    StatusKeepsRest(c.w, p, GrantedStatus(c, p, cfg, r, rec, prev, refreshed, f), f.status);
  }

  lemma RefusedSettles(w: World, w0: World, p: Proc, cfg: nat, r: Reading, prev: Option<Status>, f: RefreshFaults)
    requires r.rec.Some? && !Answered(f.answer) && Valid(w) && KnownCond(r.ident, w)
    requires w.pending.Missing? && w.unsaved == map[]
    ensures
      var c := RefreshRefused(w, w0, p, cfg, r, false, prev, f);
      c.w.cred == w.cred && c.w.pending.Missing? && c.w.unsaved == map[] && c.w.asks == w.asks
  {
    RefusedShape(w, w0, p, cfg, r, false, prev, f);
    var c := RefreshRefused(w, w0, p, cfg, r, false, prev, f);
    forall q ensures q !in c.w.unsaved {
      RefusedForgets(w, w0, p, cfg, r, prev, f);
    }
  }

  lemma RefusedForgets(w: World, w0: World, p: Proc, cfg: nat, r: Reading, prev: Option<Status>, f: RefreshFaults)
    requires r.rec.Some? && !Answered(f.answer) && w.unsaved == map[] && w.pending.Missing?
    ensures
      var c := RefreshRefused(w, w0, p, cfg, r, false, prev, f);
      c.w.unsaved == map[] && c.w.pending.Missing?
  {
    assert w.unsaved - {p} == map[];
  }

  lemma RefreshKeepsSettled(w: World, p: Proc, cfg: nat, d: Door, f: RefreshRun)
    requires AtRest(w) && Landing(w, Refresh(p, cfg, d, f))
    ensures AtRest(RefreshSection(w, p, cfg, d, f).w)
  {
    SettleIdle(w, p, cfg, f.settle);
    RefreshSectionMoves(w, p, cfg, d, f);
    if Settle(w, p, cfg, f.settle).out.Value? {
      var r := ReadRaw(w, p, f.measure, f.read);
      ReadRawKnown(w, p, f.measure, f.read);
      if RaiseFor(r).None? && Wants(d, r.rec.value) {
        LockedKeepsSettled(w, p, cfg, r, f.refresh);
      }
    }
  }

  lemma LockedKeepsSettled(w: World, p: Proc, cfg: nat, r: Reading, f: RefreshFaults)
    requires AtRest(w) && r.word == Present && r.rec.Some? && Complete(r.rec.value)
    requires Holds(w.cred, r.rec.value) && r.ident == CondOf(w.cred)
    requires f.meanwhile.Untouched? && (f.answer.Granted? ==> !f.dies && Lands(f.commit))
    requires Rotates(w.asks, r.rec.value, f.answer)
    ensures
      var c := RefreshLocked(w, p, cfg, r, false, f);
      && c.w.pending.Missing? && c.w.unsaved == map[] && NoneTwice(c.w.asks)
      && (Whole(c.w.cred) ==> Unspent(c.w.asks, c.w.cred.content.rec))
  {
    if Barred(w, cfg, false, f.gate) || f.answer.NotSent? {
      assert w.unsaved - {p} == map[];
      return;
    }
    var sent := r.rec.value;
    var ask := Ask(p, sent.refresh.value, sent.access.value, true, f.answer);
    var w1 := AfterTrip(w, p, sent, false, f);
    TripMoves(w, p, sent, false, f);
    assert w1.asks == w.asks + [ask];
    AskKeepsNoneTwice(w.asks, sent, ask);
    var prev := ReadStatus(w, f.prev);
    if f.answer.Granted? {
      RotatedIsUnspent(w.asks, sent, ask, f.answer, f.at);
      GrantedSettles(w1, p, cfg, r, prev, f);
    } else {
      UngrantedKeepsUnspent(w.asks, sent, ask);
      assert w.unsaved - {p} == map[];
      if !f.dies {
        RefusedSettles(w1, w, p, cfg, r, prev, f);
      }
    }
  }

  lemma CommitClears(w: World, p: Proc, rec: Record, refreshed: Option<Refreshed>, f: CommitFaults)
    requires w.pending.Missing? && f.cleanup.Fine?
    ensures
      var c := CommitRecord(w, p, rec, refreshed, f);
      !c.out.Died? ==> c.w.pending.Missing?
  {
  }

  lemma {:induction false} TriesClear(w: World, p: Proc, rec: Record, refreshed: Refreshed, fs: seq<CommitFaults>)
    requires w.pending.Missing? && forall f <- fs :: f.cleanup.Fine?
    ensures
      var t := Tries(w, p, rec, refreshed, fs);
      !t.out.Died? ==> t.w.pending.Missing?
    decreases |fs|
  {
    if fs != [] {
      assert fs[0] in fs;
      CommitClears(w, p, rec, Some(refreshed), fs[0]);
      var c := CommitRecord(w, p, rec, Some(refreshed), fs[0]);
      if c.out == Value(false) {
        TriesClear(c.w, p, rec, refreshed, fs[1..]);
      }
    }
  }

  /** A sign-in nobody dies in leaves nothing unsaved and no checkpoint, whether it lands or is refused. */
  lemma SigninSettles(w: World, p: Proc, cfg: nat, rec: Record, refreshed: Refreshed, f: SigninFaults)
    requires Valid(w) && Complete(rec) && w.pending.Missing? && w.unsaved == map[]
    requires forall t <- f.tries :: t.cleanup.Fine?
    ensures
      var c := SigninTries(w, p, cfg, rec, refreshed, f);
      !c.out.Died? ==>
        && c.w.pending.Missing? && c.w.unsaved == map[] && c.w.asks == w.asks
        && (c.w.cred == w.cred || Holds(c.w.cred, rec))
  {
    TriesShape(w, p, rec, refreshed, f.tries);
    TriesClear(w, p, rec, refreshed, f.tries);
    TriesMoves(w, p, rec, refreshed, f.tries);
    TriesKeepOthers(w, p, rec, refreshed, f.tries);
    var t := Tries(w, p, rec, refreshed, f.tries);
    assert t.w.unsaved - {p} == map[];
  }

  lemma StepKeepsSettled(w: World, s: Step)
    requires AtRest(w) && Legal(s) && Landing(w, s)
    ensures AtRest(Apply(w, s))
  {
    StepMoves(w, s);
    match s
    case Refresh(p, cfg, d, f) => RefreshKeepsSettled(w, p, cfg, d, f);
    case UpstreamAnswer(p, cfg, state, code, rid, f) =>
      RecordUpstreamMoves(w, p, cfg, state, code, rid, f);
      UpstreamKeepsFiles(w, p, cfg, state, code, rid, f);
      UpstreamForgets(w, p, cfg, state, code, rid, f);
    case SettleOnly(p, cfg, f) => SettleIdle(w, p, cfg, f);
    case Signin(p, cfg, rec, refreshed, f) =>
      SettleIdle(w, p, cfg, f.settle);
      SigninSettles(w, p, cfg, rec, refreshed, f);
    case Crash(p, _) => assert w.unsaved - {p} == map[];
    case Tick(_) =>
  }

  lemma UpstreamForgets(w: World, p: Proc, cfg: nat, state: Option<State>, code: Option<nat>, rid: Option<nat>, f: UpstreamFaults)
    requires state.Some? ==> Recordable(state.value)
    requires w.unsaved == map[]
    ensures RecordUpstream(w, p, cfg, state, code, rid, f).w.unsaved == map[]
  {
    assert w.unsaved - {p} == map[];
  }

  /** Every step of the run is one whose commit, if it makes one, lands. */
  ghost predicate AllLand(w: World, steps: seq<Step>)
    decreases |steps|
  {
    steps != [] ==> Legal(steps[0]) && Landing(w, steps[0]) && AllLand(Apply(w, steps[0]), steps[1..])
  }

  lemma {:induction false} AllLandIsLegal(w: World, steps: seq<Step>)
    requires AllLand(w, steps)
    ensures forall s <- steps :: Legal(s)
    decreases |steps|
  {
    if steps != [] {
      AllLandIsLegal(Apply(w, steps[0]), steps[1..]);
    }
  }

  /** Under every interleaving of any number of processes, once the endpoint has answered a request no later request
      carries its refresh token, and no later request is made over its access token: callers rejected on one access
      token make one answered request between them. Sign-ins, landing or refused, change nothing of that. */
  lemma {:induction false} NeverSentTwice(w: World, steps: seq<Step>)
    requires AtRest(w) && AllLand(w, steps) && forall s <- steps :: Legal(s)
    ensures AtRest(Exec(w, steps)) && NoneTwice(Exec(w, steps).asks)
    decreases |steps|
  {
    if steps != [] {
      StepKeepsSettled(w, steps[0]);
      AllLandIsLegal(w, steps);
      NeverSentTwice(Apply(w, steps[0]), steps[1..]);
    }
  }

  // ── one process, commits failing anywhere ─────────────────────────────────────────────────────

  /** One process has the lane to itself, and whatever it would refresh next is a pair the endpoint has not rotated:
      its unsaved record while it holds one, else the file's, unless the status bars that file as dead. */
  ghost predicate Alone(w: World, p: Proc) {
    && Valid(w) && NoneTwice(w.asks)
    && (forall q <- w.unsaved :: q == p)
    && (Candidate(w.pending) ==> Unspent(w.asks, w.pending.content.rec))
    && (p in w.unsaved ==> w.unsaved[p].bound == CondOf(w.cred) && Unspent(w.asks, w.unsaved[p].rec))
    && (p !in w.unsaved && Whole(w.cred) ==> Dead(w) || Unspent(w.asks, w.cred.content.rec))
  }

  /** A whole checkpoint, if one stands, is of the record the process holds. */
  predicate OwnCheckpoint(w: World, p: Proc) {
    Candidate(w.pending) ==> p in w.unsaved && w.pending.content.rec == w.unsaved[p].rec
  }

  /** The answer's pair is new to everything the lane holds. */
  ghost predicate RotatesAll(w: World, p: Proc, a: Answer) {
    && (Whole(w.cred) ==> Rotates(w.asks, w.cred.content.rec, a))
    && (Candidate(w.pending) ==> Rotates(w.asks, w.pending.content.rec, a))
    && (p in w.unsaved ==> Rotates(w.asks, w.unsaved[p].rec, a))
  }

  /** The status says needs-signin, of this file or of an earlier one. */
  predicate SaysDead(w: World) {
    w.status.Some? && w.status.value.state == NeedsSignin
  }

  /** The commit removes the checkpoint it finds: at its start, or in its handler. */
  predicate Clears(f: CommitFaults) {
    f.read.Reads? && !(f.unlink.Fails? && f.cleanup.Fails?)
  }

  /** A refresh, a settle or an upstream answer by `p`, in which every `lstat` of the file measures, nobody dies, and
      the endpoint, if it grants, rotates; it may refuse any token. Commits may fail at any operation, and so may their
      handlers, but where a retry could not remove its own checkpoint an answered refresh after it can. A needs-signin
      is read where it stands, and written where a record in memory is refused. */
  ghost predicate Solo(w: World, s: Step, p: Proc)
    requires Legal(s)
  {
    && !DiesIn(w, s)
    && match s
       case Refresh(q, _, _, f) =>
         && q == p && f.measure && f.settle.retry.measure && f.settle.retry.commit.measure && f.refresh.commit.measure
         && f.refresh.meanwhile.Untouched? && RotatesAll(w, p, f.refresh.answer)
         && (f.settle.retry.commit.cleanup.Fine? || !f.refresh.answer.Granted? || Clears(f.refresh.commit))
         && (SaysDead(w) ==> f.refresh.gate)
         && (f.refresh.answer.RefusedToken? && p in w.unsaved ==> f.refresh.gate && f.refresh.status.Fine?)
       case UpstreamAnswer(q, _, _, _, _, f) => q == p && (SaysDead(w) ==> f.prev)
       case SettleOnly(q, _, f) => q == p && f.retry.measure && f.retry.commit.measure
       case Tick(_) => true
       case _ => false
  }

  lemma CheckpointContent(w: World, p: Proc, rec: Record, f: CommitFaults)
    requires !f.unlink.Dies?
    ensures
      var (w1, progress) := WriteCheckpoint(w, p, rec, f);
      Candidate(w1.pending) ==> w1.pending.content.rec == rec || (w1.pending == w.pending && f.unlink.Fails? && progress.Broke?)
  {
  }

  lemma ConcludeContent(w: World, progress: Progress, p: Proc, e: Entry, f: CommitFaults)
    ensures
      var c := Conclude(w, progress, p, e, f);
      Candidate(c.w.pending) && !c.out.Died? ==> c.w.pending == w.pending && (progress.Broke? ==> !f.cleanup.Fine?)
  {
  }

  /** A whole checkpoint a commit leaves is its own, where it found none or can remove the one it found. */
  lemma CommitContent(w: World, p: Proc, rec: Record, refreshed: Option<Refreshed>, f: CommitFaults)
    requires Candidate(w.pending) ==> Writable(w.cred) && Clears(f)
    ensures
      var c := CommitRecord(w, p, rec, refreshed, f);
      Candidate(c.w.pending) && !c.out.Died? ==> c.w.pending.content.rec == rec
  {
    if Unwritable(ReadFile(w, f.read)).None? && !f.unlink.Dies? {
      CheckpointContent(w, p, rec, f);
      var (w1, progress) := WriteCheckpoint(w, p, rec, f);
      ConcludeContent(w1, progress, p, Entry(rec, ReadFile(w, f.read).ident, refreshed), f);
    }
  }

  /** A commit of an unspent record, landing or failing, leaves the process refreshing that record next. */
  lemma CommitAlone(w: World, p: Proc, rec: Record, refreshed: Option<Refreshed>, f: CommitFaults)
    requires Valid(w) && NoneTwice(w.asks) && (forall q <- w.unsaved :: q == p)
    requires Candidate(w.pending) ==> Writable(w.cred) && Clears(f)
    requires Complete(rec) && Unspent(w.asks, rec) && f.measure
    ensures
      var c := CommitRecord(w, p, rec, refreshed, f);
      c.out.Value? ==> Alone(c.w, p) && OwnCheckpoint(c.w, p)
  {
    CommitMoves(w, p, rec, refreshed, f);
    CommitShape(w, p, rec, refreshed, f);
    CommitKeeps(w, p, rec, refreshed, f);
    CommitContent(w, p, rec, refreshed, f);
  }

  lemma RetryAlone(w: World, p: Proc, cfg: nat, f: RetryFaults)
    requires Alone(w, p) && w.pending.Missing? && f.measure && f.commit.measure
    ensures
      var c := RetryUnsaved(w, p, cfg, f);
      && (!c.out.Died? ==> Alone(c.w, p) && OwnCheckpoint(c.w, p))
      && (SaysDead(c.w) ==> SaysDead(w))
  {
    if p in w.unsaved {
      var e := w.unsaved[p];
      CommitAlone(w, p, e.rec, e.refreshed, f.commit);
      CommitShape(w, p, e.rec, e.refreshed, f.commit);
      RetryFromAlone(CommitRecord(w, p, e.rec, e.refreshed, f.commit), p, cfg, e, ReadStatus(w, f.prev), f);
    }
  }

  lemma RetryFromAlone(c: Run<bool>, p: Proc, cfg: nat, e: Entry, prev: Option<Status>, f: RetryFaults)
    requires !c.out.Died? ==> Alone(c.w, p) && OwnCheckpoint(c.w, p)
    requires c.out == Value(true) && Whole(c.w.cred) ==> Unspent(c.w.asks, c.w.cred.content.rec)
    ensures
      var r := RetryFrom(c, p, cfg, e, prev, f);
      && (!r.out.Died? ==> Alone(r.w, p) && OwnCheckpoint(r.w, p))
      && (SaysDead(r.w) ==> SaysDead(c.w))
  {
    if c.out.Value? && c.out.v {
      StatusMoves(c.w, p, RetriedStatus(e, prev, cfg, CurrentIdentity(c.w, f.remeasure)), f.status);
    }
  }

  lemma SettleAlone(w: World, p: Proc, cfg: nat, f: SettleFaults)
    requires Alone(w, p) && f.retry.measure && f.retry.commit.measure
    ensures
      var c := Settle(w, p, cfg, f);
      && (!c.out.Died? ==> Alone(c.w, p))
      && (c.out.Value? ==> OwnCheckpoint(c.w, p))
      && (SaysDead(c.w) ==> SaysDead(w))
      && c.w.asks == w.asks
  {
    var a := RecoverPending(w, p, f.recover);
    RecoverShape(w, p, f.recover);
    RecoverFactsMove(w, p, a);
    if a.out.Value? {
      RetryAsksNothing(a.w, p, cfg, f.retry);
      if a.w.cred == w.cred {
        RetryAlone(a.w, p, cfg, f.retry);
      } else {
        RetryMoves(a.w, p, cfg, f.retry);
        RetryDrops(a.w, p, cfg, f.retry);
      }
    }
  }

  lemma RetryAsksNothing(w: World, p: Proc, cfg: nat, f: RetryFaults)
    requires Valid(w)
    ensures RetryUnsaved(w, p, cfg, f).w.asks == w.asks
  {
    if p in w.unsaved {
      CommitShape(w, p, w.unsaved[p].rec, w.unsaved[p].refreshed, f.commit);
    }
  }

  lemma GrantedAlone(w: World, p: Proc, cfg: nat, r: Reading, fromUnsaved: bool, prev: Option<Status>, f: RefreshFaults)
    requires r.rec.Some? && Complete(r.rec.value) && Answered(f.answer) && f.commit.measure
    requires Valid(w) && NoneTwice(w.asks) && (forall q <- w.unsaved :: q == p)
    requires Candidate(w.pending) ==> Writable(w.cred) && Clears(f.commit)
    requires Unspent(w.asks, Merge(r.rec.value, f.answer, f.at)) && r.ident == CondOf(w.cred)
    ensures
      var c := RefreshGranted(w, p, cfg, r, fromUnsaved, prev, f);
      !c.out.Died? ==> Alone(c.w, p)
  {
    var rec := Merge(r.rec.value, f.answer, f.at);
    var refreshed := Refreshed(f.at, f.answer.rid);
    CommitAlone(w, p, rec, Some(refreshed), f.commit);
    CommitMoves(w, p, rec, Some(refreshed), f.commit);
    CommitShape(w, p, rec, Some(refreshed), f.commit);
    CommitKeeps(w, p, rec, Some(refreshed), f.commit);
    CommitContent(w, p, rec, Some(refreshed), f.commit);
    var c := CommitRecord(w, p, rec, Some(refreshed), f.commit);
    GrantedFromAlone(w, c, p, cfg, r, rec, fromUnsaved && Bars(prev, cfg), prev, refreshed, f);
  }

  lemma GrantedFromAlone(w: World, c: Run<bool>, p: Proc, cfg: nat, r: Reading, rec: Record, standing: bool,
                         prev: Option<Status>, refreshed: Refreshed, f: RefreshFaults)
    requires Complete(rec) && Unspent(w.asks, rec) && r.ident == CondOf(w.cred) && Moves(w, c.w, p, false)
    requires NoneTwice(w.asks) && c.w.asks == w.asks && (forall q <- c.w.unsaved :: q == p)
    requires c.out.Value? ==> Alone(c.w, p) && (c.out.v ==> Holds(c.w.cred, rec) && p !in c.w.unsaved)
    requires c.out.Value? && !c.out.v ==> p in c.w.unsaved
    requires c.out.Raise? ==> c.w == w && (Candidate(w.pending) ==> Unspent(w.asks, w.pending.content.rec))
    ensures
      var g := GrantedFrom(c, p, cfg, r, rec, standing, prev, refreshed, f);
      !g.out.Died? ==> Alone(g.w, p)
  {
    match c.out
    case Died =>
    case Raise(_) => KeepMoves(w, p, Entry(rec, r.ident, Some(refreshed)));
    case Value(_) => StatusMoves(c.w, p, GrantedStatus(c, p, cfg, r, rec, prev, refreshed, f), f.status);
  }

  /** A record in memory whose token is refused is dropped, and the file it was bound to is barred from then on. */
  lemma RefusedIsDead(w: World, w0: World, p: Proc, cfg: nat, r: Reading, prev: Option<Status>, f: RefreshFaults)
    requires r.rec.Some? && p in w0.unsaved && f.answer.RefusedToken? && f.status.Fine?
    requires r.ident == CondOf(w.cred)
    requires Bars(prev, cfg) ==> prev == w.status && prev.value.state == NeedsSignin && Current(w)
    ensures
      var c := RefreshRefused(w, w0, p, cfg, r, true, prev, f);
      && c.w.cred == w.cred && c.w.pending == w.pending && c.w.unsaved == w.unsaved - {p} && c.w.asks == w.asks
      && (w.cred.File? ==> Dead(c.w))
  {
  }

  /** What the section refreshes, and what its answer leaves to be refreshed next. */
  lemma LockedAlone(w: World, p: Proc, cfg: nat, r: Reading, fromUnsaved: bool, f: RefreshFaults)
    requires Alone(w, p) && OwnCheckpoint(w, p) && (fromUnsaved <==> p in w.unsaved)
    requires r.word == Present && r.rec.Some? && Complete(r.rec.value) && r.ident == CondOf(w.cred)
    requires fromUnsaved ==> r.rec.value == w.unsaved[p].rec
    requires !fromUnsaved ==> Holds(w.cred, r.rec.value)
    requires f.meanwhile.Untouched? && f.commit.measure && Rotates(w.asks, r.rec.value, f.answer)
    requires SaysDead(w) ==> f.gate
    requires f.answer.RefusedToken? && fromUnsaved ==> f.gate && f.status.Fine?
    requires f.answer.Granted? && Candidate(w.pending) ==> Writable(w.cred) && Clears(f.commit)
    ensures
      var c := RefreshLocked(w, p, cfg, r, fromUnsaved, f);
      !c.out.Died? ==> Alone(c.w, p)
  {
    if Barred(w, cfg, fromUnsaved, f.gate) || f.answer.NotSent? || f.dies {
      return;
    }
    var sent := r.rec.value;
    assert Unspent(w.asks, sent);
    var ask := Ask(p, sent.refresh.value, sent.access.value, !fromUnsaved, f.answer);
    var w1 := AfterTrip(w, p, sent, fromUnsaved, f);
    TripMoves(w, p, sent, fromUnsaved, f);
    assert w1.asks == w.asks + [ask];
    AskKeepsNoneTwice(w.asks, sent, ask);
    var prev := ReadStatus(w, f.prev);
    if f.answer.Granted? {
      RotatedIsUnspent(w.asks, sent, ask, f.answer, f.at);
      GrantedAlone(w1, p, cfg, r, fromUnsaved, prev, f);
    } else {
      UngrantedKeepsUnspent(w.asks, sent, ask);
      UngrantedAlone(w, w1, p, ask);
      RefusedAlone(w1, w, p, cfg, r, fromUnsaved, prev, f);
    }
  }

  lemma UngrantedAlone(w: World, w1: World, p: Proc, ask: Ask)
    requires Alone(w, p) && Valid(w1) && !ask.answer.Granted? && w1 == w.(asks := w.asks + [ask]) && NoneTwice(w1.asks)
    ensures Alone(w1, p)
  {
    if Candidate(w.pending) {
      UngrantedKeepsUnspent(w.asks, w.pending.content.rec, ask);
    }
    if Whole(w.cred) && !Dead(w) && p !in w.unsaved {
      UngrantedKeepsUnspent(w.asks, w.cred.content.rec, ask);
    }
  }

  lemma RefusedAlone(w: World, w0: World, p: Proc, cfg: nat, r: Reading, fromUnsaved: bool, prev: Option<Status>, f: RefreshFaults)
    requires Alone(w, p) && (fromUnsaved <==> p in w.unsaved) && w0.unsaved == w.unsaved
    requires r.rec.Some? && Complete(r.rec.value) && r.ident == CondOf(w.cred) && !f.answer.Granted?
    requires prev == ReadStatus(w, f.prev) && !Barred(w, cfg, fromUnsaved, f.gate)
    requires !fromUnsaved ==> Holds(w.cred, r.rec.value) && Unspent(w.asks, r.rec.value)
    requires f.answer.RefusedToken? && fromUnsaved ==> f.gate && f.status.Fine?
    ensures
      var c := RefreshRefused(w, w0, p, cfg, r, fromUnsaved, prev, f);
      !c.out.Died? ==> Alone(c.w, p)
  {
    RefusedShape(w, w0, p, cfg, r, fromUnsaved, prev, f);
    if f.answer.RefusedToken? && fromUnsaved {
      RefusedIsDead(w, w0, p, cfg, r, prev, f);
    }
  }

  lemma SettleClears(w: World, p: Proc, cfg: nat, f: SettleFaults)
    requires f.retry.commit.cleanup.Fine?
    ensures
      var c := Settle(w, p, cfg, f);
      c.out.Value? ==> c.w.pending.Missing?
  {
    RecoverShape(w, p, f.recover);
    var a := RecoverPending(w, p, f.recover);
    if a.out.Value? {
      RetryClears(a.w, p, cfg, f.retry);
    }
  }

  lemma RetryClears(w: World, p: Proc, cfg: nat, f: RetryFaults)
    requires w.pending.Missing? && f.commit.cleanup.Fine?
    ensures
      var c := RetryUnsaved(w, p, cfg, f);
      !c.out.Died? ==> c.w.pending.Missing?
  {
    if p in w.unsaved {
      CommitClears(w, p, w.unsaved[p].rec, w.unsaved[p].refreshed, f.commit);
    }
  }

  /** A checkpoint the settle leaves is one its retry wrote, over a file that could be written over. */
  lemma SettleLeavesWritable(w: World, p: Proc, cfg: nat, f: SettleFaults)
    requires Valid(w)
    ensures
      var c := Settle(w, p, cfg, f);
      c.out.Value? && !c.w.pending.Missing? ==> Writable(c.w.cred)
  {
    RecoverShape(w, p, f.recover);
    var a := RecoverPending(w, p, f.recover);
    RecoverFactsMove(w, p, a);
    if a.out.Value? {
      RetryLeavesWritable(a.w, p, cfg, f.retry);
    }
  }

  lemma RetryLeavesWritable(w: World, p: Proc, cfg: nat, f: RetryFaults)
    requires Valid(w) && w.pending.Missing?
    ensures
      var c := RetryUnsaved(w, p, cfg, f);
      c.out.Value? && !c.w.pending.Missing? ==> Writable(c.w.cred)
  {
    if p in w.unsaved {
      var e := w.unsaved[p];
      CommitShape(w, p, e.rec, e.refreshed, f.commit);
      if Unwritable(ReadFile(w, f.commit.read)).None? {
        Proceeds(w, f.commit.read);
      }
    }
  }

  lemma AfterSettleAlone(w: World, p: Proc, cfg: nat, d: Door, f: RefreshRun)
    requires Alone(w, p) && OwnCheckpoint(w, p) && f.measure
    requires f.refresh.meanwhile.Untouched? && f.refresh.commit.measure
    requires Whole(w.cred) ==> Rotates(w.asks, w.cred.content.rec, f.refresh.answer)
    requires p in w.unsaved ==> Rotates(w.asks, w.unsaved[p].rec, f.refresh.answer)
    requires SaysDead(w) ==> f.refresh.gate
    requires f.refresh.answer.RefusedToken? && p in w.unsaved ==> f.refresh.gate && f.refresh.status.Fine?
    requires f.refresh.answer.Granted? && Candidate(w.pending) ==> Writable(w.cred) && Clears(f.refresh.commit)
    ensures
      var c := AfterSettle(w, p, cfg, d, f);
      !c.out.Died? ==> Alone(c.w, p)
  {
    var r := ReadRaw(w, p, f.measure, f.read);
    ReadRawKnown(w, p, f.measure, f.read);
    if RaiseFor(r).None? && Wants(d, r.rec.value) {
      LockedAlone(w, p, cfg, r, Served(w, p, f.measure), f.refresh);
    }
  }

  lemma RefreshAlone(w: World, p: Proc, cfg: nat, d: Door, f: RefreshRun)
    requires Alone(w, p) && Solo(w, Refresh(p, cfg, d, f), p)
    ensures Alone(RefreshSection(w, p, cfg, d, f).w, p)
  {
    SettleAlone(w, p, cfg, f.settle);
    SettleRotates(w, p, cfg, f.settle, f.refresh.answer);
    SettleLeavesWritable(w, p, cfg, f.settle);
    SettleMoves(w, p, cfg, f.settle);
    if f.settle.retry.commit.cleanup.Fine? {
      SettleClears(w, p, cfg, f.settle);
    }
    SettleHoldsNoMore(w, p, cfg, f.settle);
    var s := Settle(w, p, cfg, f.settle);
    if s.out.Value? {
      AfterSettleAlone(s.w, p, cfg, d, f);
    }
  }

  /** A settle takes up no record a process did not hold. */
  lemma SettleHoldsNoMore(w: World, p: Proc, cfg: nat, f: SettleFaults)
    requires Valid(w)
    ensures p in Settle(w, p, cfg, f).w.unsaved ==> p in w.unsaved
  {
    RecoverShape(w, p, f.recover);
  }

  /** What the settle leaves to refresh is one of the records the lane held before it. */
  lemma SettleRotates(w: World, p: Proc, cfg: nat, f: SettleFaults, a: Answer)
    requires Alone(w, p) && f.retry.measure && RotatesAll(w, p, a)
    ensures
      var c := Settle(w, p, cfg, f);
      c.out.Value? ==>
        && (Whole(c.w.cred) ==> Rotates(w.asks, c.w.cred.content.rec, a))
        && (p in c.w.unsaved ==> Rotates(w.asks, c.w.unsaved[p].rec, a))
  {
    var b := RecoverPending(w, p, f.recover);
    RecoverShape(w, p, f.recover);
    RecoverFactsMove(w, p, b);
    if b.out.Value? && p in b.w.unsaved {
      var e := b.w.unsaved[p];
      CommitShape(b.w, p, e.rec, e.refreshed, f.retry.commit);
      CommitKeeps(b.w, p, e.rec, e.refreshed, f.retry.commit);
    }
  }

  lemma UpstreamAlone(w: World, p: Proc, cfg: nat, state: Option<State>, code: Option<nat>, rid: Option<nat>, f: UpstreamFaults)
    requires state.Some? ==> Recordable(state.value)
    requires Alone(w, p) && (SaysDead(w) ==> f.prev)
    ensures
      var c := RecordUpstream(w, p, cfg, state, code, rid, f);
      !c.out.Died? ==> Alone(c.w, p)
  {
    RecordUpstreamMoves(w, p, cfg, state, code, rid, f);
    UpstreamKeepsFiles(w, p, cfg, state, code, rid, f);
    UpstreamKeepsDead(w, p, cfg, state, code, rid, f);
  }

  /** An upstream answer leaves a needs-signin as it is, and no checkpoint otherwise. */
  lemma UpstreamKeepsDead(w: World, p: Proc, cfg: nat, state: Option<State>, code: Option<nat>, rid: Option<nat>, f: UpstreamFaults)
    requires state.Some? ==> Recordable(state.value)
    requires SaysDead(w) ==> f.prev
    ensures
      var c := RecordUpstream(w, p, cfg, state, code, rid, f);
      && (Dead(w) ==> Dead(c.w))
      && (!c.out.Died? ==> c.w.pending == w.pending)
  {
  }

  lemma StepAlone(w: World, s: Step, p: Proc)
    requires Alone(w, p) && Legal(s) && Solo(w, s, p)
    ensures Alone(Apply(w, s), p)
  {
    match s
    case Refresh(_, cfg, d, f) => RefreshAlone(w, p, cfg, d, f);
    case UpstreamAnswer(_, cfg, state, code, rid, f) => UpstreamAlone(w, p, cfg, state, code, rid, f);
    case SettleOnly(_, cfg, f) => SettleAlone(w, p, cfg, f);
    case Tick(_) =>
  }

  ghost predicate AllSolo(w: World, steps: seq<Step>, p: Proc)
    decreases |steps|
  {
    steps != [] ==> Legal(steps[0]) && Solo(w, steps[0], p) && AllSolo(Apply(w, steps[0]), steps[1..], p)
  }

  /** One process alone never sends a rotated token again either, though its commits fail, time after time, and its
      tokens are refused: it refreshes the record it holds in memory, and once that one is refused and dropped, the file
      under it, whose token is spent, is barred. */
  lemma {:induction false} OneProcessNeverSendsTwice(w: World, steps: seq<Step>, p: Proc)
    requires Alone(w, p) && AllSolo(w, steps, p) && forall s <- steps :: Legal(s)
    ensures NoneTwice(Exec(w, steps).asks)
    decreases |steps|
  {
    if steps != [] {
      StepAlone(w, steps[0], p);
      OneProcessNeverSendsTwice(Apply(w, steps[0]), steps[1..], p);
    }
  }
}
