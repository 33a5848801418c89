/** A pair the endpoint has handed out is not lost: where it is after any step, and the only ways it can be given up. */
module AuthPairs {
  import opened Wrappers
  import opened Credential
  import opened AuthSteps
  import opened AuthFacts
  import opened AuthRuns
  import opened AuthDead

  /** A whole, durable checkpoint of `rec`, no older than the file: the one the next holder promotes. */
  predicate Recoverable(w: World, rec: Record) {
    && w.pending.File? && w.pending.content == Backend(rec) && w.pending.synced
    && (w.cred.Missing? || w.pending.id.mtime >= w.cred.id.mtime)
  }

  /** The process holds `rec` unsaved, bound to what stands at the path. */
  predicate InMemory(w: World, p: Proc, rec: Record) {
    p in w.unsaved && w.unsaved[p].rec == rec && w.unsaved[p].bound == CondOf(w.cred)
  }

  /** The pair is the credential, a checkpoint the next holder promotes, or the process's unsaved record. */
  predicate Kept(w: World, p: Proc, rec: Record) {
    Holds(w.cred, rec) || Recoverable(w, rec) || InMemory(w, p, rec)
  }

  // ── the refresh that obtains it ───────────────────────────────────────────────────────────────

  /** The commit got as far as its checkpoint's fsync. */
  predicate Fsynced(f: CommitFaults) {
    f.unlink.Fine? && f.create.Fine? && f.chmod.Fine? && f.write.Fine? && f.sync.Fine?
  }

  lemma FsyncedWrote(w: World, p: Proc, rec: Record, f: CommitFaults)
    ensures WriteCheckpoint(w, p, rec, f).1.Wrote? <==> Fsynced(f)
  {
  }

  /** A commit that did not refuse the file keeps the record, and a death inside it, after its checkpoint's fsync,
      leaves the record on the disk. */
  lemma CommitKeeps(w: World, p: Proc, rec: Record, refreshed: Option<Refreshed>, f: CommitFaults)
    requires Valid(w)
    ensures
      var c := CommitRecord(w, p, rec, refreshed, f);
      && (c.out.Value? ==> Holds(c.w.cred, rec) || (p in c.w.unsaved && c.w.unsaved[p].rec == rec))
      && (c.out.Value? && !c.out.v && c.w.cred == w.cred ==> c.w.unsaved[p].bound == CondOf(w.cred))
      && (c.out.Died? && Fsynced(f) ==> Holds(c.w.cred, rec) || Recoverable(c.w, rec))
  {
    var current := ReadFile(w, f.read);
    if Unwritable(current).None? {
      Proceeds(w, f.read);
      CheckpointShape(w, p, rec, f);
      FsyncedWrote(w, p, rec, f);
      var (w1, progress) := WriteCheckpoint(w, p, rec, f);
      ConcludeKeeps(w, w1, progress, p, Entry(rec, current.ident, refreshed), f);
    }
  }

  lemma ConcludeKeeps(w: World, w1: World, progress: Progress, p: Proc, e: Entry, f: CommitFaults)
    requires Valid(w) && CheckpointFacts(w, p, e.rec, w1, progress) && (progress.Wrote? <==> Fsynced(f))
    ensures
      var c := Conclude(w1, progress, p, e, f);
      && (c.out.Value? ==> Holds(c.w.cred, e.rec) || (p in c.w.unsaved && c.w.unsaved[p].rec == e.rec))
      && (c.out.Value? && !c.out.v && c.w.cred == w.cred ==> c.w.unsaved[p].bound == e.bound)
      && (c.out.Died? && Fsynced(f) ==> Holds(c.w.cred, e.rec) || Recoverable(c.w, e.rec))
  {
  }

  /** Once the endpoint has answered with an access token, the pair it gave is kept, or, when the commit's re-read
      refused the file, is the process's unsaved record bound to the file the refresh read. Only a death can end
      otherwise. */
  lemma AnsweredPairIsKept(w: World, p: Proc, cfg: nat, r: Reading, fromUnsaved: bool, f: RefreshFaults)
    requires r.word == Present && r.rec.Some? && Complete(r.rec.value) && KnownCond(r.ident, w)
    requires fromUnsaved ==> p in w.unsaved
    requires Valid(w) && !Barred(w, cfg, fromUnsaved, f.gate) && Answered(f.answer)
    ensures
      var rec := Merge(r.rec.value, f.answer, f.at);
      var c := RefreshLocked(w, p, cfg, r, fromUnsaved, f);
      c.out.Died? || Holds(c.w.cred, rec) || InMemory(c.w, p, rec) ||
      (c.out.Raise? && p in c.w.unsaved && c.w.unsaved[p].rec == rec && c.w.unsaved[p].bound == r.ident)
  {
    if !f.dies {
      var prev := ReadStatus(w, f.prev);
      var w1 := AfterTrip(w, p, r.rec.value, fromUnsaved, f);
      TripMoves(w, p, r.rec.value, fromUnsaved, f);
      GrantedKeeps(w1, p, cfg, r, fromUnsaved, prev, f);
    }
  }

  lemma GrantedKeeps(w: World, p: Proc, cfg: nat, r: Reading, fromUnsaved: bool, prev: Option<Status>, f: RefreshFaults)
    requires r.rec.Some? && Answered(f.answer) && Valid(w)
    ensures
      var rec := Merge(r.rec.value, f.answer, f.at);
      var c := RefreshGranted(w, p, cfg, r, fromUnsaved, prev, f);
      c.out.Died? || Holds(c.w.cred, rec) || InMemory(c.w, p, rec) ||
      (c.out.Raise? && p in c.w.unsaved && c.w.unsaved[p].rec == rec && c.w.unsaved[p].bound == r.ident)
  {
    var rec := Merge(r.rec.value, f.answer, f.at);
    var refreshed := Refreshed(f.at, f.answer.rid);
    CommitShape(w, p, rec, Some(refreshed), f.commit);
    CommitKeeps(w, p, rec, Some(refreshed), f.commit);
    var c := CommitRecord(w, p, rec, Some(refreshed), f.commit);
    GrantedFromKeeps(w, c, p, cfg, r, rec, fromUnsaved && Bars(prev, cfg), prev, refreshed, f);
  }

  lemma GrantedFromKeeps(w: World, c: Run<bool>, p: Proc, cfg: nat, r: Reading, rec: Record, standing: bool,
                         prev: Option<Status>, refreshed: Refreshed, f: RefreshFaults)
    requires c.out.Value? ==> Holds(c.w.cred, rec) || InMemory(c.w, p, rec)
    ensures
      var g := GrantedFrom(c, p, cfg, r, rec, standing, prev, refreshed, f);
      g.out.Died? || Holds(g.w.cred, rec) || InMemory(g.w, p, rec) ||
      (g.out.Raise? && p in g.w.unsaved && g.w.unsaved[p].rec == rec && g.w.unsaved[p].bound == r.ident)
  {
  }

  /** Exactly which deaths after the checkpoint's fsync lose the pair: the one in the status write, of a process whose
      rename failed and whose handler had removed the checkpoint. The record was then in its memory alone. */
  lemma DeathLosesPairIff(w: World, p: Proc, cfg: nat, r: Reading, fromUnsaved: bool, prev: Option<Status>, f: RefreshFaults)
    requires r.rec.Some? && Answered(f.answer) && Valid(w)
    requires !Holds(w.cred, Merge(r.rec.value, f.answer, f.at))
    requires Unwritable(ReadFile(w, f.commit.read)).None? && Fsynced(f.commit)
    requires RefreshGranted(w, p, cfg, r, fromUnsaved, prev, f).out.Died?
    ensures
      var rec := Merge(r.rec.value, f.answer, f.at);
      var lane := RefreshGranted(w, p, cfg, r, fromUnsaved, prev, f).w;
      Holds(lane.cred, rec) || Recoverable(lane, rec) <==> !(f.commit.rename.Fails? && f.commit.cleanup.Fine?)
  {
    var rec := Merge(r.rec.value, f.answer, f.at);
    var refreshed := Refreshed(f.at, f.answer.rid);
    Proceeds(w, f.commit.read);
    CheckpointShape(w, p, rec, f.commit);
    FsyncedWrote(w, p, rec, f.commit);
    var (w1, progress) := WriteCheckpoint(w, p, rec, f.commit);
    var e := Entry(rec, CondOf(w.cred), Some(refreshed));
    PublishEnds(w, w1, p, e, f.commit);
    var c := Publish(w1, p, e, f.commit);
    assert c == CommitRecord(w, p, rec, Some(refreshed), f.commit);
    StatusDeathEnds(c, p, cfg, r, rec, fromUnsaved && Bars(prev, cfg), prev, refreshed, f);
  }

  /** Where a whole checkpoint's record is once the rename has been tried. */
  lemma PublishEnds(w: World, w1: World, p: Proc, e: Entry, f: CommitFaults)
    requires Valid(w) && CheckpointFacts(w, p, e.rec, w1, Wrote) && !Holds(w.cred, e.rec)
    ensures
      var c := Publish(w1, p, e, f);
      && !c.out.Raise?
      && (Holds(c.w.cred, e.rec) || Recoverable(c.w, e.rec) <==> !(f.rename.Fails? && f.cleanup.Fine?))
      && (c.w.pending.File? ==> c.w.pending.synced)
  {
  }

  lemma StatusDeathEnds(c: Run<bool>, p: Proc, cfg: nat, r: Reading, rec: Record, standing: bool,
                        prev: Option<Status>, refreshed: Refreshed, f: RefreshFaults)
    requires !c.out.Raise? && (c.w.pending.File? ==> c.w.pending.synced)
    ensures
      var g := GrantedFrom(c, p, cfg, r, rec, standing, prev, refreshed, f);
      g.w.cred == c.w.cred && g.w.pending == c.w.pending
  {
  }

  /** Whatever reading a refresh answers with, its pair is in the file or is the process's unsaved record. */
  lemma AnswerIsKept(w: World, p: Proc, cfg: nat, d: Door, f: RefreshRun)
    requires Valid(w)
    ensures
      var c := RefreshSection(w, p, cfg, d, f);
      c.out.Value? ==>
        && c.out.v.word == Present && c.out.v.rec.Some?
        && (Holds(c.w.cred, c.out.v.rec.value) || (p in c.w.unsaved && c.w.unsaved[p].rec == c.out.v.rec.value))
  {
    var s := Settle(w, p, cfg, f.settle);
    SettleMoves(w, p, cfg, f.settle);
    if s.out.Value? {
      var r := ReadRaw(s.w, p, f.measure, f.read);
      ReadRawKnown(s.w, p, f.measure, f.read);
      if RaiseFor(r).None? && Wants(d, r.rec.value) {
        LockedAnswers(s.w, p, cfg, r, Served(s.w, p, f.measure), f.refresh);
      }
    }
  }

  lemma LockedAnswers(w: World, p: Proc, cfg: nat, r: Reading, fromUnsaved: bool, f: RefreshFaults)
    requires r.word == Present && r.rec.Some? && Complete(r.rec.value) && KnownCond(r.ident, w)
    requires fromUnsaved ==> p in w.unsaved
    requires Valid(w)
    ensures
      var c := RefreshLocked(w, p, cfg, r, fromUnsaved, f);
      c.out.Value? ==>
        && Answered(f.answer) && c.out.v.word == Present
        && c.out.v.rec == Some(Merge(r.rec.value, f.answer, f.at))
        && (Holds(c.w.cred, c.out.v.rec.value) || (p in c.w.unsaved && c.w.unsaved[p].rec == c.out.v.rec.value))
  {
    if !Barred(w, cfg, fromUnsaved, f.gate) && !f.dies {
      var w1 := AfterTrip(w, p, r.rec.value, fromUnsaved, f);
      TripMoves(w, p, r.rec.value, fromUnsaved, f);
      if Answered(f.answer) {
        AnsweredPairIsKept(w, p, cfg, r, fromUnsaved, f);
        GrantedAnswers(w1, p, cfg, r, fromUnsaved, ReadStatus(w, f.prev), f);
      } else {
        RefusedShape(w1, w, p, cfg, r, fromUnsaved, ReadStatus(w, f.prev), f);
      }
    }
  }

  lemma GrantedAnswers(w: World, p: Proc, cfg: nat, r: Reading, fromUnsaved: bool, prev: Option<Status>, f: RefreshFaults)
    requires r.rec.Some? && Complete(r.rec.value) && Answered(f.answer)
    ensures
      var c := RefreshGranted(w, p, cfg, r, fromUnsaved, prev, f);
      c.out.Value? ==> c.out.v.word == Present && c.out.v.rec == Some(Merge(r.rec.value, f.answer, f.at))
  {
    var rec := Merge(r.rec.value, f.answer, f.at);
    var refreshed := Refreshed(f.at, f.answer.rid);
    GrantedFromAnswers(CommitRecord(w, p, rec, Some(refreshed), f.commit), p, cfg, r, rec,
                       fromUnsaved && Bars(prev, cfg), prev, refreshed, f);
  }

  lemma GrantedFromAnswers(c: Run<bool>, p: Proc, cfg: nat, r: Reading, rec: Record, standing: bool,
                           prev: Option<Status>, refreshed: Refreshed, f: RefreshFaults)
    requires Complete(rec)
    ensures
      var g := GrantedFrom(c, p, cfg, r, rec, standing, prev, refreshed, f);
      g.out.Value? ==> g.out.v.word == Present && g.out.v.rec == Some(rec)
  {
  }

  // ── every later step ──────────────────────────────────────────────────────────────────────────

  /** The answer ends the use of the token sent: it gave a new pair, or refused the token of a record in memory, which
      is then dropped. A request that timed out, was refused for its client or carried no access token does neither,
      and a refused file is kept. */
  predicate Spends(ask: Ask) {
    Answered(ask.answer) || (ask.answer.RefusedToken? && !ask.fromFile)
  }

  /** A request since then spent the pair's own refresh token. */
  ghost predicate Spent(before: seq<Ask>, after: seq<Ask>, rec: Record) {
    exists i :: |before| <= i < |after| && Some(after[i].refresh) == rec.refresh && Spends(after[i])
  }

  /** A request since then was answered that another record made: one in memory, or, where the pair is nowhere on the
      disk, the file's. */
  ghost predicate Overtaken(before: seq<Ask>, after: seq<Ask>, onDisk: bool) {
    exists i :: |before| <= i < |after| && Answered(after[i].answer) && (after[i].fromFile ==> !onDisk)
  }

  /** The step begins by settling the checkpoint and the unsaved record. */
  predicate Settles(s: Step) {
    s.Refresh? || s.SettleOnly? || s.Signin?
  }

  function SettleFaultsOf(s: Step): SettleFaults
    requires Settles(s)
  {
    match s
    case Refresh(_, _, _, f) => f.settle
    case SettleOnly(_, _, f) => f
    case Signin(_, _, _, _, f) => f.settle
  }

  /** The lane once the step has settled. */
  function SettleOf(w: World, s: Step): World
    requires Settles(s)
  {
    Settle(w, s.p, s.cfg, SettleFaultsOf(s)).w
  }

  /** The step's process dies in it. */
  predicate DiesIn(w: World, s: Step)
    requires Legal(s)
  {
    match s
    case Refresh(p, cfg, d, f) => RefreshSection(w, p, cfg, d, f).out.Died?
    case UpstreamAnswer(p, cfg, state, code, rid, f) => RecordUpstream(w, p, cfg, state, code, rid, f).out.Died?
    case SettleOnly(p, cfg, f) => Settle(w, p, cfg, f).out.Died?
    case Signin(p, cfg, rec, refreshed, f) => CommitSignin(w, p, cfg, rec, refreshed, f).out.Died?
    case Crash(_, _) => true
    case Foreign(_) => false
    case Tick(_) => false
  }

  /** On the disk: the credential, or a durable checkpoint. */
  predicate OnDisk(w: World, rec: Record) {
    Holds(w.cred, rec) || Recoverable(w, rec)
  }

  /** The settle put another record in the file: a checkpoint's, or the one its own process held in memory. */
  predicate SettledOver(w: World, s: Step, rec: Record)
    requires Settles(s)
  {
    var cred := SettleOf(w, s).cred;
    && cred != w.cred && !Holds(cred, rec)
    && ((Candidate(w.pending) && Holds(cred, w.pending.content.rec)) || (s.p in w.unsaved && Holds(cred, w.unsaved[s.p].rec)))
  }

  /** The sign-in replaced the file it had settled, or found its own two tokens there. */
  predicate SignsOver(w: World, s: Step)
    requires Legal(s) && s.Signin?
  {
    var settled := SettleOf(w, s).cred;
    Apply(w, s).cred != settled || SameTokens(settled, s.rec)
  }

  /** An `lstat` of the settle that fails where its process holds a record in memory: over an unchanged file the record
      is dropped, and one that was itself bound by an `lstat` that failed is committed over whatever file stands. */
  predicate Unmeasurable(w: World, s: Step)
    requires Settles(s)
  {
    s.p in w.unsaved && !SettleFaultsOf(s).retry.measure
  }

  /** A whole checkpoint is promoted, or stays what it was. */
  lemma RecoverPromotes(w: World, p: Proc, f: RecoverFaults, rec: Record)
    requires Valid(w) && Complete(rec) && Recoverable(w, rec)
    ensures
      var c := RecoverPending(w, p, f);
      && OnDisk(c.w, rec)
      && (c.out.Value? ==> Holds(c.w.cred, rec) && c.w.cred.id == w.pending.id && c.w.pending.Missing?)
      && (!c.out.Died? ==> c.w.unsaved == w.unsaved)
  {
  }

  /** A record bound to a file that is no longer there is dropped, and nothing else changes. */
  lemma RetryDrops(w: World, p: Proc, cfg: nat, f: RetryFaults)
    requires p in w.unsaved ==> CurrentIdentity(w, f.measure) != w.unsaved[p].bound
    ensures
      var c := RetryUnsaved(w, p, cfg, f);
      c.w == w.(unsaved := w.unsaved - {p}) && c.out.Value?
  {
    if p !in w.unsaved {
      assert w.unsaved - {p} == w.unsaved;
    }
  }

  /** Settling over a whole checkpoint puts it in the file, and no record in memory goes over it, but one that could
      not be measured either time. */
  lemma SettlePromotes(w: World, p: Proc, cfg: nat, f: SettleFaults, rec: Record)
    requires Valid(w) && Complete(rec) && Recoverable(w, rec)
    requires p in w.unsaved && w.unsaved[p].bound == Unmeasured ==> f.retry.measure
    ensures
      var c := Settle(w, p, cfg, f);
      && OnDisk(c.w, rec)
      && (c.out.Value? ==> Holds(c.w.cred, rec) && p !in c.w.unsaved)
      && c.w.asks == w.asks
  {
    RecoverShape(w, p, f.recover);
    RecoverPromotes(w, p, f.recover, rec);
    var a := RecoverPending(w, p, f.recover);
    if a.out.Value? {
      RetryDrops(a.w, p, cfg, f.retry);
    }
  }

  /** Settling asks the endpoint nothing, and changes the file only to the checkpoint's record or the one in memory. */
  lemma SettlePublishes(w: World, p: Proc, cfg: nat, f: SettleFaults)
    requires Valid(w)
    ensures
      var c := Settle(w, p, cfg, f);
      && c.w.asks == w.asks
      && (c.w.cred == w.cred || (Candidate(w.pending) && Holds(c.w.cred, w.pending.content.rec)) ||
          (p in w.unsaved && Holds(c.w.cred, w.unsaved[p].rec)))
  {
    var a := RecoverPending(w, p, f.recover);
    RecoverShape(w, p, f.recover);
    RecoverFactsMove(w, p, a);
    if a.out.Value? && p in a.w.unsaved {
      CommitShape(a.w, p, a.w.unsaved[p].rec, a.w.unsaved[p].refreshed, f.retry.commit);
    }
  }

  /** What a refresh under the lock does to the file and to its process's record, by what the endpoint answered. */
  lemma LockedSpends(w: World, p: Proc, cfg: nat, r: Reading, fromUnsaved: bool, f: RefreshFaults)
    requires r.word == Present && r.rec.Some? && Complete(r.rec.value)
    requires fromUnsaved ==> p in w.unsaved
    requires Valid(w) && KnownCond(r.ident, w) && f.meanwhile.Untouched?
    ensures
      var c := RefreshLocked(w, p, cfg, r, fromUnsaved, f);
      var ask := Ask(p, r.rec.value.refresh.value, r.rec.value.access.value, !fromUnsaved, f.answer);
      && (c.w.asks == w.asks || c.w.asks == w.asks + [ask])
      && (c.w.cred == w.cred || (c.w.asks == w.asks + [ask] && Answered(f.answer)))
      && (c.out.Died? || c.w.unsaved == w.unsaved || (c.w.asks == w.asks + [ask] && Spends(ask)))
  {
    var prev := ReadStatus(w, f.prev);
    var w1 := AfterTrip(w, p, r.rec.value, fromUnsaved, f);
    TripMoves(w, p, r.rec.value, fromUnsaved, f);
    if !Barred(w, cfg, fromUnsaved, f.gate) {
      if !f.dies && Answered(f.answer) {
        GrantedShape(w1, p, cfg, r, fromUnsaved, prev, f);
      } else if !f.dies {
        RefusedShape(w1, w, p, cfg, r, fromUnsaved, prev, f);
      }
    }
  }

  lemma LastAsk(before: seq<Ask>, after: seq<Ask>, ask: Ask)
    requires after == before + [ask]
    ensures after[|before|] == ask && |before| < |after|
  {
  }

  /** Over a file that holds the pair, a refresh spends the pair's own token, overtakes it with a record in memory, or
      leaves the file. */
  lemma AfterSettleHolds(w: World, p: Proc, cfg: nat, d: Door, f: RefreshRun, rec: Record)
    requires Valid(w) && Complete(rec) && Holds(w.cred, rec) && f.refresh.meanwhile.Untouched?
    ensures
      var c := AfterSettle(w, p, cfg, d, f);
      Holds(c.w.cred, rec) || Spent(w.asks, c.w.asks, rec) || (p in w.unsaved && Overtaken(w.asks, c.w.asks, true))
  {
    var r := ReadRaw(w, p, f.measure, f.read);
    ReadRawKnown(w, p, f.measure, f.read);
    if RaiseFor(r).None? && Wants(d, r.rec.value) {
      var fromUnsaved := Served(w, p, f.measure);
      LockedSpends(w, p, cfg, r, fromUnsaved, f.refresh);
      var c := AfterSettle(w, p, cfg, d, f);
      if c.w.cred != w.cred {
        LastAsk(w.asks, c.w.asks, Ask(p, r.rec.value.refresh.value, r.rec.value.access.value, !fromUnsaved, f.refresh.answer));
      }
    }
  }

  /** Whatever file it meets, a refresh that changes it has been answered. */
  lemma AfterSettleOvertakes(w: World, p: Proc, cfg: nat, d: Door, f: RefreshRun)
    requires Valid(w) && f.refresh.meanwhile.Untouched?
    ensures
      var c := AfterSettle(w, p, cfg, d, f);
      c.w.cred == w.cred || Overtaken(w.asks, c.w.asks, false)
  {
    var r := ReadRaw(w, p, f.measure, f.read);
    ReadRawKnown(w, p, f.measure, f.read);
    if RaiseFor(r).None? && Wants(d, r.rec.value) {
      var fromUnsaved := Served(w, p, f.measure);
      LockedSpends(w, p, cfg, r, fromUnsaved, f.refresh);
      var c := AfterSettle(w, p, cfg, d, f);
      if c.w.cred != w.cred {
        LastAsk(w.asks, c.w.asks, Ask(p, r.rec.value.refresh.value, r.rec.value.access.value, !fromUnsaved, f.refresh.answer));
      }
    }
  }

  /** A process that holds the pair in memory, over its file, refreshes that pair, and keeps it unless that spends it;
      where the `lstat` fails it refreshes the file's own record instead. */
  lemma AfterSettleKeepsRecord(w: World, p: Proc, cfg: nat, d: Door, f: RefreshRun, rec: Record)
    requires Valid(w) && InMemory(w, p, rec) && f.refresh.meanwhile.Untouched?
    ensures
      var c := AfterSettle(w, p, cfg, d, f);
      || c.out.Died? || (c.w.cred == w.cred && InMemory(c.w, p, rec))
      || Spent(w.asks, c.w.asks, rec) || (!f.measure && Overtaken(w.asks, c.w.asks, false))
  {
    var r := ReadRaw(w, p, f.measure, f.read);
    ReadRawKnown(w, p, f.measure, f.read);
    if RaiseFor(r).None? && Wants(d, r.rec.value) {
      var fromUnsaved := Served(w, p, f.measure);
      LockedSpends(w, p, cfg, r, fromUnsaved, f.refresh);
      var c := AfterSettle(w, p, cfg, d, f);
      var ask := Ask(p, r.rec.value.refresh.value, r.rec.value.access.value, !fromUnsaved, f.refresh.answer);
      if c.w.asks == w.asks + [ask] {
        LastAsk(w.asks, c.w.asks, ask);
      }
    }
  }

  lemma UpstreamKeepsFiles(w: World, p: Proc, cfg: nat, state: Option<State>, code: Option<nat>, rid: Option<nat>, f: UpstreamFaults)
    requires state.Some? ==> Recordable(state.value)
    ensures
      var c := RecordUpstream(w, p, cfg, state, code, rid, f);
      && c.w.cred == w.cred && SameOrTorn(w.pending, c.w.pending)
      && (!c.out.Died? ==> c.w.unsaved == w.unsaved)
  {
  }

  /** After its settle a sign-in replaces the file with its own record, or leaves it; and it drops a record of its
      process's, where it leaves the file, only when it found its own two tokens there. */
  lemma SigninTriesKeep(w: World, p: Proc, cfg: nat, rec: Record, refreshed: Refreshed, f: SigninFaults)
    requires Valid(w) && Complete(rec)
    ensures
      var c := SigninTries(w, p, cfg, rec, refreshed, f);
      && c.w.asks == w.asks
      && (c.w.cred == w.cred ==> c.out.Died? || c.w.unsaved == w.unsaved || SameTokens(w.cred, rec))
  {
    TriesShape(w, p, rec, refreshed, f.tries);
    TriesMoves(w, p, rec, refreshed, f.tries);
    TriesKeepOthers(w, p, rec, refreshed, f.tries);
  }

  /** The unsaved map as a raising sign-in leaves it is the map it met. */
  lemma TriesKeepOthers(w: World, p: Proc, rec: Record, refreshed: Refreshed, fs: seq<CommitFaults>)
    requires Valid(w) && Complete(rec)
    ensures PutBack(Tries(w, p, rec, refreshed, fs).w, p, w.unsaved).unsaved == w.unsaved
  {
    TriesMoves(w, p, rec, refreshed, fs);
    var m := PutBack(Tries(w, p, rec, refreshed, fs).w, p, w.unsaved).unsaved;
    assert forall q :: q in m <==> q in w.unsaved;
    assert forall q | q in m :: m[q] == w.unsaved[q];
  }

  /** A whole checkpoint survives every step of the library's, timed-out, refused and unanswered requests for it
      included, until its own token is spent or a sign-in goes over it; and but for the `lstat`s that fail twice over
      one record in memory. */
  lemma CheckpointStays(w: World, s: Step, rec: Record)
    requires Valid(w) && Legal(s) && Complete(rec) && Recoverable(w, rec) && !Free(s)
    ensures
      var w1 := Apply(w, s);
      || OnDisk(w1, rec)
      || Spent(w.asks, w1.asks, rec)
      || (s.Signin? && SignsOver(w, s))
      || (Settles(s) && Unmeasurable(w, s) && w.unsaved[s.p].bound == Unmeasured)
  {
    match s
    case Refresh(p, cfg, d, f) =>
      if p in w.unsaved && w.unsaved[p].bound == Unmeasured ==> f.settle.retry.measure {
        SettlePromotes(w, p, cfg, f.settle, rec);
        SettleMoves(w, p, cfg, f.settle);
        var a := Settle(w, p, cfg, f.settle);
        if a.out.Value? {
          AfterSettleHolds(a.w, p, cfg, d, f, rec);
        }
      }
    case UpstreamAnswer(p, cfg, state, code, rid, f) =>
      UpstreamKeepsFiles(w, p, cfg, state, code, rid, f);
    case SettleOnly(p, cfg, f) =>
      if p in w.unsaved && w.unsaved[p].bound == Unmeasured ==> f.retry.measure {
        SettlePromotes(w, p, cfg, f, rec);
      }
    case Signin(p, cfg, _, _, f) =>
      if p in w.unsaved && w.unsaved[p].bound == Unmeasured ==> f.settle.retry.measure {
        SettlePromotes(w, p, cfg, f.settle, rec);
      }
    case _ =>
  }

  /** A pair in the file stays there until its own token is spent, or another record goes over it: one a settle puts
      there, one in memory that was refreshed, or a sign-in's. */
  lemma FileStays(w: World, s: Step, rec: Record)
    requires Valid(w) && Legal(s) && Complete(rec) && Holds(w.cred, rec) && !Free(s)
    ensures
      var w1 := Apply(w, s);
      || Holds(w1.cred, rec)
      || Spent(w.asks, w1.asks, rec) || Overtaken(w.asks, w1.asks, true)
      || (Settles(s) && SettledOver(w, s, rec)) || (s.Signin? && SignsOver(w, s))
  {
    if Settles(s) {
      SettlePublishes(w, s.p, s.cfg, SettleFaultsOf(s));
      SettleMoves(w, s.p, s.cfg, SettleFaultsOf(s));
      var a := Settle(w, s.p, s.cfg, SettleFaultsOf(s));
      if s.Refresh? && a.out.Value? && Holds(a.w.cred, rec) {
        AfterSettleHolds(a.w, s.p, s.cfg, s.door, s.refresh, rec);
      }
    } else if s.UpstreamAnswer? {
      UpstreamKeepsFiles(w, s.p, s.cfg, s.state, s.code, s.rid, s.upstream);
    }
  }

  /** A record in memory, over its file: the retry lands it, or leaves it where it is. */
  lemma RetryKeepsRecord(w: World, p: Proc, cfg: nat, f: RetryFaults, rec: Record)
    requires Valid(w) && InMemory(w, p, rec) && f.measure
    ensures
      var c := RetryUnsaved(w, p, cfg, f);
      c.out.Died? || Holds(c.w.cred, rec) || (c.w.cred == w.cred && InMemory(c.w, p, rec))
  {
    var e := w.unsaved[p];
    if CondOf(w.cred) == e.bound {
      CommitShape(w, p, e.rec, e.refreshed, f.commit);
      CommitKeeps(w, p, e.rec, e.refreshed, f.commit);
    }
  }

  /** A step of the library's keeps the file as it was, or leaves a whole record there for good. */
  lemma NeverComesBack(w: World, w1: World, w2: World, p: Proc)
    requires Valid(w) && Moves(w, w1, p, false) && Moves(w1, w2, p, false)
    requires w1.cred != w.cred
    ensures w2.cred != w.cred
  {
    if !w.cred.Missing? {
      ChangedIsRetired(w, w1, p, false);
      RetiredStays(w1, w2, p, false, w.cred.id);
    }
  }

  lemma SettleKeepsRecord(w: World, p: Proc, cfg: nat, f: SettleFaults, rec: Record)
    requires Valid(w) && InMemory(w, p, rec) && f.retry.measure
    ensures
      var c := Settle(w, p, cfg, f);
      c.out.Died? || c.w.cred != w.cred || InMemory(c.w, p, rec) || Holds(c.w.cred, rec)
  {
    var a := RecoverPending(w, p, f.recover);
    RecoverShape(w, p, f.recover);
    RecoverFactsMove(w, p, a);
    if a.out.Value? {
      RetryMoves(a.w, p, cfg, f.retry);
      if a.w.cred == w.cred {
        RetryKeepsRecord(a.w, p, cfg, f.retry, rec);
      } else {
        NeverComesBack(w, a.w, RetryUnsaved(a.w, p, cfg, f.retry).w, p);
      }
    }
  }

  /** A record in memory stays, over its file, or lands in it, through every step of its own process's, failed and
      unanswered refreshes included, until its token is spent, an `lstat` of it fails, its process dies, or another
      record goes over the file. */
  lemma RecordStays(w: World, s: Step, p: Proc, rec: Record)
    requires Valid(w) && Legal(s) && Complete(rec) && InMemory(w, p, rec) && !Free(s) && Actor(s) == p
    ensures
      var w1 := Apply(w, s);
      || Kept(w1, p, rec)
      || DiesIn(w, s)
      || Spent(w.asks, w1.asks, rec) || Overtaken(w.asks, w1.asks, false)
      || (Settles(s) && (SettledOver(w, s, rec) || Unmeasurable(w, s))) || (s.Signin? && SignsOver(w, s))
  {
    if Settles(s) {
      var a := Settle(w, p, s.cfg, SettleFaultsOf(s));
      SettlePublishes(w, p, s.cfg, SettleFaultsOf(s));
      SettleMoves(w, p, s.cfg, SettleFaultsOf(s));
      if SettleFaultsOf(s).retry.measure {
        SettleKeepsRecord(w, p, s.cfg, SettleFaultsOf(s), rec);
        if a.out.Value? && s.Refresh? {
          AfterOwnSettle(a.w, s, p, rec);
        } else if a.out.Value? && s.Signin? {
          SigninTriesKeep(a.w, p, s.cfg, s.rec, s.refreshed, s.signin);
        }
      }
    } else if s.UpstreamAnswer? {
      UpstreamKeepsFiles(w, p, s.cfg, s.state, s.code, s.rid, s.upstream);
    }
  }

  lemma AfterOwnSettle(w: World, s: Step, p: Proc, rec: Record)
    requires Valid(w) && Complete(rec) && s.Refresh? && s.p == p && !Free(s)
    ensures
      var c := AfterSettle(w, p, s.cfg, s.door, s.refresh);
      || Kept(c.w, p, rec) || c.out.Died? || Spent(w.asks, c.w.asks, rec) || Overtaken(w.asks, c.w.asks, false)
      || !(Holds(w.cred, rec) || InMemory(w, p, rec))
  {
    if Holds(w.cred, rec) {
      AfterSettleHolds(w, p, s.cfg, s.door, s.refresh, rec);
    } else if InMemory(w, p, rec) {
      AfterSettleKeepsRecord(w, p, s.cfg, s.door, s.refresh, rec);
    }
  }

  /** No step of another process's touches it but by changing the file under it. */
  lemma OthersLeaveRecord(w: World, s: Step, p: Proc, rec: Record)
    requires Valid(w) && Legal(s) && InMemory(w, p, rec) && !Free(s) && Actor(s) != p
    ensures
      var w1 := Apply(w, s);
      || InMemory(w1, p, rec) || Holds(w1.cred, rec)
      || Overtaken(w.asks, w1.asks, false)
      || (Settles(s) && SettledOver(w, s, rec)) || (s.Signin? && SignsOver(w, s))
  {
    StepMoves(w, s);
    if Settles(s) {
      SettlePublishes(w, s.p, s.cfg, SettleFaultsOf(s));
      SettleMoves(w, s.p, s.cfg, SettleFaultsOf(s));
      var a := Settle(w, s.p, s.cfg, SettleFaultsOf(s));
      if s.Refresh? && a.out.Value? {
        AfterSettleOvertakes(a.w, s.p, s.cfg, s.door, s.refresh);
      }
    } else if s.UpstreamAnswer? {
      UpstreamKeepsFiles(w, s.p, s.cfg, s.state, s.code, s.rid, s.upstream);
    }
  }

  /** What can take a kept pair away: a writer outside the library; the pair's own refresh token spent; another record
      put in the file by a settle, by a sign-in or by the refresh of it; the death of the process whose memory alone
      held it; or an `lstat` that failed where that memory had to be compared with its file. */
  ghost predicate LossCause(w: World, s: Step, p: Proc, rec: Record)
    requires Legal(s)
  {
    || Free(s)
    || Spent(w.asks, Apply(w, s).asks, rec)
    || Overtaken(w.asks, Apply(w, s).asks, OnDisk(w, rec))
    || (Settles(s) && SettledOver(w, s, rec))
    || (s.Signin? && SignsOver(w, s))
    || (DiesIn(w, s) && Actor(s) == p && !OnDisk(w, rec))
    || (Settles(s) && Unmeasurable(w, s) && if OnDisk(w, rec) then w.unsaved[s.p].bound == Unmeasured else s.p == p)
  }

  /** A step that ends the keeping of a pair has one of the causes. */
  lemma StepKeepsPair(w: World, s: Step, p: Proc, rec: Record)
    requires Valid(w) && Legal(s) && Complete(rec) && Kept(w, p, rec) && !LossCause(w, s, p, rec)
    ensures Kept(Apply(w, s), p, rec)
  {
    if Recoverable(w, rec) {
      CheckpointStays(w, s, rec);
    } else if Holds(w.cred, rec) {
      FileStays(w, s, rec);
    } else if Actor(s) == p {
      RecordStays(w, s, p, rec);
    } else {
      OthersLeaveRecord(w, s, p, rec);
    }
  }

  /** A refresh makes at most one request, and what it was answered with is the one answer of its section. */
  lemma SectionAsks(w: World, p: Proc, cfg: nat, d: Door, f: RefreshRun)
    requires Valid(w) && f.refresh.meanwhile.Untouched?
    ensures
      var c := RefreshSection(w, p, cfg, d, f);
      || c.w.asks == w.asks
      || (|c.w.asks| == |w.asks| + 1 && w.asks <= c.w.asks && c.w.asks[|w.asks|].answer == f.refresh.answer)
  {
    SettlePublishes(w, p, cfg, f.settle);
    SettleMoves(w, p, cfg, f.settle);
    var a := Settle(w, p, cfg, f.settle);
    if a.out.Value? {
      var r := ReadRaw(a.w, p, f.measure, f.read);
      ReadRawKnown(a.w, p, f.measure, f.read);
      if RaiseFor(r).None? && Wants(d, r.rec.value) {
        LockedSpends(a.w, p, cfg, r, Served(a.w, p, f.measure), f.refresh);
      }
    }
  }

  lemma NothingSpent(before: seq<Ask>, after: seq<Ask>, rec: Record, onDisk: bool, a: Answer)
    requires after == before || (|after| == |before| + 1 && after[|before|].answer == a)
    requires !Answered(a) && !a.RefusedToken?
    ensures !Spent(before, after, rec) && !Overtaken(before, after, onDisk)
  {
  }

  lemma CauseOfUnanswered(w: World, w1: World, s: Step, p: Proc, rec: Record)
    requires Legal(s) && s.Refresh? && !Free(s) && w1 == Apply(w, s)
    requires !Spent(w.asks, w1.asks, rec) && !Overtaken(w.asks, w1.asks, OnDisk(w, rec))
    requires SettleFaultsOf(s).retry.measure && !SettledOver(w, s, rec)
    ensures LossCause(w, s, p, rec) ==> DiesIn(w, s) && s.p == p && !OnDisk(w, rec)
  {
  }

  /** A refresh that is not answered takes no pair away, wherever it is kept and whoever makes it: not one that timed
      out, was refused for its client or brought no access token. Only its settle can, or its process's death. */
  lemma UnansweredKeepsPair(w: World, s: Step, p: Proc, rec: Record)
    requires Valid(w) && Legal(s) && Complete(rec) && Kept(w, p, rec)
    requires s.Refresh? && !Free(s) && !Answered(s.refresh.refresh.answer) && !s.refresh.refresh.answer.RefusedToken?
    requires s.refresh.settle.retry.measure && !SettledOver(w, s, rec)
    ensures Kept(Apply(w, s), p, rec) || (DiesIn(w, s) && s.p == p && !OnDisk(w, rec))
  {
    var w1 := Apply(w, s);
    SectionAsks(w, s.p, s.cfg, s.door, s.refresh);
    NothingSpent(w.asks, w1.asks, rec, OnDisk(w, rec), s.refresh.refresh.answer);
    CauseOfUnanswered(w, w1, s, p, rec);
    if !LossCause(w, s, p, rec) {
      StepKeepsPair(w, s, p, rec);
    }
  }

  /** Somewhere in the run the pair stops being kept, in a step with one of the causes. */
  ghost predicate IsLost(w: World, steps: seq<Step>, p: Proc, rec: Record)
    requires forall s <- steps :: Legal(s)
    decreases |steps|
  {
    && steps != []
    && if Kept(Apply(w, steps[0]), p, rec) then IsLost(Apply(w, steps[0]), steps[1..], p, rec)
       else LossCause(w, steps[0], p, rec)
  }

  /** No rotated pair is lost: through any run of any processes, a pair once kept is kept, unless some step ended that,
      and then that very step had one of the causes. */
  lemma {:induction false} PairIsNotLost(w: World, steps: seq<Step>, p: Proc, rec: Record)
    requires Valid(w) && (forall s <- steps :: Legal(s)) && Complete(rec) && Kept(w, p, rec)
    ensures Kept(Exec(w, steps), p, rec) || IsLost(w, steps, p, rec)
    decreases |steps|
  {
    if steps != [] {
      assert steps[0] in steps;
      StepMoves(w, steps[0]);
      if Kept(Apply(w, steps[0]), p, rec) {
        PairIsNotLost(Apply(w, steps[0]), steps[1..], p, rec);
      } else if !LossCause(w, steps[0], p, rec) {
        StepKeepsPair(w, steps[0], p, rec);
      }
    }
  }

  /** The last cause is real, and exact: over its own unchanged file, `retry_unsaved` drops a record if and only if the
      `lstat` that compares the two fails, though the file never changed. */
  lemma UnmeasuredRecordIsDroppedIff(w: World, p: Proc, cfg: nat, f: RetryFaults)
    requires Valid(w) && p in w.unsaved && w.unsaved[p].bound == CondOf(w.cred) && !w.cred.Irregular?
    ensures RetryUnsaved(w, p, cfg, f).out == Value(Dropped) <==> !f.measure
    ensures !f.measure ==> RetryUnsaved(w, p, cfg, f).w == w.(unsaved := w.unsaved - {p})
  {
    if f.measure {
      var e := w.unsaved[p];
      RetryFromNeverDrops(CommitRecord(w, p, e.rec, e.refreshed, f.commit), p, cfg, e, ReadStatus(w, f.prev), f);
    }
  }

  lemma RetryFromNeverDrops(c: Run<bool>, p: Proc, cfg: nat, e: Entry, prev: Option<Status>, f: RetryFaults)
    ensures RetryFrom(c, p, cfg, e, prev, f).out != Value(Dropped)
  {
  }
}
