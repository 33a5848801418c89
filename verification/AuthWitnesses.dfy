/** Where the protocol's promises end: which failures make one process spend what another has spent, or lose what it
    was just given. */
module AuthWitnesses {
  import opened Wrappers
  import opened Credential
  import opened AuthSteps
  import opened AuthFacts
  import opened AuthRuns
  import opened AuthPairs
  import opened AuthSignin
  import opened AuthRotation

  /** A settle in which nothing fails. */
  predicate Smooth(f: SettleFaults) {
    && f.recover.lstat && f.recover.open.Fine? && f.recover.sync.Fine? && f.recover.read.Reads?
    && f.recover.unlink.Fine? && f.recover.rename.Fine? && f.recover.dirsync.Fine?
    && f.retry.measure && f.retry.prev && f.retry.remeasure && f.retry.status.Fine? && Lands(f.retry.commit)
  }

  // ── a stale checkpoint ────────────────────────────────────────────────────────────────────────

  /** Where a commit's own record `rec` is after it, in a lane `w` before it. */
  ghost predicate Left(w: World, c: Run<bool>, p: Proc, rec: Record) {
    || (Holds(c.w.cred, rec) && c.w.pending.Missing?)
    || (c.w.cred == w.cred && c.w.pending.File? && c.w.pending.content == Backend(rec) && c.w.pending.id.mtime == w.clock)
    || (c.w.cred == w.cred && !c.w.pending.Irregular? && !Candidate(c.w.pending) && InMemory(c.w, p, rec))
  }

  /** A commit of `rec` stopped somewhere before its fsync. */
  predicate PartWay(w: World, w1: World, rec: Record) {
    || w1.pending == w.pending
    || w1.pending.Missing?
    || (w1.pending.File? && w1.pending.id.mtime == w.clock && w1.pending.content in {Torn, Backend(rec)})
  }

  lemma ConcludeOver(w: World, w1: World, progress: Progress, p: Proc, e: Entry, f: CommitFaults)
    requires Valid(w) && e.bound == CondOf(w.cred) && NoDeath(f) && !progress.Gone?
    requires CheckpointFacts(w, p, e.rec, w1, progress) && w.pending.File?
    requires progress.Broke? ==> PartWay(w, w1, e.rec)
    ensures
      var c := Conclude(w1, progress, p, e, f);
      && (p in c.w.unsaved ==> c.w.unsaved[p].rec == e.rec)
      && if progress.Broke? && w1.pending == w.pending && f.cleanup.Fails? then c.w.pending == w.pending && c.w.cred == w.cred
         else Left(w, c, p, e.rec)
  {
  }

  lemma CheckpointOver(w: World, p: Proc, rec: Record, f: CommitFaults)
    requires Valid(w) && NoDeath(f) && w.pending.File?
    ensures
      var (w1, progress) := WriteCheckpoint(w, p, rec, f);
      && !progress.Gone?
      && (progress.Broke? && w1.pending == w.pending <==> f.unlink.Fails?)
      && (progress.Broke? ==> PartWay(w, w1, rec))
  {
  }

  /** A commit over an earlier checkpoint, without deaths: where its own record is afterwards. */
  lemma CommitOverCheckpoint(w: World, p: Proc, rec: Record, refreshed: Option<Refreshed>, f: CommitFaults)
    requires Valid(w) && w.pending.File? && Writable(w.cred) && NoDeath(f) && f.read.Reads?
    ensures
      var c := CommitRecord(w, p, rec, refreshed, f);
      && (p in c.w.unsaved ==> c.w.unsaved[p].rec == rec)
      && if f.unlink.Fails? && f.cleanup.Fails? then c.w.pending == w.pending && c.w.cred == w.cred
         else Left(w, c, p, rec)
  {
    CheckpointShape(w, p, rec, f);
    CheckpointOver(w, p, rec, f);
    var (w1, progress) := WriteCheckpoint(w, p, rec, f);
    ConcludeOver(w, w1, progress, p, Entry(rec, CondOf(w.cred), refreshed), f);
  }

  lemma SmoothRetryLands(w: World, p: Proc, cfg: nat, f: RetryFaults, rec: Record)
    requires InMemory(w, p, rec) && Writable(w.cred) && f.measure && Lands(f.commit)
    ensures Holds(RetryUnsaved(w, p, cfg, f).w.cred, rec)
  {
    var e := w.unsaved[p];
    LandedCommit(w, p, e.rec, e.refreshed, f.commit);
  }

  /** A smooth settle promotes a whole checkpoint no older than the file. */
  lemma SmoothSettlePromotes(w: World, p: Proc, cfg: nat, f: SettleFaults, rec: Record)
    requires Valid(w) && Complete(rec) && Writable(w.cred) && Smooth(f)
    requires w.pending.File? && w.pending.content == Backend(rec)
    requires w.cred.Missing? || w.cred.id.mtime <= w.pending.id.mtime
    ensures Holds(Settle(w, p, cfg, f).w.cred, rec)
  {
    var a := RecoverPending(w, p, f.recover);
    assert Holds(a.w.cred, rec) && a.w.pending.Missing? && a.out == Value(Promoted);
    RecoverShape(w, p, f.recover);
    RecoverFactsMove(w, p, a);
    RetryDrops(a.w, p, cfg, f.retry) by {
      if p in a.w.unsaved {
        assert a.w.unsaved[p] == w.unsaved[p];
        assert KnownCond(w.unsaved[p].bound, w);
      }
    }
  }

  lemma SmoothSettleRetries(w: World, p: Proc, cfg: nat, f: SettleFaults, rec: Record)
    requires Valid(w) && Smooth(f) && Writable(w.cred) && InMemory(w, p, rec)
    requires !w.pending.Irregular? && !Candidate(w.pending)
    ensures Holds(Settle(w, p, cfg, f).w.cred, rec)
  {
    var a := RecoverPending(w, p, f.recover);
    assert a.out.Value? && a.w.cred == w.cred && a.w.unsaved == w.unsaved;
    SmoothRetryLands(a.w, p, cfg, f.retry, rec);
  }

  lemma SmoothSettleKeeps(w: World, p: Proc, cfg: nat, f: SettleFaults, rec: Record)
    requires Smooth(f) && Holds(w.cred, rec) && w.pending.Missing? && (p in w.unsaved ==> w.unsaved[p].rec == rec)
    ensures Holds(Settle(w, p, cfg, f).w.cred, rec)
  {
    if p in w.unsaved && w.unsaved[p].bound == CondOf(w.cred) {
      SmoothRetryLands(w, p, cfg, f.retry, rec);
    } else {
      RetryDrops(w, p, cfg, f.retry);
    }
  }

  /** A checkpoint of an earlier record still there when a later record is committed: the next holder, however smooth
      its settle, puts the later record in the file, unless the commit could neither remove the old checkpoint at its
      start nor in its handler. Then the earlier record, whose refresh token is spent, is promoted over the file. */
  lemma StaleCheckpointWinsIff(w: World, p: Proc, cfg: nat, rec: Record, rec': Record, refreshed: Option<Refreshed>,
                               f: CommitFaults, g: SettleFaults)
    requires Valid(w) && Complete(rec) && Complete(rec') && rec != rec' && Recoverable(w, rec) && Writable(w.cred)
    requires NoDeath(f) && f.read.Reads? && Smooth(g)
    ensures
      var c := CommitRecord(w, p, rec', refreshed, f);
      var s := Settle(c.w, p, cfg, g);
      && (Holds(s.w.cred, rec') <==> !(f.unlink.Fails? && f.cleanup.Fails?))
      && (f.unlink.Fails? && f.cleanup.Fails? ==> Holds(s.w.cred, rec))
  {
    CommitOverCheckpoint(w, p, rec', refreshed, f);
    CommitMoves(w, p, rec', refreshed, f);
    var c := CommitRecord(w, p, rec', refreshed, f);
    if f.unlink.Fails? && f.cleanup.Fails? {
      SmoothSettlePromotes(c.w, p, cfg, g, rec);
    } else if Holds(c.w.cred, rec') && c.w.pending.Missing? {
      SmoothSettleKeeps(c.w, p, cfg, g, rec');
    } else if Candidate(c.w.pending) {
      SmoothSettlePromotes(c.w, p, cfg, g, rec');
    } else {
      SmoothSettleRetries(c.w, p, cfg, g, rec');
    }
  }

  // ── a second process ──────────────────────────────────────────────────────────────────────────

  /** The commit leaves its record on the disk: in the file, or as a checkpoint the next holder promotes. */
  predicate LeavesOnDisk(f: CommitFaults) {
    && !f.read.LstatFails? && !f.read.ReadFails?
    && f.unlink.Fine? && f.create.Fine? && f.chmod.Fine? && f.write.Fine?
    && ((f.sync.Fine? && f.rename.Fine?) || f.cleanup.Fails?)
  }

  /** Where a commit leaves its record for another process to find. */
  lemma CommitForOthers(w: World, p: Proc, rec: Record, refreshed: Option<Refreshed>, f: CommitFaults)
    requires Valid(w) && w.pending.Missing? && Whole(w.cred) && NoDeath(f)
    ensures
      var c := CommitRecord(w, p, rec, refreshed, f);
      && !c.out.Died?
      && if LeavesOnDisk(f) then
           || (Holds(c.w.cred, rec) && c.w.pending.Missing?)
           || (c.w.cred == w.cred && c.w.pending.File? && c.w.pending.content == Backend(rec) && c.w.pending.id.mtime == w.clock)
         else c.w.cred == w.cred && !c.w.pending.Irregular? && !Candidate(c.w.pending)
  {
  }

  lemma GrantedForOthers(w: World, p: Proc, cfg: nat, r: Reading, prev: Option<Status>, f: RefreshFaults)
    requires r.rec.Some? && Complete(r.rec.value) && Answered(f.answer)
    requires Valid(w) && w.pending.Missing? && Whole(w.cred) && NoDeath(f.commit) && !f.status.Dies?
    ensures
      var rec := Merge(r.rec.value, f.answer, f.at);
      var c := RefreshGranted(w, p, cfg, r, false, prev, f);
      if LeavesOnDisk(f.commit) then
        || (Holds(c.w.cred, rec) && c.w.pending.Missing?)
        || (c.w.cred == w.cred && c.w.pending.File? && c.w.pending.content == Backend(rec) && c.w.pending.id.mtime == w.clock)
      else c.w.cred == w.cred && !c.w.pending.Irregular? && !Candidate(c.w.pending)
  {
    CommitForOthers(w, p, Merge(r.rec.value, f.answer, f.at), Some(Refreshed(f.at, f.answer.rid)), f.commit);
  }

  /** A refresh that is not barred and whose request leaves makes exactly one request. */
  lemma LockedAsks(w: World, p: Proc, cfg: nat, r: Reading, f: RefreshFaults)
    requires r.word == Present && r.rec.Some? && Complete(r.rec.value) && KnownCond(r.ident, w)
    requires Valid(w) && !Barred(w, cfg, false, f.gate) && !f.answer.NotSent?
    ensures RefreshLocked(w, p, cfg, r, false, f).w.asks
         == w.asks + [Ask(p, r.rec.value.refresh.value, r.rec.value.access.value, true, f.answer)]
  {
    var w1 := AfterTrip(w, p, r.rec.value, false, f);
    TripMoves(w, p, r.rec.value, false, f);
    if !f.dies {
      if Answered(f.answer) {
        GrantedShape(w1, p, cfg, r, false, ReadStatus(w, f.prev), f);
      } else {
        RefusedShape(w1, w, p, cfg, r, false, ReadStatus(w, f.prev), f);
      }
    }
  }

  /** A holder that finds the first one's record on the disk answers with it and asks nothing. */
  lemma FindsOnDisk(w: World, q: Proc, cfg: nat, token: Token, g: RefreshRun, rec: Record)
    requires Valid(w) && Complete(rec) && rec.access != Some(token) && q !in w.unsaved && Writable(w.cred)
    requires Smooth(g.settle) && g.measure && g.read.Reads?
    requires (Holds(w.cred, rec) && w.pending.Missing?) ||
             (w.pending.File? && w.pending.content == Backend(rec) && (w.cred.Missing? || w.cred.id.mtime <= w.pending.id.mtime))
    ensures RefreshSection(w, q, cfg, RefreshRejected(token), g).w.asks == w.asks
  {
    var a := RecoverPending(w, q, g.settle.recover);
    RecoverShape(w, q, g.settle.recover);
    assert Holds(a.w.cred, rec) && a.out.Value?;
    RetryDrops(a.w, q, cfg, g.settle.retry);
  }

  /** A holder that finds the first one's file unchanged refreshes it again. */
  lemma FindsUnchanged(w: World, q: Proc, cfg: nat, token: Token, g: RefreshRun)
    requires Valid(w) && Whole(w.cred) && w.cred.content.rec.access == Some(token) && q !in w.unsaved
    requires !Bars(w.status, cfg) && !w.pending.Irregular? && !Candidate(w.pending)
    requires Smooth(g.settle) && g.measure && g.read.Reads? && !g.refresh.answer.NotSent?
    ensures RefreshSection(w, q, cfg, RefreshRejected(token), g).w.asks
         == w.asks + [Ask(q, w.cred.content.rec.refresh.value, token, true, g.refresh.answer)]
  {
    var a := RecoverPending(w, q, g.settle.recover);
    RecoverShape(w, q, g.settle.recover);
    RecoverFactsMove(w, q, a);
    RetryDrops(a.w, q, cfg, g.settle.retry);
    var s := Settle(w, q, cfg, g.settle);
    SettleMoves(w, q, cfg, g.settle);
    assert s.w.cred == w.cred && s.w.asks == w.asks && s.w.status == w.status && s.out.Value?;
    var r := ReadRaw(s.w, q, g.measure, g.read);
    ReadRawKnown(s.w, q, g.measure, g.read);
    LockedAsks(s.w, q, cfg, r, g.refresh);
  }

  /** What the first holder's refresh leaves for the second to find. */
  lemma FirstRefreshes(w: World, p: Proc, q: Proc, cfg: nat, token: Token, f: RefreshRun)
    requires p != q && AtRest(w) && Whole(w.cred) && w.cred.content.rec.access == Some(token) && !Bars(w.status, cfg)
    requires f.settle.recover.lstat && f.measure && f.read.Reads? && FirstLives(f.refresh)
    ensures
      var rec := Merge(w.cred.content.rec, f.refresh.answer, f.refresh.at);
      var w1 := RefreshSection(w, p, cfg, RefreshRejected(token), f).w;
      && Valid(w1) && q !in w1.unsaved && !Bars(w1.status, cfg)
      && w1.asks == w.asks + [Ask(p, w.cred.content.rec.refresh.value, token, true, f.refresh.answer)]
      && if LeavesOnDisk(f.refresh.commit) then
           || (Holds(w1.cred, rec) && w1.pending.Missing?)
           || (w1.cred == w.cred && w1.pending.File? && w1.pending.content == Backend(rec) && w1.pending.id.mtime == w.clock)
         else w1.cred == w.cred && !w1.pending.Irregular? && !Candidate(w1.pending)
  {
    SettleIdle(w, p, cfg, f.settle);
    RefreshSectionMoves(w, p, cfg, RefreshRejected(token), f);
    var r := ReadRaw(w, p, f.measure, f.read);
    ReadRawKnown(w, p, f.measure, f.read);
    var w1 := AfterTrip(w, p, r.rec.value, false, f.refresh);
    TripMoves(w, p, r.rec.value, false, f.refresh);
    var prev := ReadStatus(w, f.refresh.prev);
    GrantedForOthers(w1, p, cfg, r, prev, f.refresh);
    GrantedUnbarred(w1, p, cfg, r, prev, f.refresh);
    LockedAsks(w, p, cfg, r, f.refresh);
    assert Settle(w, p, cfg, f.settle) == Run(w, Value(()));
    assert RefreshSection(w, p, cfg, RefreshRejected(token), f) == RefreshGranted(w1, p, cfg, r, false, prev, f.refresh);
  }

  /** The first holder's request is answered, nobody else writes meanwhile, and it does not die. */
  predicate FirstLives(f: RefreshFaults) {
    Answered(f.answer) && !f.dies && f.meanwhile.Untouched? && NoDeath(f.commit) && !f.status.Dies?
  }

  /** A granted refresh leaves no status that bars, unless one barred before it. */
  lemma GrantedUnbarred(w: World, p: Proc, cfg: nat, r: Reading, prev: Option<Status>, f: RefreshFaults)
    requires r.rec.Some? && Complete(r.rec.value) && Answered(f.answer) && Valid(w) && !Bars(w.status, cfg)
    ensures !Bars(RefreshGranted(w, p, cfg, r, false, prev, f).w.status, cfg)
  {
    CommitShape(w, p, Merge(r.rec.value, f.answer, f.at), Some(Refreshed(f.at, f.answer.rid)), f.commit);
  }

  /** Two processes rejected on one access token, the first one's request answered and both tokens rotated: the second
      sends the spent refresh token if and only if the first one's commit left its record on no disk, neither in the
      file nor as a whole checkpoint. The record is then in the first one's memory, where the second cannot see it. */
  lemma SecondCallerResendsIff(w: World, p: Proc, q: Proc, cfg: nat, token: Token, f: RefreshRun, g: RefreshRun)
    requires p != q && AtRest(w) && Whole(w.cred) && w.cred.content.rec.access == Some(token) && !Bars(w.status, cfg)
    requires f.settle.recover.lstat && f.measure && f.read.Reads? && FirstLives(f.refresh)
    requires Rotates(w.asks, w.cred.content.rec, f.refresh.answer)
    requires Smooth(g.settle) && g.measure && g.read.Reads? && !g.refresh.answer.NotSent?
    ensures
      var w1 := RefreshSection(w, p, cfg, RefreshRejected(token), f).w;
      var w2 := RefreshSection(w1, q, cfg, RefreshRejected(token), g).w;
      NoneTwice(w1.asks) && (NoneTwice(w2.asks) <==> LeavesOnDisk(f.refresh.commit))
  {
    var rec := w.cred.content.rec;
    var first := Ask(p, rec.refresh.value, token, true, f.refresh.answer);
    FirstRefreshes(w, p, q, cfg, token, f);
    AskKeepsNoneTwice(w.asks, rec, first);
    var w1 := RefreshSection(w, p, cfg, RefreshRejected(token), f).w;
    if LeavesOnDisk(f.refresh.commit) {
      FindsOnDisk(w1, q, cfg, token, g, Merge(rec, f.refresh.answer, f.refresh.at));
    } else {
      FindsUnchanged(w1, q, cfg, token, g);
      var w2 := RefreshSection(w1, q, cfg, RefreshRejected(token), g).w;
      assert w2.asks[|w.asks|] == first;
      assert w2.asks[|w.asks| + 1].refresh == first.refresh;
    }
  }

  // ── a refused record ──────────────────────────────────────────────────────────────────────────

  /** A record in memory, over a file whose own token it spent, is refused and dropped. */
  lemma RefusedIsDropped(w: World, p: Proc, cfg: nat, f: RefreshFaults)
    requires Valid(w) && Whole(w.cred) && p in w.unsaved && w.unsaved[p].bound == CondOf(w.cred)
    requires !Barred(w, cfg, true, f.gate) && f.answer.RefusedToken? && f.meanwhile.Untouched?
    requires !f.dies && !f.status.Dies?
    ensures
      var r := ReadingOf(Backend(w.unsaved[p].rec), w.unsaved[p].bound);
      var w1 := RefreshLocked(w, p, cfg, r, true, f).w;
      && Valid(w1) && w1.cred == w.cred && w1.pending == w.pending && p !in w1.unsaved
      && w1.asks == w.asks + [Ask(p, r.rec.value.refresh.value, r.rec.value.access.value, false, f.answer)]
      && (Current(w1) && Bars(w1.status, cfg) <==> f.status.Fine? || (Current(w) && Bars(w.status, cfg)))
  {
    var r := ReadingOf(Backend(w.unsaved[p].rec), w.unsaved[p].bound);
    RefreshLockedMoves(w, p, cfg, r, true, f);
  }

  /** A process alone, with nothing to settle, refreshes the file unless the status bars it. */
  lemma RefreshesFileIff(w: World, p: Proc, cfg: nat, d: Door, g: RefreshRun)
    requires Valid(w) && Whole(w.cred) && p !in w.unsaved && w.pending.Missing? && Wants(d, w.cred.content.rec)
    requires g.settle.recover.lstat && g.read.Reads? && !g.refresh.answer.NotSent?
    ensures
      var rec := w.cred.content.rec;
      RefreshSection(w, p, cfg, d, g).w.asks
      == if g.refresh.gate && Current(w) && Bars(w.status, cfg) then w.asks
         else w.asks + [Ask(p, rec.refresh.value, rec.access.value, true, g.refresh.answer)]
  {
    assert Settle(w, p, cfg, g.settle) == Run(w, Value(()));
    var r := ReadRaw(w, p, g.measure, g.read);
    ReadRawKnown(w, p, g.measure, g.read);
    if !Barred(w, cfg, false, g.refresh.gate) {
      LockedAsks(w, p, cfg, r, g.refresh);
    }
  }

  /** A record in memory whose token is refused is dropped, which leaves the file whose token it spent: exactly when
      that token is sent again by the process's next refresh. It is when the status that should bar it cannot be read
      at the gate, or could not be written, and none that bars was there before. */
  lemma RefusedResendsIff(w: World, p: Proc, cfg: nat, d: Door, f: RefreshFaults, g: RefreshRun, spent: nat)
    requires Alone(w, p) && Whole(w.cred) && p in w.unsaved && w.pending.Missing? && Wants(d, w.cred.content.rec)
    requires spent < |w.asks| && w.asks[spent].answer.Granted? && Some(w.asks[spent].refresh) == w.cred.content.rec.refresh
    requires !Barred(w, cfg, true, f.gate) && f.answer.RefusedToken? && f.meanwhile.Untouched?
    requires !f.dies && !f.status.Dies?
    requires g.settle.recover.lstat && g.read.Reads? && !g.refresh.answer.NotSent?
    ensures
      var r := ReadingOf(Backend(w.unsaved[p].rec), w.unsaved[p].bound);
      var w1 := RefreshLocked(w, p, cfg, r, true, f).w;
      var w2 := RefreshSection(w1, p, cfg, d, g).w;
      && NoneTwice(w1.asks)
      && (NoneTwice(w2.asks) <==> g.refresh.gate && (f.status.Fine? || (Current(w) && Bars(w.status, cfg))))
  {
    var r := ReadingOf(Backend(w.unsaved[p].rec), w.unsaved[p].bound);
    var w1 := RefreshLocked(w, p, cfg, r, true, f).w;
    RefusedIsDropped(w, p, cfg, f);
    AskKeepsNoneTwice(w.asks, r.rec.value, Ask(p, r.rec.value.refresh.value, r.rec.value.access.value, false, f.answer));
    RefreshesFileIff(w1, p, cfg, d, g);
    var w2 := RefreshSection(w1, p, cfg, d, g).w;
    if w2.asks != w1.asks {
      assert w2.asks[spent] == w.asks[spent];
      assert w2.asks[|w1.asks|].refresh == w.asks[spent].refresh;
    }
  }

  // ── a record lost from memory ─────────────────────────────────────────────────────────────────

  /** The file's refresh token is one a granted request carried. */
  predicate SpentBy(w: World, spent: nat) {
    && Whole(w.cred) && spent < |w.asks| && w.asks[spent].answer.Granted?
    && Some(w.asks[spent].refresh) == w.cred.content.rec.refresh
  }

  /** A request that carries the file's spent token is a second one. */
  lemma SpentAgain(w: World, after: seq<Ask>, ask: Ask, spent: nat)
    requires SpentBy(w, spent) && after == w.asks + [ask] && Some(ask.refresh) == w.cred.content.rec.refresh
    ensures !NoneTwice(after)
  {
    assert after[spent] == w.asks[spent] && after[|w.asks|] == ask;
  }

  /** A process that dies with the record in its memory alone leaves the file whose token it spent: exactly when the next
      refresh, by whichever process, sends that token again. */
  lemma CrashResendsIff(w: World, p: Proc, tear: bool, q: Proc, cfg: nat, d: Door, g: RefreshRun, spent: nat)
    requires Alone(w, p) && w.pending.Missing? && SpentBy(w, spent) && Wants(d, w.cred.content.rec)
    requires g.settle.recover.lstat && g.read.Reads? && !g.refresh.answer.NotSent?
    ensures
      var w2 := RefreshSection(Die(w, p, tear), q, cfg, d, g).w;
      NoneTwice(w2.asks) <==> g.refresh.gate && Current(w) && Bars(w.status, cfg)
  {
    var w1 := Die(w, p, tear);
    DieMoves(w, p, tear);
    RefreshesFileIff(w1, q, cfg, d, g);
    if !(g.refresh.gate && Current(w) && Bars(w.status, cfg)) {
      var rec := w.cred.content.rec;
      SpentAgain(w1, RefreshSection(w1, q, cfg, d, g).w.asks,
                 Ask(q, rec.refresh.value, rec.access.value, true, g.refresh.answer), spent);
    }
  }

  /** The settle of a process whose commit fails again: its record stays where both stood, or is dropped unmeasured. */
  lemma SettleAgain(w: World, p: Proc, cfg: nat, f: SettleFaults)
    requires Alone(w, p) && Whole(w.cred) && p in w.unsaved && w.pending.Missing? && f.recover.lstat
    requires NoDeath(f.retry.commit) && !Blind(f.retry.commit.read, true) && !TryReplaces(f.retry.commit, true)
    ensures
      var s := Settle(w, p, cfg, f);
      && s.out.Value? && Valid(s.w) && s.w.cred == w.cred && s.w.status == w.status && s.w.asks == w.asks
      && (f.retry.measure ==> p in s.w.unsaved && s.w.unsaved[p] == w.unsaved[p])
      && (!f.retry.measure ==> p !in s.w.unsaved)
  {
    SettleMoves(w, p, cfg, f);
    assert RecoverPending(w, p, f.recover) == Run(w, Value(NoCheckpoint));
    if f.retry.measure {
      var e := w.unsaved[p];
      OneTry(w, p, e.rec, e.refreshed, f.retry.commit);
      CommitShape(w, p, e.rec, e.refreshed, f.retry.commit);
    } else {
      RetryDrops(w, p, cfg, f.retry);
    }
  }

  /** A process whose record cannot be written, and whose `lstat` of the file fails: exactly when its refresh sends the
      file's spent token instead of the record's. Either of the two, the settle's or the section's own, is enough. */
  lemma UnmeasuredResendsIff(w: World, p: Proc, cfg: nat, d: Door, g: RefreshRun, spent: nat)
    requires Alone(w, p) && p in w.unsaved && w.pending.Missing? && SpentBy(w, spent) && Wants(d, w.cred.content.rec)
    requires g.settle.recover.lstat && g.read.Reads? && !g.refresh.answer.NotSent? && g.refresh.meanwhile.Untouched?
    requires var c := g.settle.retry.commit; NoDeath(c) && !Blind(c.read, true) && !TryReplaces(c, true)
    ensures
      NoneTwice(RefreshSection(w, p, cfg, d, g).w.asks)
      <==> (g.settle.retry.measure && g.measure) || (g.refresh.gate && Current(w) && Bars(w.status, cfg))
  {
    SettleAgain(w, p, cfg, g.settle);
    var s := Settle(w, p, cfg, g.settle);
    var r := ReadRaw(s.w, p, g.measure, g.read);
    ReadRawKnown(s.w, p, g.measure, g.read);
    var after := RefreshSection(w, p, cfg, d, g).w.asks;
    if g.settle.retry.measure && g.measure {
      var rec := w.unsaved[p].rec;
      assert r.rec == Some(rec) && Served(s.w, p, g.measure);
      if Wants(d, rec) {
        var ask := Ask(p, rec.refresh.value, rec.access.value, false, g.refresh.answer);
        LockedSpends(s.w, p, cfg, r, true, g.refresh);
        AskKeepsNoneTwice(w.asks, rec, ask);
      }
    } else {
      assert !Served(s.w, p, g.measure) && r == ReadingOf(w.cred.content, CondOf(w.cred));
      if !Barred(s.w, cfg, false, g.refresh.gate) {
        LockedAsks(s.w, p, cfg, r, g.refresh);
        SpentAgain(w, after, Ask(p, r.rec.value.refresh.value, r.rec.value.access.value, true, g.refresh.answer), spent);
      }
    }
  }
}
