/** A state an upstream answer set is carried through every refresh, until something that may replace it does. */
module AuthUpstream {
  import opened Wrappers
  import opened Credential
  import opened AuthSteps
  import opened AuthFacts
  import opened AuthRuns
  import opened AuthPairs

  /** The current status holds a state an upstream answer set, with this code and request id. */
  predicate Paused(w: World, state: State, code: Option<nat>, rid: Option<nat>) {
    && w.cred.File? && Current(w)
    && Upstream(state)
    && w.status.value.state == state && w.status.value.code == code && w.status.value.rid == rid
  }

  /** The commit renames its record over the file. */
  predicate Replaced(f: CommitFaults) {
    Fsynced(f) && f.rename.Fine?
  }

  /** Wherever it fails or dies, the commit leaves no whole checkpoint behind: it stops before its record is written, its
      handler removes the checkpoint, a death tears what was not yet fsynced, or the rename takes it. */
  predicate LeavesNone(f: CommitFaults) {
    f.unlink.Fine? && f.create.Fine? && f.chmod.Fine? && f.write.Fine? ==>
      match f.sync
      case Dies(tear) => tear
      case Fails => f.cleanup.Fine? || (f.cleanup.Dies? && f.cleanup.tear)
      case Fine => f.rename.Fine? || (f.rename.Fails? && f.cleanup.Fine?)
  }

  /** A retry that replaces the file goes on to write its status. */
  predicate CalmRetry(f: RetryFaults) {
    && LeavesNone(f.commit)
    && (Replaced(f.commit) ==> f.prev && f.commit.dirsync.Fine? && f.remeasure && f.status.Fine?)
  }

  /** A refresh no outside writer interrupts. If it writes a status it has read the one it met, and writes no refusal; if
      its commit replaces the file it goes on to write that status, of the file it put there. */
  predicate CalmRefresh(f: RefreshFaults) {
    && f.meanwhile.Untouched? && LeavesNone(f.commit)
    && (f.status.Fine? ==> f.prev && !f.answer.RefusedToken? && !f.answer.RefusedClient?)
    && (Answered(f.answer) && Replaced(f.commit) ==>
          !f.commit.dirsync.Dies? && f.commit.measure && f.measure && f.status.Fine?)
  }

  /** A step of a run in which only refreshes happen: any door, any process, any answer but a refusal, commits that
      land, fail or die, and processes that die anywhere a whole checkpoint or a file without its status is not left. */
  predicate Calm(s: Step) {
    match s
    case Refresh(_, _, _, f) =>
      CalmRetry(f.settle.retry) && CalmRefresh(f.refresh) && (f.refresh.status.Fine? ==> f.measure)
    case SettleOnly(_, _, f) => CalmRetry(f.retry)
    case Crash(_, _) => true
    case Tick(_) => true
    case _ => false
  }

  lemma CheckpointNone(w: World, p: Proc, rec: Record, f: CommitFaults)
    requires !Candidate(w.pending) && LeavesNone(f)
    ensures
      var (w1, progress) := WriteCheckpoint(w, p, rec, f);
      && (progress.Gone? ==> !Candidate(w1.pending))
      && (progress.Broke? ==> !Candidate(w1.pending) || f.cleanup.Fine? || (f.cleanup.Dies? && f.cleanup.tear && !w1.pending.synced))
      && (progress.Wrote? ==> f.rename.Fine? || (f.rename.Fails? && f.cleanup.Fine?))
  {
  }

  lemma ConcludeNone(w: World, progress: Progress, p: Proc, e: Entry, f: CommitFaults)
    requires progress.Gone? ==> !Candidate(w.pending)
    requires progress.Broke? ==> !Candidate(w.pending) || f.cleanup.Fine? || (f.cleanup.Dies? && f.cleanup.tear && !w.pending.synced)
    requires progress.Wrote? ==> f.rename.Fine? || (f.rename.Fails? && f.cleanup.Fine?)
    ensures !Candidate(Conclude(w, progress, p, e, f).w.pending)
  {
  }

  /** Such a commit leaves no whole checkpoint, and keeps the record of a file it does not replace bound to that file. */
  lemma CommitLeavesNone(w: World, p: Proc, rec: Record, refreshed: Option<Refreshed>, f: CommitFaults)
    requires !Candidate(w.pending) && LeavesNone(f)
    ensures !Candidate(CommitRecord(w, p, rec, refreshed, f).w.pending)
  {
    if Unwritable(ReadFile(w, f.read)).None? {
      CheckpointNone(w, p, rec, f);
      var (w1, progress) := WriteCheckpoint(w, p, rec, f);
      ConcludeNone(w1, progress, p, Entry(rec, ReadFile(w, f.read).ident, refreshed), f);
    }
  }

  lemma ConcludeReplaces(w: World, w1: World, progress: Progress, p: Proc, e: Entry, f: CommitFaults)
    requires Valid(w) && CheckpointFacts(w, p, e.rec, w1, progress) && (progress.Wrote? <==> Fsynced(f))
    requires e.bound == CondOf(w.cred)
    ensures
      var c := Conclude(w1, progress, p, e, f);
      && c.w.status == w.status && !c.out.Raise?
      && (c.w.cred == if Replaced(f) then Fresh(w, e.rec) else w.cred)
      && (Replaced(f) ==> c.out == if f.dirsync.Dies? then Died else Value(f.dirsync.Fine?))
      && (!Replaced(f) ==> c.out.Died? || c.out == Value(false))
      && (c.out == Value(false) ==>
            && p in c.w.unsaved
            && c.w.unsaved[p].bound == if Replaced(f) then CurrentIdentity(c.w, f.measure) else CondOf(w.cred))
  {
  }

  /** What a commit whose re-read let it go on does to the file, and how it ends. */
  lemma CommitReplaces(w: World, p: Proc, rec: Record, refreshed: Option<Refreshed>, f: CommitFaults)
    requires Valid(w) && Unwritable(ReadFile(w, f.read)).None?
    ensures
      var c := CommitRecord(w, p, rec, refreshed, f);
      && c.w.status == w.status && !c.out.Raise?
      && (c.w.cred == if Replaced(f) then Fresh(w, rec) else w.cred)
      && (Replaced(f) ==> c.out == if f.dirsync.Dies? then Died else Value(f.dirsync.Fine?))
      && (!Replaced(f) ==> c.out.Died? || c.out == Value(false))
      && (c.out == Value(false) ==>
            && p in c.w.unsaved
            && c.w.unsaved[p].bound == if Replaced(f) then CurrentIdentity(c.w, f.measure) else CondOf(w.cred))
  {
    Proceeds(w, f.read);
    CheckpointShape(w, p, rec, f);
    FsyncedWrote(w, p, rec, f);
    var (w1, progress) := WriteCheckpoint(w, p, rec, f);
    ConcludeReplaces(w, w1, progress, p, Entry(rec, ReadFile(w, f.read).ident, refreshed), f);
  }

  /** A status bound to a file since replaced is current no more. */
  lemma UnboundStatus(w: World, rec: Record)
    requires Valid(w) && Current(w)
    ensures CondOf(w.cred) != CondOf(Fresh(w, rec))
  {
  }

  /** Exactly when a retry loses the state, over every failure and death: its rename landed, and then the directory
      fsync failed or died, so that no status was written, or the status was written without the state or not at all. */
  lemma RetryLosesPausedIff(w: World, p: Proc, cfg: nat, f: RetryFaults, state: State, code: Option<nat>, rid: Option<nat>)
    requires Valid(w) && Paused(w, state, code, rid)
    requires p in w.unsaved && CurrentIdentity(w, f.measure) == w.unsaved[p].bound
    requires Unwritable(ReadFile(w, f.commit.read)).None?
    ensures Paused(RetryUnsaved(w, p, cfg, f).w, state, code, rid)
            <==> !Replaced(f.commit) || (f.commit.dirsync.Fine? && f.prev && f.remeasure && f.status.Fine?)
  {
    var e := w.unsaved[p];
    CommitReplaces(w, p, e.rec, e.refreshed, f.commit);
    UnboundStatus(w, e.rec);
    RetryFromPaused(w, CommitRecord(w, p, e.rec, e.refreshed, f.commit), p, cfg, e, f, state, code, rid);
  }

  lemma RetryFromPaused(w: World, c: Run<bool>, p: Proc, cfg: nat, e: Entry, f: RetryFaults,
                        state: State, code: Option<nat>, rid: Option<nat>)
    requires Paused(w, state, code, rid) && c.w.status == w.status && !c.out.Raise?
    requires c.w.cred == w.cred || (c.w.cred.File? && CondOf(c.w.cred) != CondOf(w.cred))
    requires c.out == Value(true) ==> c.w.cred != w.cred
    ensures Paused(RetryFrom(c, p, cfg, e, ReadStatus(w, f.prev), f).w, state, code, rid)
            <==> c.w.cred == w.cred || (c.out == Value(true) && f.prev && f.remeasure && f.status.Fine?)
  {
  }

  /** The first operation of the commit, up to its rename, that does not succeed. */
  function FirstFault(f: CommitFaults): Fate {
    if !f.unlink.Fine? then f.unlink
    else if !f.create.Fine? then f.create
    else if !f.chmod.Fine? then f.chmod
    else if !f.write.Fine? then f.write
    else if !f.sync.Fine? then f.sync
    else f.rename
  }

  /** A commit that replaces nothing dies in it, or in the handler of its failure. */
  predicate DiesBefore(f: CommitFaults) {
    FirstFault(f).Dies? || f.cleanup.Dies?
  }

  lemma CommitDiesBefore(w: World, p: Proc, rec: Record, refreshed: Option<Refreshed>, f: CommitFaults)
    requires Unwritable(ReadFile(w, f.read)).None? && !Replaced(f)
    ensures CommitRecord(w, p, rec, refreshed, f).out.Died? <==> DiesBefore(f)
  {
  }

  /** Exactly when a granted refresh loses it, over every failure and death. Where its rename landed: when it then died
      before its status was written, the write failed, the new file could not be measured, or the status it met could not
      be read. Where nothing was replaced: when it wrote a status without having read the one it met. Of the deaths
      inside the section, then, exactly those between the rename and the status write. */
  lemma GrantedLosesPausedIff(w: World, p: Proc, cfg: nat, r: Reading, fromUnsaved: bool, f: RefreshFaults,
                              state: State, code: Option<nat>, rid: Option<nat>)
    requires r.rec.Some? && Complete(r.rec.value) && Answered(f.answer)
    requires Valid(w) && Paused(w, state, code, rid) && Unwritable(ReadFile(w, f.commit.read)).None?
    ensures Paused(RefreshGranted(w, p, cfg, r, fromUnsaved, ReadStatus(w, f.prev), f).w, state, code, rid) <==>
              if Replaced(f.commit) then
                && f.prev && f.status.Fine? && !f.commit.dirsync.Dies?
                && (if f.commit.dirsync.Fine? then f.measure else f.commit.measure)
              else DiesBefore(f.commit) || f.prev || !f.status.Fine?
  {
    var rec := Merge(r.rec.value, f.answer, f.at);
    var refreshed := Refreshed(f.at, f.answer.rid);
    CommitReplaces(w, p, rec, Some(refreshed), f.commit);
    if !Replaced(f.commit) {
      CommitDiesBefore(w, p, rec, Some(refreshed), f.commit);
    }
    UnboundStatus(w, rec);
    GrantedFromPaused(w, CommitRecord(w, p, rec, Some(refreshed), f.commit), p, cfg, r, rec, refreshed, f, state, code, rid);
  }

  lemma GrantedFromPaused(w: World, c: Run<bool>, p: Proc, cfg: nat, r: Reading, rec: Record, refreshed: Refreshed,
                          f: RefreshFaults, state: State, code: Option<nat>, rid: Option<nat>)
    requires Paused(w, state, code, rid) && c.w.status == w.status && !c.out.Raise?
    requires c.w.cred == w.cred || (c.w.cred.File? && CondOf(c.w.cred) != CondOf(w.cred))
    requires c.out == Value(true) ==> c.w.cred != w.cred
    requires c.out == Value(false) ==>
               && p in c.w.unsaved
               && c.w.unsaved[p].bound == if c.w.cred != w.cred then CurrentIdentity(c.w, f.commit.measure) else CondOf(w.cred)
    ensures Paused(GrantedFrom(c, p, cfg, r, rec, false, ReadStatus(w, f.prev), refreshed, f).w, state, code, rid) <==>
              if c.w.cred != w.cred then
                c.out.Value? && f.prev && f.status.Fine? && (if c.out.v then f.measure else f.commit.measure)
              else c.out.Died? || f.prev || !f.status.Fine?
  {
  }

  /** Exactly when a refresh that commits nothing loses it: when it writes a status that is a refusal, that was put
      together without the one it met, or that is not bound to the file in place. */
  lemma RefusedLosesPausedIff(w: World, w0: World, p: Proc, cfg: nat, r: Reading, fromUnsaved: bool, f: RefreshFaults,
                              state: State, code: Option<nat>, rid: Option<nat>)
    requires r.rec.Some? && (fromUnsaved ==> p in w0.unsaved) && !Answered(f.answer)
    requires Paused(w, state, code, rid)
    ensures Paused(RefreshRefused(w, w0, p, cfg, r, fromUnsaved, ReadStatus(w, f.prev), f).w, state, code, rid) <==>
              || f.answer.NotSent? || !f.status.Fine?
              || (f.prev && r.ident == CondOf(w.cred) && !f.answer.RefusedToken? && !f.answer.RefusedClient?)
  {
  }

  lemma RetryKeepsPaused(w: World, p: Proc, cfg: nat, f: RetryFaults, state: State, code: Option<nat>, rid: Option<nat>)
    requires Valid(w) && !Candidate(w.pending) && Paused(w, state, code, rid) && CalmRetry(f)
    ensures
      var c := RetryUnsaved(w, p, cfg, f);
      !Candidate(c.w.pending) && Paused(c.w, state, code, rid)
  {
    if p in w.unsaved && CurrentIdentity(w, f.measure) == w.unsaved[p].bound {
      CommitLeavesNone(w, p, w.unsaved[p].rec, w.unsaved[p].refreshed, f.commit);
      if Unwritable(ReadFile(w, f.commit.read)).None? {
        RetryLosesPausedIff(w, p, cfg, f, state, code, rid);
      }
    }
  }

  /** Settling what is no whole checkpoint never replaces the file. */
  lemma RecoverIdle(w: World, p: Proc, f: RecoverFaults)
    requires Valid(w) && !Candidate(w.pending)
    ensures
      var c := RecoverPending(w, p, f);
      Valid(c.w) && !Candidate(c.w.pending) && c.w.cred == w.cred && c.w.status == w.status && c.w.asks == w.asks
  {
    RecoverShape(w, p, f);
    RecoverFactsMove(w, p, RecoverPending(w, p, f));
  }

  lemma SettleKeepsPaused(w: World, p: Proc, cfg: nat, f: SettleFaults, state: State, code: Option<nat>, rid: Option<nat>)
    requires Valid(w) && !Candidate(w.pending) && Paused(w, state, code, rid) && CalmRetry(f.retry)
    ensures
      var c := Settle(w, p, cfg, f);
      !Candidate(c.w.pending) && Paused(c.w, state, code, rid)
  {
    RecoverIdle(w, p, f.recover);
    RetryKeepsPaused(RecoverPending(w, p, f.recover).w, p, cfg, f.retry, state, code, rid);
  }

  lemma GrantedKeepsPaused(w: World, p: Proc, cfg: nat, r: Reading, fromUnsaved: bool, f: RefreshFaults,
                           state: State, code: Option<nat>, rid: Option<nat>)
    requires r.rec.Some? && Complete(r.rec.value) && Answered(f.answer)
    requires Valid(w) && !Candidate(w.pending) && Paused(w, state, code, rid) && CalmRefresh(f)
    ensures
      var c := RefreshGranted(w, p, cfg, r, fromUnsaved, ReadStatus(w, f.prev), f);
      !Candidate(c.w.pending) && Paused(c.w, state, code, rid)
  {
    CommitLeavesNone(w, p, Merge(r.rec.value, f.answer, f.at), Some(Refreshed(f.at, f.answer.rid)), f.commit);
    if Unwritable(ReadFile(w, f.commit.read)).None? {
      GrantedLosesPausedIff(w, p, cfg, r, fromUnsaved, f, state, code, rid);
    }
  }

  lemma RefusedLeavesNone(w: World, w0: World, p: Proc, cfg: nat, r: Reading, fromUnsaved: bool, prev: Option<Status>, f: RefreshFaults)
    requires r.rec.Some? && (fromUnsaved ==> p in w0.unsaved) && !Answered(f.answer) && !Candidate(w.pending)
    ensures !Candidate(RefreshRefused(w, w0, p, cfg, r, fromUnsaved, prev, f).w.pending)
  {
  }

  lemma RefreshLockedKeepsPaused(w: World, p: Proc, cfg: nat, r: Reading, fromUnsaved: bool, f: RefreshFaults,
                                 state: State, code: Option<nat>, rid: Option<nat>)
    requires r.word == Present && r.rec.Some? && Complete(r.rec.value) && (f.status.Fine? ==> r.ident == CondOf(w.cred))
    requires fromUnsaved ==> p in w.unsaved
    requires Valid(w) && !Candidate(w.pending) && Paused(w, state, code, rid) && CalmRefresh(f)
    ensures
      var c := RefreshLocked(w, p, cfg, r, fromUnsaved, f);
      !Candidate(c.w.pending) && Paused(c.w, state, code, rid)
  {
    var w1 := AfterTrip(w, p, r.rec.value, fromUnsaved, f);
    TripMoves(w, p, r.rec.value, fromUnsaved, f);
    assert Paused(w1, state, code, rid);
    if f.dies {
    } else if Answered(f.answer) {
      GrantedKeepsPaused(w1, p, cfg, r, fromUnsaved, f, state, code, rid);
    } else {
      RefusedLosesPausedIff(w1, w, p, cfg, r, fromUnsaved, f, state, code, rid);
      RefusedLeavesNone(w1, w, p, cfg, r, fromUnsaved, ReadStatus(w, f.prev), f);
    }
  }

  lemma RefreshKeepsPaused(w: World, p: Proc, cfg: nat, d: Door, f: RefreshRun, state: State, code: Option<nat>, rid: Option<nat>)
    requires Valid(w) && !Candidate(w.pending) && Paused(w, state, code, rid)
    requires CalmRetry(f.settle.retry) && CalmRefresh(f.refresh) && (f.refresh.status.Fine? ==> f.measure)
    ensures
      var c := RefreshSection(w, p, cfg, d, f);
      !Candidate(c.w.pending) && Paused(c.w, state, code, rid)
  {
    var s := Settle(w, p, cfg, f.settle);
    SettleMoves(w, p, cfg, f.settle);
    SettleKeepsPaused(w, p, cfg, f.settle, state, code, rid);
    if s.out.Value? {
      var r := ReadRaw(s.w, p, f.measure, f.read);
      ReadRawKnown(s.w, p, f.measure, f.read);
      if RaiseFor(r).None? && Wants(d, r.rec.value) {
        RefreshLockedKeepsPaused(s.w, p, cfg, r, Served(s.w, p, f.measure), f.refresh, state, code, rid);
      }
    }
  }

  /** A current upstream state keeps its state, code and request id, bound to whatever file is then in place, through
      any number of committed refreshes, refreshes whose commit failed, transient failures, retries and deaths, while no
      whole checkpoint is left to be promoted and no file is left replaced without its status. */
  lemma {:induction false} UpstreamStateIsCarried(w: World, steps: seq<Step>, state: State, code: Option<nat>, rid: Option<nat>)
    requires Valid(w) && !Candidate(w.pending) && Paused(w, state, code, rid)
    requires forall s <- steps :: Legal(s) && Calm(s)
    ensures Paused(Exec(w, steps), state, code, rid)
    decreases |steps|
  {
    if steps != [] {
      assert steps[0] in steps;
      var w1 := Apply(w, steps[0]);
      StepMoves(w, steps[0]);
      match steps[0] {
        case Refresh(p, cfg, d, f) => RefreshKeepsPaused(w, p, cfg, d, f, state, code, rid);
        case SettleOnly(p, cfg, f) => SettleKeepsPaused(w, p, cfg, f, state, code, rid);
        case _ =>
      }
      UpstreamStateIsCarried(w1, steps[1..], state, code, rid);
    }
  }

  /** Exactly when settling a checkpoint loses it, whatever else fails or dies there: when the checkpoint is whole, no
      older than the file, and everything its promotion needs succeeds. */
  lemma PromotionLosesPausedIff(w: World, p: Proc, f: RecoverFaults, state: State, code: Option<nat>, rid: Option<nat>)
    requires Valid(w) && Paused(w, state, code, rid)
    ensures Paused(RecoverPending(w, p, f).w, state, code, rid) <==> !Promotes(w, f)
  {
    RecoverShape(w, p, f);
    PromotedIff(w, p, f);
    var c := RecoverPending(w, p, f);
    RecoverFactsMove(w, p, c);
    if c.w.cred != w.cred {
      ChangedIsRetired(w, c.w, p, false);
    }
  }

  /** An upstream answer moves the state only among ok and the two it may set, touches no refresher field, and leaves a
      state it may not move exactly as it stands. */
  lemma UpstreamAnswerMoves(w: World, p: Proc, cfg: nat, state: Option<State>, code: Option<nat>, rid: Option<nat>, f: UpstreamFaults)
    requires state.Some? ==> Recordable(state.value)
    requires f.prev
    ensures
      var c := RecordUpstream(w, p, cfg, state, code, rid, f);
      && (Current(w) && !Recordable(w.status.value.state) ==> c.w.status == w.status)
      && (Current(w) && c.w.status != w.status ==>
            && Current(c.w) && Recordable(c.w.status.value.state)
            && c.w.status.value == w.status.value.(state := c.w.status.value.state, code := code, rid := rid, cfg := cfg)
            && (state.None? ==> c.w.status.value.state == w.status.value.state)
            && (state.Some? ==> c.w.status.value.state == state.value))
      && (state == Some(StateOk) && !(Current(w) && Upstream(w.status.value.state)) ==> c.w.status == w.status)
  {
  }

  // ── a refused client ──────────────────────────────────────────────────────────────────────────

  /** The status says, under this configuration, that the endpoint refused ccrc's client. */
  predicate ClientBarred(w: World, cfg: nat, code: Option<nat>) {
    && w.cred.File? && Current(w)
    && w.status.value.state == ConfigError && w.status.value.cfg == cfg && w.status.value.code == code
  }

  predicate SameConfig(s: Step, cfg: nat) {
    match s
    case Refresh(_, c, _, f) => c == cfg && f.measure && CalmRetry(f.settle.retry) && f.refresh.gate
    case SettleOnly(_, c, f) => c == cfg && CalmRetry(f.retry)
    case UpstreamAnswer(_, _, _, _, _, f) => f.prev
    case Crash(_, _) => true
    case Tick(_) => true
    case _ => false
  }

  lemma RetryFromClientBarred(w: World, c: Run<bool>, p: Proc, cfg: nat, e: Entry, f: RetryFaults, code: Option<nat>)
    requires ClientBarred(w, cfg, code) && c.w.status == w.status && !c.out.Raise?
    requires c.w.cred == w.cred || (c.w.cred.File? && c.out == Value(true) && f.prev && f.remeasure && f.status.Fine?)
    requires c.out == Value(true) ==> c.w.cred != w.cred
    ensures
      var r := RetryFrom(c, p, cfg, e, ReadStatus(w, f.prev), f);
      ClientBarred(r.w, cfg, code) && r.w.asks == c.w.asks
  {
  }

  lemma RetryKeepsClientBarred(w: World, p: Proc, cfg: nat, f: RetryFaults, code: Option<nat>)
    requires Valid(w) && !Candidate(w.pending) && ClientBarred(w, cfg, code) && CalmRetry(f)
    ensures
      var c := RetryUnsaved(w, p, cfg, f);
      !Candidate(c.w.pending) && ClientBarred(c.w, cfg, code) && c.w.asks == w.asks
  {
    if p in w.unsaved && CurrentIdentity(w, f.measure) == w.unsaved[p].bound {
      var e := w.unsaved[p];
      CommitLeavesNone(w, p, e.rec, e.refreshed, f.commit);
      if Unwritable(ReadFile(w, f.commit.read)).None? {
        CommitShape(w, p, e.rec, e.refreshed, f.commit);
        CommitReplaces(w, p, e.rec, e.refreshed, f.commit);
        RetryFromClientBarred(w, CommitRecord(w, p, e.rec, e.refreshed, f.commit), p, cfg, e, f, code);
      }
    }
  }

  lemma SettleKeepsClientBarred(w: World, p: Proc, cfg: nat, f: SettleFaults, code: Option<nat>)
    requires Valid(w) && !Candidate(w.pending) && ClientBarred(w, cfg, code) && CalmRetry(f.retry)
    ensures
      var c := Settle(w, p, cfg, f);
      !Candidate(c.w.pending) && ClientBarred(c.w, cfg, code) && c.w.asks == w.asks
  {
    RecoverIdle(w, p, f.recover);
    RetryKeepsClientBarred(RecoverPending(w, p, f.recover).w, p, cfg, f.retry, code);
  }

  lemma AfterSettleIsBarred(w: World, p: Proc, cfg: nat, d: Door, f: RefreshRun, code: Option<nat>)
    requires ClientBarred(w, cfg, code) && f.refresh.gate && Valid(w)
    ensures AfterSettle(w, p, cfg, d, f).w == w
  {
    ReadRawKnown(w, p, f.measure, f.read);
  }

  lemma StepKeepsClientBarred(w: World, s: Step, cfg: nat, code: Option<nat>)
    requires Valid(w) && !Candidate(w.pending) && ClientBarred(w, cfg, code) && Legal(s) && SameConfig(s, cfg)
    ensures
      var w1 := Apply(w, s);
      !Candidate(w1.pending) && ClientBarred(w1, cfg, code) && w1.asks == w.asks
  {
    match s
    case Refresh(p, _, d, f) =>
      SettleKeepsClientBarred(w, p, cfg, f.settle, code);
      SettleMoves(w, p, cfg, f.settle);
      AfterSettleIsBarred(Settle(w, p, cfg, f.settle).w, p, cfg, d, f, code);
    case SettleOnly(p, _, f) => SettleKeepsClientBarred(w, p, cfg, f, code);
    case UpstreamAnswer(p, _, state, c, rid, f) =>
    case Crash(_, _) =>
    case Tick(_) =>
  }

  /** A refused client stays refused while the configuration stands: no run of refreshes makes a request, from the file
      or from a record in memory, and the retries that land records keep the refusal, bound to each file in turn. */
  lemma {:induction false} ClientRefusalHolds(w: World, steps: seq<Step>, cfg: nat, code: Option<nat>)
    requires Valid(w) && !Candidate(w.pending) && ClientBarred(w, cfg, code)
    requires forall s <- steps :: Legal(s) && SameConfig(s, cfg)
    ensures
      var w' := Exec(w, steps);
      ClientBarred(w', cfg, code) && w'.asks == w.asks
    decreases |steps|
  {
    if steps != [] {
      assert steps[0] in steps;
      StepMoves(w, steps[0]);
      StepKeepsClientBarred(w, steps[0], cfg, code);
      ClientRefusalHolds(Apply(w, steps[0]), steps[1..], cfg, code);
    }
  }
}
