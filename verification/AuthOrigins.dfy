/** Where every record a lane ever carries comes from: it was there, was signed in, or is what the endpoint answered. */
module AuthOrigins {
  import opened Wrappers
  import opened Credential
  import opened AuthSteps
  import opened AuthFacts

  /** The lane carries this record: as its credential, as its checkpoint, or unsaved in some process's memory. */
  ghost predicate Carries(w: World, rec: Record) {
    || Holds(w.cred, rec) || Holds(w.pending, rec)
    || exists p :: p in w.unsaved && w.unsaved[p].rec == rec
  }

  /** The step brings this record into the lane: a sign-in's, the endpoint's answer over a record the lane carried, or a
      writer outside's. */
  ghost predicate Brings(w: World, s: Step, rec: Record) {
    match s
    case Refresh(_, _, _, f) =>
      || f.refresh.meanwhile == Overwrote(Backend(rec))
      || (Answered(f.refresh.answer) &&
          exists stored :: Carries(w, stored) && Complete(stored) && rec == Merge(stored, f.refresh.answer, f.refresh.at))
    case Signin(_, _, signed, _, _) => rec == signed
    case Foreign(o) => o == Overwrote(Backend(rec))
    case _ => false
  }

  /** The lane carried it at the start of the run, or one of its steps brought it. */
  ghost predicate Comes(w: World, steps: seq<Step>, rec: Record)
    requires forall s <- steps :: Legal(s)
    decreases |steps|
  {
    || Carries(w, rec)
    || (steps != [] && (Brings(w, steps[0], rec) || Comes(Apply(w, steps[0]), steps[1..], rec)))
  }

  lemma CheckpointCarries(w: World, p: Proc, rec: Record, f: CommitFaults, x: Record)
    ensures
      var w1 := WriteCheckpoint(w, p, rec, f).0;
      Holds(w1.pending, x) ==> Holds(w.pending, x) || x == rec
  {
  }

  lemma ConcludeCarries(w: World, progress: Progress, p: Proc, e: Entry, f: CommitFaults, x: Record)
    requires progress.Wrote? ==> Holds(w.pending, e.rec)
    requires Carries(Conclude(w, progress, p, e, f).w, x)
    ensures Carries(w, x) || x == e.rec
  {
    var c := Conclude(w, progress, p, e, f);
    if q :| q in c.w.unsaved && c.w.unsaved[q].rec == x {
      if q != p {
        assert q in w.unsaved && w.unsaved[q].rec == x;
      }
    }
  }

  /** A commit brings nothing but its own record. */
  lemma CommitCarries(w: World, p: Proc, rec: Record, refreshed: Option<Refreshed>, f: CommitFaults, x: Record)
    requires Carries(CommitRecord(w, p, rec, refreshed, f).w, x)
    ensures Carries(w, x) || x == rec
  {
    var current := ReadFile(w, f.read);
    if Unwritable(current).None? {
      var (w1, progress) := WriteCheckpoint(w, p, rec, f);
      CheckpointShape(w, p, rec, f);
      CheckpointCarries(w, p, rec, f, x);
      ConcludeCarries(w1, progress, p, Entry(rec, current.ident, refreshed), f, x);
      if Carries(w1, x) && !Holds(w1.cred, x) && !Holds(w1.pending, x) {
        var q :| q in w1.unsaved && w1.unsaved[q].rec == x;
        assert q in w.unsaved && w.unsaved[q].rec == x;
      }
    }
  }

  /** What `w1` holds of the record, `w` holds: no file and no memory of it is new. */
  ghost predicate Within(w1: World, w: World, x: Record) {
    && (Holds(w1.cred, x) || Holds(w1.pending, x) ==> Holds(w.cred, x) || Holds(w.pending, x))
    && forall q | q in w1.unsaved :: q in w.unsaved && w1.unsaved[q] == w.unsaved[q]
  }

  lemma WithinCarries(w1: World, w: World, x: Record)
    requires Within(w1, w, x) && Carries(w1, x)
    ensures Carries(w, x)
  {
    if !Holds(w1.cred, x) && !Holds(w1.pending, x) {
      var q :| q in w1.unsaved && w1.unsaved[q].rec == x;
      assert q in w.unsaved && w.unsaved[q].rec == x;
    }
  }

  lemma StatusWithin(w: World, p: Proc, s: Status, f: Fate, x: Record)
    ensures Within(WriteStatus(w, p, s, f).w, w, x)
  {
  }

  lemma RecoverWithin(w: World, p: Proc, f: RecoverFaults, x: Record)
    ensures Within(RecoverPending(w, p, f).w, w, x)
  {
    RecoverShape(w, p, f);
  }

  lemma RetryCarries(w: World, p: Proc, cfg: nat, f: RetryFaults, x: Record)
    requires Carries(RetryUnsaved(w, p, cfg, f).w, x)
    ensures Carries(w, x)
  {
    if p in w.unsaved && CurrentIdentity(w, f.measure) == w.unsaved[p].bound {
      var e := w.unsaved[p];
      var c := CommitRecord(w, p, e.rec, e.refreshed, f.commit);
      RetryFromWithin(c, p, cfg, e, ReadStatus(w, f.prev), f, x);
      WithinCarries(RetryUnsaved(w, p, cfg, f).w, c.w, x);
      CommitCarries(w, p, e.rec, e.refreshed, f.commit, x);
    } else {
      WithinCarries(RetryUnsaved(w, p, cfg, f).w, w, x);
    }
  }

  lemma RetryFromWithin(c: Run<bool>, p: Proc, cfg: nat, e: Entry, prev: Option<Status>, f: RetryFaults, x: Record)
    ensures Within(RetryFrom(c, p, cfg, e, prev, f).w, c.w, x)
  {
    if c.out.Value? {
      StatusWithin(c.w, p, RetriedStatus(e, prev, cfg, CurrentIdentity(c.w, f.remeasure)), f.status, x);
    }
  }

  /** Settling brings nothing. */
  lemma SettleCarries(w: World, p: Proc, cfg: nat, f: SettleFaults, x: Record)
    requires Carries(Settle(w, p, cfg, f).w, x)
    ensures Carries(w, x)
  {
    var a := RecoverPending(w, p, f.recover);
    RecoverWithin(w, p, f.recover, x);
    if a.out.Value? {
      RetryCarries(a.w, p, cfg, f.retry, x);
    }
    WithinCarries(a.w, w, x);
  }

  lemma GrantedCarries(w: World, p: Proc, cfg: nat, r: Reading, fromUnsaved: bool, prev: Option<Status>,
                       f: RefreshFaults, x: Record)
    requires r.rec.Some? && Answered(f.answer)
    requires Carries(RefreshGranted(w, p, cfg, r, fromUnsaved, prev, f).w, x)
    ensures Carries(w, x) || x == Merge(r.rec.value, f.answer, f.at)
  {
    var rec := Merge(r.rec.value, f.answer, f.at);
    var refreshed := Refreshed(f.at, f.answer.rid);
    var c := CommitRecord(w, p, rec, Some(refreshed), f.commit);
    GrantedFromCarries(c, p, cfg, r, rec, fromUnsaved && Bars(prev, cfg), prev, refreshed, f, x);
    if x != rec {
      CommitCarries(w, p, rec, Some(refreshed), f.commit, x);
    }
  }

  lemma GrantedFromCarries(c: Run<bool>, p: Proc, cfg: nat, r: Reading, rec: Record, standing: bool,
                           prev: Option<Status>, refreshed: Refreshed, f: RefreshFaults, x: Record)
    requires Carries(GrantedFrom(c, p, cfg, r, rec, standing, prev, refreshed, f).w, x)
    ensures Carries(c.w, x) || x == rec
  {
    var g := GrantedFrom(c, p, cfg, r, rec, standing, prev, refreshed, f);
    match c.out
    case Died =>
    case Raise(_) =>
      if x != rec && !Holds(c.w.cred, x) && !Holds(c.w.pending, x) {
        var q :| q in g.w.unsaved && g.w.unsaved[q].rec == x;
        assert q in c.w.unsaved && c.w.unsaved[q].rec == x;
      }
    case Value(_) =>
      StatusWithin(c.w, p, GrantedStatus(c, p, cfg, r, rec, prev, refreshed, f), f.status, x);
      WithinCarries(g.w, c.w, x);
  }

  lemma RefusedWithin(w: World, w0: World, p: Proc, cfg: nat, r: Reading, fromUnsaved: bool, prev: Option<Status>,
                      f: RefreshFaults, x: Record)
    requires r.rec.Some? && (fromUnsaved ==> p in w0.unsaved) && !Answered(f.answer)
    ensures Within(RefreshRefused(w, w0, p, cfg, r, fromUnsaved, prev, f).w, w, x)
  {
    if f.answer.NotSent? || (fromUnsaved && Bars(prev, cfg)) {
      return;
    }
    match f.answer
    case RefusedToken(code, rid) =>
      StatusWithin(if fromUnsaved then w.(unsaved := w.unsaved - {p}) else w, p,
                   FailedStatus(w0, p, cfg, r, fromUnsaved, prev, (NeedsSignin, code, rid), p in w0.unsaved && !fromUnsaved),
                   f.status, x);
    case RefusedClient(code, rid) =>
      StatusWithin(w, p, FailedStatus(w0, p, cfg, r, fromUnsaved, prev, (ConfigError, code, rid), p in w0.unsaved), f.status, x);
    case Transient(code, rid) =>
      StatusWithin(w, p, FailedStatus(w0, p, cfg, r, fromUnsaved, prev, TransientFields(prev, code, rid), p in w0.unsaved),
                   f.status, x);
    case Granted(_, _, _, _, rid) =>
      StatusWithin(w, p, FailedStatus(w0, p, cfg, r, fromUnsaved, prev, TransientFields(prev, Some(RESPONSE_INCOMPLETE), rid),
                                      p in w0.unsaved), f.status, x);
  }

  lemma LockedCarries(w: World, p: Proc, cfg: nat, r: Reading, fromUnsaved: bool, f: RefreshFaults, x: Record)
    requires r.word == Present && r.rec.Some? && Complete(r.rec.value)
    requires fromUnsaved ==> p in w.unsaved
    requires Carries(RefreshLocked(w, p, cfg, r, fromUnsaved, f).w, x)
    ensures || Carries(w, x) || f.meanwhile == Overwrote(Backend(x))
            || (Answered(f.answer) && x == Merge(r.rec.value, f.answer, f.at))
  {
    if !Barred(w, cfg, fromUnsaved, f.gate) {
      var prev := ReadStatus(w, f.prev);
      var w1 := AfterTrip(w, p, r.rec.value, fromUnsaved, f);
      if f.dies {
        WithinCarries(Die(w1, p, f.tear), w1, x);
      } else if Answered(f.answer) {
        GrantedCarries(w1, p, cfg, r, fromUnsaved, prev, f, x);
      } else {
        RefusedWithin(w1, w, p, cfg, r, fromUnsaved, prev, f, x);
        WithinCarries(RefreshRefused(w1, w, p, cfg, r, fromUnsaved, prev, f).w, w1, x);
      }
      if Carries(w1, x) && f.meanwhile != Overwrote(Backend(x)) {
        WithinCarries(w1, w, x);
      }
    }
  }

  lemma RefreshBrings(w: World, p: Proc, cfg: nat, d: Door, f: RefreshRun, x: Record)
    requires Valid(w) && Carries(RefreshSection(w, p, cfg, d, f).w, x)
    ensures Carries(w, x) || Brings(w, Refresh(p, cfg, d, f), x)
  {
    var s := Settle(w, p, cfg, f.settle);
    SettleMoves(w, p, cfg, f.settle);
    if s.out.Value? {
      var r := ReadRaw(s.w, p, f.measure, f.read);
      ReadRawKnown(s.w, p, f.measure, f.read);
      if RaiseFor(r).None? && Wants(d, r.rec.value) {
        LockedCarries(s.w, p, cfg, r, Served(s.w, p, f.measure), f.refresh, x);
        SettleCarries(w, p, cfg, f.settle, r.rec.value);
      }
    }
    if Carries(s.w, x) {
      SettleCarries(w, p, cfg, f.settle, x);
    }
  }

  lemma {:induction false} TriesCarry(w: World, p: Proc, rec: Record, refreshed: Refreshed, fs: seq<CommitFaults>, x: Record)
    requires Carries(Tries(w, p, rec, refreshed, fs).w, x)
    ensures Carries(w, x) || x == rec
    decreases |fs|
  {
    if fs != [] {
      var c := CommitRecord(w, p, rec, Some(refreshed), fs[0]);
      if c.out == Value(false) {
        TriesCarry(c.w, p, rec, refreshed, fs[1..], x);
      }
      if x != rec {
        CommitCarries(w, p, rec, Some(refreshed), fs[0], x);
      }
    }
  }

  lemma TriedFromCarries(t: Run<bool>, w: World, p: Proc, cfg: nat, rec: Record, refreshed: Refreshed, f: SigninFaults, x: Record)
    requires Carries(TriedFrom(t, w.unsaved, p, cfg, rec, refreshed, f).w, x)
    ensures Carries(t.w, x) || Carries(w, x)
  {
    var c := TriedFrom(t, w.unsaved, p, cfg, rec, refreshed, f);
    if c.out.Raise? {
      if !Holds(t.w.cred, x) && !Holds(t.w.pending, x) {
        var q :| q in c.w.unsaved && c.w.unsaved[q].rec == x;
        assert if q == p then q in w.unsaved && w.unsaved[q].rec == x else q in t.w.unsaved && t.w.unsaved[q].rec == x;
      }
    } else {
      WithinCarries(c.w, t.w, x);
    }
  }

  lemma SigninBrings(w: World, p: Proc, cfg: nat, rec: Record, refreshed: Refreshed, f: SigninFaults, x: Record)
    requires |f.tries| == SIGNIN_COMMIT_TRIES
    requires Carries(CommitSignin(w, p, cfg, rec, refreshed, f).w, x)
    ensures Carries(w, x) || x == rec
  {
    var s := Settle(w, p, cfg, f.settle);
    if s.out.Value? && Unwritable(ReadRaw(s.w, p, f.measure, f.read)).None? {
      var t := Tries(s.w, p, rec, refreshed, f.tries);
      TriedFromCarries(t, s.w, p, cfg, rec, refreshed, f, x);
      if Carries(t.w, x) && x != rec {
        TriesCarry(s.w, p, rec, refreshed, f.tries, x);
      }
    }
    if x != rec {
      SettleCarries(w, p, cfg, f.settle, x);
    }
  }

  lemma UpstreamWithin(w: World, p: Proc, cfg: nat, state: Option<State>, code: Option<nat>, rid: Option<nat>,
                       f: UpstreamFaults, x: Record)
    requires state.Some? ==> Recordable(state.value)
    ensures Within(RecordUpstream(w, p, cfg, state, code, rid, f).w, w, x)
  {
  }

  /** Whatever record a step leaves in the file, the checkpoint or a memory was there before it, or the step brought it. */
  lemma StepBrings(w: World, s: Step, x: Record)
    requires Valid(w) && Legal(s) && Carries(Apply(w, s), x)
    ensures Carries(w, x) || Brings(w, s, x)
  {
    match s
    case Refresh(p, cfg, d, f) => RefreshBrings(w, p, cfg, d, f, x);
    case UpstreamAnswer(p, cfg, state, code, rid, f) =>
      UpstreamWithin(w, p, cfg, state, code, rid, f, x);
      WithinCarries(Apply(w, s), w, x);
    case SettleOnly(p, cfg, f) => SettleCarries(w, p, cfg, f, x);
    case Signin(p, cfg, rec, refreshed, f) => SigninBrings(w, p, cfg, rec, refreshed, f, x);
    case Crash(_, _) => WithinCarries(Apply(w, s), w, x);
    case Foreign(o) =>
      if o != Overwrote(Backend(x)) {
        WithinCarries(Apply(w, s), w, x);
      }
    case Tick(_) => WithinCarries(Apply(w, s), w, x);
  }

  /** No run invents a record: each one the lane ends with, in the file, the checkpoint or a memory, was there at the
      start, was signed in, was written by somebody outside, or is the endpoint's answer merged over a whole record the
      lane carried. */
  lemma {:induction false} RecordsComeFrom(w: World, steps: seq<Step>, x: Record)
    requires Valid(w) && (forall s <- steps :: Legal(s)) && Carries(Exec(w, steps), x)
    ensures Comes(w, steps, x)
    decreases |steps|
  {
    if steps != [] {
      assert steps[0] in steps;
      StepMoves(w, steps[0]);
      RecordsComeFrom(Apply(w, steps[0]), steps[1..], x);
      if Carries(Apply(w, steps[0]), x) {
        StepBrings(w, steps[0], x);
      }
    }
  }
}
