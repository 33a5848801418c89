/** What each locked function may change, case by case: the facts the theorems about whole runs rest on. */
module AuthFacts {
  import opened Wrappers
  import opened Credential
  import opened AuthSteps

  /** A node whose mtime and inode the world already knows. */
  predicate Known(n: Node, w: World) {
    n.Missing? || (n.id.ino < w.next && n.id.mtime <= w.clock)
  }

  /** An identity measured at the credential path: one already given out, and never the checkpoint's. */
  predicate KnownCond(c: Cond, w: World) {
    c.Measured? ==> c.id.ino < w.next && (w.pending.Missing? || w.pending.id != c.id)
  }

  /** What holds of every lane: identities are ones already given out, no two files share one, and a record held in
      memory carries both tokens. */
  ghost predicate Valid(w: World) {
    && Known(w.cred, w)
    && Known(w.pending, w)
    && (!w.cred.Missing? && !w.pending.Missing? ==> w.cred.id.ino != w.pending.id.ino)
    && (w.status.Some? ==> KnownCond(w.status.value.bound, w))
    && (forall p <- w.unsaved :: KnownCond(w.unsaved[p].bound, w) && Complete(w.unsaved[p].rec))
  }

  /** A file a write may go over: none, `{}`, or a backend record. */
  predicate Writable(n: Node) {
    n.Missing? || (n.File? && (n.content.Backend? || n.content.EmptyObject?))
  }

  /** The file holds one whole record. */
  predicate Holds(n: Node, rec: Record) {
    n.File? && n.content == Backend(rec)
  }

  /** The file holds a record with these two tokens. */
  predicate SameTokens(n: Node, rec: Record) {
    n.File? && n.content.Backend? && n.content.rec.access == rec.access && n.content.rec.refresh == rec.refresh
  }

  /** `b` is `a` to every process but `p`. */
  ghost predicate OthersKept(a: map<Proc, Entry>, b: map<Proc, Entry>, p: Proc) {
    forall q | q != p :: (q in b <==> q in a) && (q in a ==> b[q] == a[q])
  }

  /** The checkpoint as it stood, or torn by a death before its fsync. */
  predicate SameOrTorn(a: Node, b: Node) {
    b == a || (a.File? && !a.synced && b == a.(content := Torn))
  }

  /** The file a commit of `rec` puts in place. */
  function Fresh(w: World, rec: Record): Node {
    File(Backend(rec), Identity(w.next, w.clock), true)
  }

  ghost predicate CheckpointFacts(w: World, p: Proc, rec: Record, w1: World, progress: Progress) {
    && w1.cred == w.cred && w1.status == w.status && w1.clock == w.clock && w1.asks == w.asks
    && w.next <= w1.next <= w.next + 1
    && (SameOrTorn(w.pending, w1.pending) || w1.pending.Missing? ||
        (w1.pending.File? && w1.pending.id == Identity(w.next, w.clock) && w1.next == w.next + 1))
    && (progress.Wrote? ==> w1.next == w.next + 1 && w1.pending == Fresh(w, rec))
    && w1.unsaved == if progress.Gone? then w.unsaved - {p} else w.unsaved
  }

  lemma CheckpointShape(w: World, p: Proc, rec: Record, f: CommitFaults)
    ensures
      var (w1, progress) := WriteCheckpoint(w, p, rec, f);
      CheckpointFacts(w, p, rec, w1, progress)
  {
  }

  /** Everything a commit can do: nothing, a checkpoint left beside the file, or the record renamed over it. */
  ghost predicate CommitFacts(w: World, p: Proc, e: Entry, f: CommitFaults, c: Run<bool>) {
    && c.w.status == w.status && c.w.clock == w.clock && c.w.asks == w.asks
    && w.next <= c.w.next <= w.next + 1
    && OthersKept(w.unsaved, c.w.unsaved, p)
    && (c.w.cred == w.cred || (c.w.cred == Fresh(w, e.rec) && c.w.next == w.next + 1 && c.w.pending.Missing?))
    && (SameOrTorn(w.pending, c.w.pending) || c.w.pending.Missing? ||
        (c.w.pending.File? && c.w.pending.id == Identity(w.next, w.clock) && c.w.next == w.next + 1))
    && (c.out.Died? ==> p !in c.w.unsaved)
    && (c.out.Value? && c.out.v ==> c.w.cred == Fresh(w, e.rec) && p !in c.w.unsaved)
    && (c.out.Value? && !c.out.v ==>
          && p in c.w.unsaved
          && (c.w.cred == w.cred ==> c.w.unsaved[p] == e)
          && (c.w.cred != w.cred ==> c.w.unsaved[p] == e.(bound := CurrentIdentity(c.w, f.measure))))
    && !c.out.Raise?
  }

  lemma ConcludeShape(w: World, w1: World, progress: Progress, p: Proc, e: Entry, f: CommitFaults)
    requires CheckpointFacts(w, p, e.rec, w1, progress)
    requires Known(w.cred, w)
    ensures CommitFacts(w, p, e, f, Conclude(w1, progress, p, e, f))
  {
  }

  lemma CommitShape(w: World, p: Proc, rec: Record, refreshed: Option<Refreshed>, f: CommitFaults)
    requires Known(w.cred, w)
    ensures
      var c := CommitRecord(w, p, rec, refreshed, f);
      var current := ReadFile(w, f.read);
      if Unwritable(current).Some? then c == Run(w, Raise(Unwritable(current).value))
      else CommitFacts(w, p, Entry(rec, current.ident, refreshed), f, c)
  {
    var current := ReadFile(w, f.read);
    var (w1, progress) := WriteCheckpoint(w, p, rec, f);
    CheckpointShape(w, p, rec, f);
    ConcludeShape(w, w1, progress, p, Entry(rec, current.ident, refreshed), f);
  }

  /** The file holds one whole record. */
  predicate Whole(n: Node) {
    n.File? && n.content.Backend? && Complete(n.content.rec)
  }

  /** A node no file was before, or the checkpoint's. */
  predicate FreshOrCheckpoint(n: Node, w: World) {
    !n.Missing? && (n.id.ino >= w.next || (!w.pending.Missing? && n.id == w.pending.id))
  }

  /** A file is never followed by an older one, nor by none. */
  predicate NoOlder(a: Node, b: Node) {
    a.Missing? || (!b.Missing? && a.id.mtime <= b.id.mtime)
  }

  /** What any step of process `p` may do to a lane; `free` when a writer outside the library had a turn in it. */
  ghost predicate Moves(w: World, w1: World, p: Proc, free: bool) {
    && Valid(w1)
    && w.next <= w1.next && w.clock <= w1.clock && w.asks <= w1.asks
    && OthersKept(w.unsaved, w1.unsaved, p)
    && (free || w1.cred == w.cred || (Writable(w.cred) && Whole(w1.cred)))
    && (free || NoOlder(w.cred, w1.cred))
    && (w1.cred == w.cred || w1.cred.Missing? || FreshOrCheckpoint(w1.cred, w))
    && (w1.pending.Missing? || FreshOrCheckpoint(w1.pending, w))
  }

  lemma MovesTransitive(w: World, w1: World, w2: World, p: Proc, free: bool, free': bool)
    requires Moves(w, w1, p, free) && Moves(w1, w2, p, free')
    ensures Moves(w, w2, p, free || free')
  {
  }

  lemma MovesSame(w: World, p: Proc)
    requires Valid(w)
    ensures Moves(w, w, p, false)
  {
  }

  lemma DieMoves(w: World, p: Proc, tear: bool)
    requires Valid(w)
    ensures Moves(w, Die(w, p, tear), p, false)
  {
  }

  lemma ForgetMoves(w: World, p: Proc)
    requires Valid(w)
    ensures Moves(w, w.(unsaved := w.unsaved - {p}), p, false)
  {
  }

  lemma KeepMoves(w: World, p: Proc, e: Entry)
    requires Valid(w) && Complete(e.rec) && KnownCond(e.bound, w)
    ensures Moves(w, w.(unsaved := w.unsaved[p := e]), p, false)
  {
  }

  lemma StatusMoves(w: World, p: Proc, s: Status, f: Fate)
    requires Valid(w) && KnownCond(s.bound, w)
    ensures
      var c := WriteStatus(w, p, s, f);
      && Moves(w, c.w, p, false)
      && c.w.cred == w.cred && c.w.asks == w.asks
      && (!c.out.Died? ==> c.w.unsaved == w.unsaved && c.w.pending == w.pending)
  {
    if f.Dies? {
      DieMoves(w, p, f.tear);
    }
  }

  lemma OutsideMoves(w: World, p: Proc, o: Outside)
    requires Valid(w)
    ensures Moves(w, ApplyOutside(w, o), p, !o.Untouched?)
  {
  }

  lemma CommitFactsMove(w: World, p: Proc, e: Entry, f: CommitFaults, c: Run<bool>)
    requires Valid(w) && Complete(e.rec) && KnownCond(e.bound, w)
    requires CommitFacts(w, p, e, f, c)
    requires c.w.cred != w.cred ==> Writable(w.cred)
    ensures Moves(w, c.w, p, false)
  {
    assert Known(c.w.cred, c.w) && Known(c.w.pending, c.w);
    forall q | q in c.w.unsaved
      ensures KnownCond(c.w.unsaved[q].bound, c.w) && Complete(c.w.unsaved[q].rec)
    {
      if q != p {
        assert q in w.unsaved && c.w.unsaved[q] == w.unsaved[q];
      } else {
        assert c.out.Value? && !c.out.v;
      }
    }
  }

  /** A commit whose re-read let it go on writes over a writable file. */
  lemma Proceeds(w: World, f: ReadFate)
    requires Unwritable(ReadFile(w, f)).None?
    ensures Writable(w.cred) && ReadFile(w, f).ident == CondOf(w.cred)
  {
  }

  lemma CommitMoves(w: World, p: Proc, rec: Record, refreshed: Option<Refreshed>, f: CommitFaults)
    requires Valid(w) && Complete(rec)
    ensures Moves(w, CommitRecord(w, p, rec, refreshed, f).w, p, false)
  {
    CommitShape(w, p, rec, refreshed, f);
    var current := ReadFile(w, f.read);
    if Unwritable(current).None? {
      Proceeds(w, f.read);
      CommitFactsMove(w, p, Entry(rec, current.ident, refreshed), f, CommitRecord(w, p, rec, refreshed, f));
    }
  }

  /** What settling a checkpoint can do. */
  ghost predicate RecoverFacts(w: World, p: Proc, c: Run<Settled>) {
    && c.w.status == w.status && c.w.clock == w.clock && c.w.asks == w.asks && c.w.next == w.next
    && c.w.unsaved == (if c.out.Died? then w.unsaved - {p} else w.unsaved)
    && (c.w.cred == w.cred ||
        (Writable(w.cred) && Candidate(w.pending) && NoOlder(w.cred, w.pending) &&
         c.w.cred == w.pending.(synced := true) && c.w.pending.Missing?))
    && (c.w.pending.Missing? || (w.pending.File? && c.w.pending == w.pending.(synced := true)) ||
        SameOrTorn(w.pending, c.w.pending))
    && (c.out.Value? ==> c.w.pending.Missing?)
  }

  lemma RecoverShape(w: World, p: Proc, f: RecoverFaults)
    ensures RecoverFacts(w, p, RecoverPending(w, p, f))
  {
  }

  /** A checkpoint is promoted: it is whole, no older than the file, which can be written over, and what has to
      succeed does. */
  predicate Promotes(w: World, f: RecoverFaults) {
    && Candidate(w.pending) && (w.cred.Missing? || w.pending.id.mtime >= w.cred.id.mtime)
    && f.lstat && f.open.Fine? && f.sync.Fine? && Unwritable(ReadFile(w, f.read)).None? && f.rename.Fine?
  }

  /** The settling of a checkpoint replaces the file, with the checkpoint, exactly when it promotes it. */
  lemma PromotedIff(w: World, p: Proc, f: RecoverFaults)
    requires Valid(w)
    ensures RecoverPending(w, p, f).w.cred == if Promotes(w, f) then w.pending.(synced := true) else w.cred
  {
  }

  lemma RecoverFactsMove(w: World, p: Proc, c: Run<Settled>)
    requires Valid(w) && RecoverFacts(w, p, c)
    ensures Moves(w, c.w, p, false)
  {
  }

  lemma RetryFromMoves(w: World, c: Run<bool>, p: Proc, cfg: nat, e: Entry, prev: Option<Status>, f: RetryFaults)
    requires Moves(w, c.w, p, false)
    ensures Moves(w, RetryFrom(c, p, cfg, e, prev, f).w, p, false)
  {
    if c.out.Value? && c.out.v {
      var s := RetriedStatus(e, prev, cfg, CurrentIdentity(c.w, f.remeasure));
      StatusMoves(c.w, p, s, f.status);
      MovesTransitive(w, c.w, WriteStatus(c.w, p, s, f.status).w, p, false, false);
    }
  }

  lemma RetryMoves(w: World, p: Proc, cfg: nat, f: RetryFaults)
    requires Valid(w)
    ensures Moves(w, RetryUnsaved(w, p, cfg, f).w, p, false)
  {
    if p !in w.unsaved {
      MovesSame(w, p);
    } else {
      var e := w.unsaved[p];
      if CurrentIdentity(w, f.measure) != e.bound {
        ForgetMoves(w, p);
      } else {
        CommitMoves(w, p, e.rec, e.refreshed, f.commit);
        RetryFromMoves(w, CommitRecord(w, p, e.rec, e.refreshed, f.commit), p, cfg, e, ReadStatus(w, f.prev), f);
      }
    }
  }

  lemma SettleMoves(w: World, p: Proc, cfg: nat, f: SettleFaults)
    requires Valid(w)
    ensures Moves(w, Settle(w, p, cfg, f).w, p, false)
  {
    var a := RecoverPending(w, p, f.recover);
    RecoverShape(w, p, f.recover);
    RecoverFactsMove(w, p, a);
    if a.out.Value? {
      RetryMoves(a.w, p, cfg, f.retry);
      MovesTransitive(w, a.w, RetryUnsaved(a.w, p, cfg, f.retry).w, p, false, false);
    }
  }

  /** A present reading's identity is one the lane knows. */
  lemma ReadRawKnown(w: World, p: Proc, ok: bool, f: ReadFate)
    requires Valid(w)
    ensures
      var r := ReadRaw(w, p, ok, f);
      && KnownCond(r.ident, w)
      && (r.word == Present ==> r.rec.Some? && Complete(r.rec.value))
      && (r.word == Present && !Served(w, p, ok) ==> Holds(w.cred, r.rec.value) && r.ident == CondOf(w.cred))
  {
  }

  lemma TripMoves(w: World, p: Proc, r: Record, fromUnsaved: bool, f: RefreshFaults)
    requires Valid(w) && Complete(r)
    ensures Moves(w, AfterTrip(w, p, r, fromUnsaved, f), p, !f.meanwhile.Untouched?)
  {
    OutsideMoves(w, p, f.meanwhile);
  }

  /** An arm that commits nothing: it may forget the process's record, then it writes the status or not. */
  ghost predicate RefusedFacts(w: World, p: Proc, c: Run<Reading>, standing: bool, forgets: bool) {
    && Moves(w, c.w, p, false)
    && c.w.cred == w.cred && c.w.asks == w.asks
    && (standing ==> c.w.status == w.status)
    && (!c.out.Died? && !forgets ==> c.w.unsaved == w.unsaved && c.w.pending == w.pending)
    && !c.out.Value?
  }

  lemma StatusRaises(w: World, w1: World, p: Proc, s: Status, f: Fate, x: Refusal, forgets: bool)
    requires Moves(w, w1, p, false) && KnownCond(s.bound, w1)
    requires w1.cred == w.cred && w1.asks == w.asks && (!forgets ==> w1.unsaved == w.unsaved && w1.pending == w.pending)
    ensures
      var c := WriteStatus(w1, p, s, f);
      RefusedFacts(w, p, if c.out.Died? then Run(c.w, Died) else Run(c.w, Raise(x)), false, forgets)
  {
    StatusMoves(w1, p, s, f);
    MovesTransitive(w, w1, WriteStatus(w1, p, s, f).w, p, false, false);
  }

  lemma RefusedShape(w: World, w0: World, p: Proc, cfg: nat, r: Reading, fromUnsaved: bool, prev: Option<Status>, f: RefreshFaults)
    requires r.rec.Some? && (fromUnsaved ==> p in w0.unsaved) && !Answered(f.answer)
    requires Valid(w) && KnownCond(r.ident, w)
    ensures RefusedFacts(w, p, RefreshRefused(w, w0, p, cfg, r, fromUnsaved, prev, f),
                         fromUnsaved && Bars(prev, cfg), fromUnsaved && f.answer.RefusedToken?)
  {
    MovesSame(w, p);
    ForgetMoves(w, p);
    if f.answer.NotSent? || (fromUnsaved && Bars(prev, cfg)) {
      return;
    }
    match f.answer
    case RefusedToken(code, rid) =>
      StatusRaises(w, if fromUnsaved then w.(unsaved := w.unsaved - {p}) else w, p,
                   FailedStatus(w0, p, cfg, r, fromUnsaved, prev, (NeedsSignin, code, rid), p in w0.unsaved && !fromUnsaved),
                   f.status, NeedsSigninRefusal, fromUnsaved);
    case RefusedClient(code, rid) =>
      StatusRaises(w, w, p, FailedStatus(w0, p, cfg, r, fromUnsaved, prev, (ConfigError, code, rid), p in w0.unsaved),
                   f.status, ConfigErrorRefusal, false);
    case Transient(code, rid) =>
      StatusRaises(w, w, p, FailedStatus(w0, p, cfg, r, fromUnsaved, prev, TransientFields(prev, code, rid), p in w0.unsaved),
                   f.status, RefreshFailed, false);
    case Granted(_, _, _, _, rid) =>
      StatusRaises(w, w, p, FailedStatus(w0, p, cfg, r, fromUnsaved, prev, TransientFields(prev, Some(RESPONSE_INCOMPLETE), rid),
                                         p in w0.unsaved), f.status, RefreshFailed, false);
  }

  /** The status a granted refresh writes. */
  function GrantedStatus(c: Run<bool>, p: Proc, cfg: nat, r: Reading, rec: Record, prev: Option<Status>,
                         refreshed: Refreshed, f: RefreshFaults): Status
    requires c.out.Value?
  {
    var bound := if c.out.v then CurrentIdentity(c.w, f.measure)
                 else if p in c.w.unsaved then c.w.unsaved[p].bound else r.ident;
    var (state, code, rid) := RefreshedFields(prev, refreshed.rid);
    Status(state, code, rid, rec.expiresAt, Some(refreshed.at), bound, !c.out.v, cfg)
  }

  lemma GrantedFromShape(w: World, c: Run<bool>, p: Proc, cfg: nat, r: Reading, rec: Record, standing: bool,
                         prev: Option<Status>, refreshed: Refreshed, f: RefreshFaults)
    requires Moves(w, c.w, p, false) && KnownCond(r.ident, c.w) && Complete(rec)
    ensures
      var g := GrantedFrom(c, p, cfg, r, rec, standing, prev, refreshed, f);
      && Moves(w, g.w, p, false)
      && g.w.cred == c.w.cred && g.w.asks == c.w.asks
      && (!(c.out.Value? && (c.out.v || !standing)) ==> g.w.status == c.w.status)
  {
    match c.out
    case Died =>
    case Raise(_) =>
      KeepMoves(c.w, p, Entry(rec, r.ident, Some(refreshed)));
      MovesTransitive(w, c.w, c.w.(unsaved := c.w.unsaved[p := Entry(rec, r.ident, Some(refreshed))]), p, false, false);
    case Value(saved) =>
      var st := GrantedStatus(c, p, cfg, r, rec, prev, refreshed, f);
      StatusMoves(c.w, p, st, f.status);
      MovesTransitive(w, c.w, WriteStatus(c.w, p, st, f.status).w, p, false, false);
  }

  lemma GrantedShape(w: World, p: Proc, cfg: nat, r: Reading, fromUnsaved: bool, prev: Option<Status>, f: RefreshFaults)
    requires r.rec.Some? && Complete(r.rec.value) && Answered(f.answer)
    requires Valid(w) && KnownCond(r.ident, w)
    ensures
      var g := RefreshGranted(w, p, cfg, r, fromUnsaved, prev, f);
      && Moves(w, g.w, p, false)
      && g.w.asks == w.asks
      && (fromUnsaved && Bars(prev, cfg) && g.w.cred == w.cred ==> g.w.status == w.status)
  {
    var rec := Merge(r.rec.value, f.answer, f.at);
    var refreshed := Refreshed(f.at, f.answer.rid);
    CommitMoves(w, p, rec, Some(refreshed), f.commit);
    CommitShape(w, p, rec, Some(refreshed), f.commit);
    GrantedFromShape(w, CommitRecord(w, p, rec, Some(refreshed), f.commit), p, cfg, r, rec,
                     fromUnsaved && Bars(prev, cfg), prev, refreshed, f);
  }

  lemma RefreshLockedMoves(w: World, p: Proc, cfg: nat, r: Reading, fromUnsaved: bool, f: RefreshFaults)
    requires r.word == Present && r.rec.Some? && Complete(r.rec.value)
    requires fromUnsaved ==> p in w.unsaved
    requires Valid(w) && KnownCond(r.ident, w)
    ensures Moves(w, RefreshLocked(w, p, cfg, r, fromUnsaved, f).w, p, !f.meanwhile.Untouched?)
  {
    MovesSame(w, p);
    var prev := ReadStatus(w, f.prev);
    var w1 := AfterTrip(w, p, r.rec.value, fromUnsaved, f);
    var free := !f.meanwhile.Untouched?;
    TripMoves(w, p, r.rec.value, fromUnsaved, f);
    if f.dies {
      DieMoves(w1, p, f.tear);
      MovesTransitive(w, w1, Die(w1, p, f.tear), p, free, false);
    } else if Answered(f.answer) {
      GrantedShape(w1, p, cfg, r, fromUnsaved, prev, f);
      MovesTransitive(w, w1, RefreshGranted(w1, p, cfg, r, fromUnsaved, prev, f).w, p, free, false);
    } else {
      RefusedShape(w1, w, p, cfg, r, fromUnsaved, prev, f);
      MovesTransitive(w, w1, RefreshRefused(w1, w, p, cfg, r, fromUnsaved, prev, f).w, p, free, false);
    }
  }

  lemma AfterSettleMoves(w: World, p: Proc, cfg: nat, d: Door, f: RefreshRun)
    requires Valid(w)
    ensures Moves(w, AfterSettle(w, p, cfg, d, f).w, p, !f.refresh.meanwhile.Untouched?)
  {
    var r := ReadRaw(w, p, f.measure, f.read);
    ReadRawKnown(w, p, f.measure, f.read);
    MovesSame(w, p);
    if RaiseFor(r).None? && Wants(d, r.rec.value) {
      RefreshLockedMoves(w, p, cfg, r, Served(w, p, f.measure), f.refresh);
    }
  }

  lemma RefreshSectionMoves(w: World, p: Proc, cfg: nat, d: Door, f: RefreshRun)
    requires Valid(w)
    ensures Moves(w, RefreshSection(w, p, cfg, d, f).w, p, !f.refresh.meanwhile.Untouched?)
  {
    var s := Settle(w, p, cfg, f.settle);
    SettleMoves(w, p, cfg, f.settle);
    if s.out.Value? {
      AfterSettleMoves(s.w, p, cfg, d, f);
      MovesTransitive(w, s.w, AfterSettle(s.w, p, cfg, d, f).w, p, false, !f.refresh.meanwhile.Untouched?);
    }
  }

  lemma RecordUpstreamMoves(w: World, p: Proc, cfg: nat, state: Option<State>, code: Option<nat>, rid: Option<nat>, f: UpstreamFaults)
    requires state.Some? ==> Recordable(state.value)
    requires Valid(w)
    ensures
      var c := RecordUpstream(w, p, cfg, state, code, rid, f);
      Moves(w, c.w, p, false) && c.w.cred == w.cred && c.w.asks == w.asks
  {
    MovesSame(w, p);
    var r := ReadRaw(w, p, f.measure, f.read);
    ReadRawKnown(w, p, f.measure, f.read);
    if r.word == Present {
      var prev := ReadStatus(w, f.prev);
      var current := if prev.Some? then prev.value.state else StateOk;
      var next := if state.Some? then state.value else current;
      var kept := if prev.Some? then prev.value.(state := next, code := code, rid := rid, cfg := cfg)
                  else Status(next, code, rid, ExpiresAt(r.rec.value), None, r.ident, Served(w, p, f.measure), cfg);
      StatusMoves(w, p, kept, f.status);
    }
  }

  lemma {:induction false} TriesMoves(w: World, p: Proc, rec: Record, refreshed: Refreshed, fs: seq<CommitFaults>)
    requires Valid(w) && Complete(rec)
    ensures Moves(w, Tries(w, p, rec, refreshed, fs).w, p, false)
    decreases |fs|
  {
    MovesSame(w, p);
    if fs != [] {
      var c := CommitRecord(w, p, rec, Some(refreshed), fs[0]);
      CommitMoves(w, p, rec, Some(refreshed), fs[0]);
      if c.out == Value(false) {
        TriesMoves(c.w, p, rec, refreshed, fs[1..]);
        MovesTransitive(w, c.w, Tries(c.w, p, rec, refreshed, fs[1..]).w, p, false, false);
      }
    }
  }

  lemma PutBackMoves(w: World, w1: World, p: Proc)
    requires Valid(w) && Moves(w, w1, p, false)
    ensures Moves(w, PutBack(w1, p, w.unsaved), p, false)
  {
    if p in w.unsaved {
      KeepMoves(w1, p, w.unsaved[p]);
    } else {
      ForgetMoves(w1, p);
    }
    MovesTransitive(w, w1, PutBack(w1, p, w.unsaved), p, false, false);
  }

  lemma TriedFromMoves(w: World, t: Run<bool>, p: Proc, cfg: nat, rec: Record, refreshed: Refreshed, f: SigninFaults)
    requires Valid(w) && Moves(w, t.w, p, false)
    ensures Moves(w, TriedFrom(t, w.unsaved, p, cfg, rec, refreshed, f).w, p, false)
  {
    PutBackMoves(w, t.w, p);
    ForgetMoves(t.w, p);
    var w1 := t.w.(unsaved := t.w.unsaved - {p});
    MovesTransitive(w, t.w, w1, p, false, false);
    var st := Status(StateOk, None, refreshed.rid, rec.expiresAt, Some(refreshed.at), CurrentIdentity(w1, f.remeasure), false, cfg);
    StatusMoves(w1, p, st, f.status);
    MovesTransitive(w, w1, WriteStatus(w1, p, st, f.status).w, p, false, false);
  }

  lemma SigninTriesMoves(w: World, p: Proc, cfg: nat, rec: Record, refreshed: Refreshed, f: SigninFaults)
    requires Valid(w) && Complete(rec)
    ensures Moves(w, SigninTries(w, p, cfg, rec, refreshed, f).w, p, false)
  {
    MovesSame(w, p);
    TriesMoves(w, p, rec, refreshed, f.tries);
    TriedFromMoves(w, Tries(w, p, rec, refreshed, f.tries), p, cfg, rec, refreshed, f);
  }

  lemma CommitSigninMoves(w: World, p: Proc, cfg: nat, rec: Record, refreshed: Refreshed, f: SigninFaults)
    requires Valid(w) && Complete(rec) && |f.tries| == SIGNIN_COMMIT_TRIES
    ensures Moves(w, CommitSignin(w, p, cfg, rec, refreshed, f).w, p, false)
  {
    var s := Settle(w, p, cfg, f.settle);
    SettleMoves(w, p, cfg, f.settle);
    if s.out.Value? {
      SigninTriesMoves(s.w, p, cfg, rec, refreshed, f);
      MovesTransitive(w, s.w, SigninTries(s.w, p, cfg, rec, refreshed, f).w, p, false, false);
    }
  }

  /** A writer that ignores the lock has a turn in this step. */
  predicate Free(s: Step) {
    match s
    case Refresh(_, _, _, f) => !f.refresh.meanwhile.Untouched?
    case Foreign(o) => !o.Untouched?
    case _ => false
  }

  /** The process a step belongs to; a writer outside and the clock are nobody's. */
  function Actor(s: Step): Proc {
    match s
    case Foreign(_) => 0
    case Tick(_) => 0
    case _ => s.p
  }

  lemma StepMoves(w: World, s: Step)
    requires Valid(w) && Legal(s)
    ensures Moves(w, Apply(w, s), Actor(s), Free(s))
  {
    match s
    case Refresh(p, cfg, d, f) => RefreshSectionMoves(w, p, cfg, d, f);
    case UpstreamAnswer(p, cfg, state, code, rid, f) => RecordUpstreamMoves(w, p, cfg, state, code, rid, f);
    case SettleOnly(p, cfg, f) => SettleMoves(w, p, cfg, f);
    case Signin(p, cfg, rec, refreshed, f) => CommitSigninMoves(w, p, cfg, rec, refreshed, f);
    case Crash(p, tear) => DieMoves(w, p, tear);
    case Foreign(o) => OutsideMoves(w, 0, o);
    case Tick(_) =>
  }
}
