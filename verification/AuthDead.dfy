/** A dead credential stays dead: no run asks the endpoint about it again, or says otherwise of it. */
module AuthDead {
  import opened Wrappers
  import opened Credential
  import opened AuthSteps
  import opened AuthFacts
  import opened AuthRuns

  /** The status says needs-signin of the very file in place. */
  predicate Dead(w: World) {
    w.cred.File? && Current(w) && w.status.value.state == NeedsSignin
  }

  /** Every request made since was made from a record in memory. */
  ghost predicate NoneFromFile(before: seq<Ask>, after: seq<Ask>) {
    && before <= after
    && forall i | |before| <= i < |after| :: !after[i].fromFile
  }

  /** The status file reads when the section asks for it. */
  predicate StatusReads(s: Step) {
    match s
    case Refresh(_, _, _, f) => f.refresh.gate && f.refresh.prev
    case UpstreamAnswer(_, _, _, _, _, f) => f.prev
    case _ => true
  }

  /** The step is no sign-in that carries the two tokens the file already holds. */
  predicate NewSignin(n: Node, s: Step) {
    s.Signin? ==> !SameTokens(n, s.rec)
  }

  /** Either the file has changed for good, or it, its status and the requests made from it are as they were. */
  ghost predicate StillDead(w: World, w1: World)
    requires w.cred.File?
  {
    || Retired(w1, w.cred.id)
    || (w1.cred == w.cred && w1.status == w.status && NoneFromFile(w.asks, w1.asks))
  }

  /** A step that moves the file, or leaves the status and the requests alone. */
  lemma StillDeadBy(w: World, w1: World, p: Proc, free: bool)
    requires Valid(w) && w.cred.File? && Moves(w, w1, p, free)
    requires w1.cred == w.cred ==> w1.status == w.status && NoneFromFile(w.asks, w1.asks)
    ensures StillDead(w, w1)
  {
    if w1.cred != w.cred {
      ChangedIsRetired(w, w1, p, free);
    }
  }

  lemma StillDeadTransitive(w: World, w1: World, w2: World, p: Proc, free: bool)
    requires w.cred.File? && StillDead(w, w1) && Moves(w1, w2, p, free)
    requires w1.cred == w.cred && w1.status == w.status ==> StillDead(w1, w2)
    ensures StillDead(w, w2)
  {
    if Retired(w1, w.cred.id) {
      RetiredStays(w1, w2, p, free, w.cred.id);
    }
  }

  /** A commit leaves the status alone and asks nothing; a retry writes the status only once the file has changed. */
  lemma RetryStillDead(w: World, p: Proc, cfg: nat, f: RetryFaults)
    requires Valid(w) && w.cred.File?
    ensures StillDead(w, RetryUnsaved(w, p, cfg, f).w)
  {
    RetryMoves(w, p, cfg, f);
    if p in w.unsaved && CurrentIdentity(w, f.measure) == w.unsaved[p].bound {
      var e := w.unsaved[p];
      CommitShape(w, p, e.rec, e.refreshed, f.commit);
    }
    StillDeadBy(w, RetryUnsaved(w, p, cfg, f).w, p, false);
  }

  lemma SettleStillDead(w: World, p: Proc, cfg: nat, f: SettleFaults)
    requires Valid(w) && w.cred.File?
    ensures StillDead(w, Settle(w, p, cfg, f).w)
  {
    var a := RecoverPending(w, p, f.recover);
    RecoverShape(w, p, f.recover);
    RecoverFactsMove(w, p, a);
    StillDeadBy(w, a.w, p, false);
    if a.out.Value? {
      RetryMoves(a.w, p, cfg, f.retry);
      if a.w.cred == w.cred {
        RetryStillDead(a.w, p, cfg, f.retry);
      }
      StillDeadTransitive(w, a.w, RetryUnsaved(a.w, p, cfg, f.retry).w, p, false);
    }
  }

  /** A refresh over a dead file is barred at its gate, unless it is a record in memory that it refreshes: then the
      endpoint's answer writes no status over the file's unless a commit has replaced the file. */
  lemma RefreshLockedStillDead(w: World, p: Proc, cfg: nat, r: Reading, fromUnsaved: bool, f: RefreshFaults)
    requires r.word == Present && r.rec.Some? && Complete(r.rec.value)
    requires fromUnsaved ==> p in w.unsaved
    requires Valid(w) && KnownCond(r.ident, w)
    requires Dead(w) && f.gate && f.prev
    ensures StillDead(w, RefreshLocked(w, p, cfg, r, fromUnsaved, f).w)
  {
    var free := !f.meanwhile.Untouched?;
    RefreshLockedMoves(w, p, cfg, r, fromUnsaved, f);
    if fromUnsaved {
      var prev := ReadStatus(w, f.prev);
      var w1 := AfterTrip(w, p, r.rec.value, fromUnsaved, f);
      TripMoves(w, p, r.rec.value, fromUnsaved, f);
      StillDeadBy(w, w1, p, free);
      if f.dies {
      } else if Answered(f.answer) {
        GrantedShape(w1, p, cfg, r, fromUnsaved, prev, f);
        StillDeadTransitive(w, w1, RefreshGranted(w1, p, cfg, r, fromUnsaved, prev, f).w, p, false) by {
          if w1.cred == w.cred {
            StillDeadBy(w1, RefreshGranted(w1, p, cfg, r, fromUnsaved, prev, f).w, p, false);
          }
        }
      } else {
        RefusedShape(w1, w, p, cfg, r, fromUnsaved, prev, f);
        StillDeadTransitive(w, w1, RefreshRefused(w1, w, p, cfg, r, fromUnsaved, prev, f).w, p, false) by {
          if w1.cred == w.cred {
            StillDeadBy(w1, RefreshRefused(w1, w, p, cfg, r, fromUnsaved, prev, f).w, p, false);
          }
        }
      }
    }
  }

  lemma RefreshStillDead(w: World, p: Proc, cfg: nat, d: Door, f: RefreshRun)
    requires Valid(w) && Dead(w) && f.refresh.gate && f.refresh.prev
    ensures StillDead(w, RefreshSection(w, p, cfg, d, f).w)
  {
    var s := Settle(w, p, cfg, f.settle);
    SettleMoves(w, p, cfg, f.settle);
    SettleStillDead(w, p, cfg, f.settle);
    if s.out.Value? {
      var free := !f.refresh.meanwhile.Untouched?;
      AfterSettleMoves(s.w, p, cfg, d, f);
      if s.w.cred == w.cred && s.w.status == w.status {
        AfterSettleStillDead(s.w, p, cfg, d, f);
      }
      StillDeadTransitive(w, s.w, AfterSettle(s.w, p, cfg, d, f).w, p, free);
    }
  }

  lemma AfterSettleStillDead(w: World, p: Proc, cfg: nat, d: Door, f: RefreshRun)
    requires Valid(w) && Dead(w) && f.refresh.gate && f.refresh.prev
    ensures StillDead(w, AfterSettle(w, p, cfg, d, f).w)
  {
    var r := ReadRaw(w, p, f.measure, f.read);
    ReadRawKnown(w, p, f.measure, f.read);
    if RaiseFor(r).None? && Wants(d, r.rec.value) {
      RefreshLockedStillDead(w, p, cfg, r, Served(w, p, f.measure), f.refresh);
    }
  }

  /** The tries leave the status and the requests alone; if none replaced the file, it still holds other tokens. */
  lemma {:induction false} TriesShape(w: World, p: Proc, rec: Record, refreshed: Refreshed, fs: seq<CommitFaults>)
    requires Valid(w) && Complete(rec)
    ensures
      var t := Tries(w, p, rec, refreshed, fs);
      && t.w.status == w.status && t.w.asks == w.asks
      && (t.out.Value? && t.out.v ==> Holds(t.w.cred, rec) && t.w.cred != w.cred)
      && (t.w.cred == w.cred || Holds(t.w.cred, rec))
    decreases |fs|
  {
    if fs != [] {
      var c := CommitRecord(w, p, rec, Some(refreshed), fs[0]);
      CommitMoves(w, p, rec, Some(refreshed), fs[0]);
      CommitShape(w, p, rec, Some(refreshed), fs[0]);
      if c.out == Value(false) {
        TriesShape(c.w, p, rec, refreshed, fs[1..]);
        TriesMoves(c.w, p, rec, refreshed, fs[1..]);
        if c.w.cred != w.cred && !w.cred.Missing? {
          ChangedIsRetired(w, c.w, p, false);
          RetiredStays(c.w, Tries(c.w, p, rec, refreshed, fs[1..]).w, p, false, w.cred.id);
        }
      }
    }
  }

  lemma SigninTriesStillDead(w: World, p: Proc, cfg: nat, rec: Record, refreshed: Refreshed, f: SigninFaults)
    requires Valid(w) && Dead(w) && Complete(rec) && !SameTokens(w.cred, rec)
    ensures StillDead(w, SigninTries(w, p, cfg, rec, refreshed, f).w)
  {
    TriesShape(w, p, rec, refreshed, f.tries);
    SigninTriesMoves(w, p, cfg, rec, refreshed, f);
    StillDeadBy(w, SigninTries(w, p, cfg, rec, refreshed, f).w, p, false);
  }

  lemma SigninStillDead(w: World, p: Proc, cfg: nat, rec: Record, refreshed: Refreshed, f: SigninFaults)
    requires Valid(w) && Dead(w) && Complete(rec) && !SameTokens(w.cred, rec) && |f.tries| == SIGNIN_COMMIT_TRIES
    ensures StillDead(w, CommitSignin(w, p, cfg, rec, refreshed, f).w)
  {
    var s := Settle(w, p, cfg, f.settle);
    SettleMoves(w, p, cfg, f.settle);
    SettleStillDead(w, p, cfg, f.settle);
    if s.out.Value? {
      SigninTriesMoves(s.w, p, cfg, rec, refreshed, f);
      if s.w.cred == w.cred && s.w.status == w.status {
        SigninTriesStillDead(s.w, p, cfg, rec, refreshed, f);
      }
      StillDeadTransitive(w, s.w, SigninTries(s.w, p, cfg, rec, refreshed, f).w, p, false);
    }
  }

  lemma StepStillDead(w: World, s: Step)
    requires Valid(w) && Dead(w) && Legal(s) && StatusReads(s) && NewSignin(w.cred, s)
    ensures StillDead(w, Apply(w, s))
  {
    StepMoves(w, s);
    match s
    case Refresh(p, cfg, d, f) => RefreshStillDead(w, p, cfg, d, f);
    case UpstreamAnswer(p, cfg, state, code, rid, f) => StillDeadBy(w, Apply(w, s), Actor(s), Free(s));
    case SettleOnly(p, cfg, f) => SettleStillDead(w, p, cfg, f);
    case Signin(p, cfg, rec, refreshed, f) => SigninStillDead(w, p, cfg, rec, refreshed, f);
    case Crash(_, _) => StillDeadBy(w, Apply(w, s), Actor(s), Free(s));
    case Foreign(_) => StillDeadBy(w, Apply(w, s), Actor(s), Free(s));
    case Tick(_) => StillDeadBy(w, Apply(w, s), Actor(s), Free(s));
  }

  /** While the file a needs-signin was measured on stays in place, no run writes another status over it or sends its
      refresh token: whatever refreshes, refusals, retries, upstream answers, deaths and sign-ins the run holds, every
      request in it came from a record in memory. */
  lemma {:induction false} DeadStaysDead(w: World, steps: seq<Step>)
    requires Valid(w) && Dead(w)
    requires forall s <- steps :: Legal(s) && StatusReads(s) && NewSignin(w.cred, s)
    ensures
      var w' := Exec(w, steps);
      CondOf(w'.cred) == CondOf(w.cred) ==>
        w'.cred == w.cred && w'.status == w.status && NoneFromFile(w.asks, w'.asks)
    decreases |steps|
  {
    if steps != [] {
      assert steps[0] in steps;
      var w1 := Apply(w, steps[0]);
      StepMoves(w, steps[0]);
      StepStillDead(w, steps[0]);
      if Retired(w1, w.cred.id) {
        RetiredForGood(w1, steps[1..], w.cred.id);
      } else {
        DeadStaysDead(w1, steps[1..]);
      }
    }
  }

  /** Exactly when a dead file's own token is sent: when the status that bars it cannot be read at the gate. */
  lemma DeadTokenIsSentIff(w: World, p: Proc, cfg: nat, f: RefreshFaults)
    requires Dead(w) && Whole(w.cred) && !f.answer.NotSent?
    ensures
      var r := ReadingOf(w.cred.content, CondOf(w.cred));
      (RefreshLocked(w, p, cfg, r, false, f).w.asks != w.asks) <==> !f.gate
  {
    var r := ReadingOf(w.cred.content, CondOf(w.cred));
    if !f.gate {
      var w1 := AfterTrip(w, p, r.rec.value, false, f);
      assert |w1.asks| == |w.asks| + 1;
      var prev := ReadStatus(w, f.prev);
      if !f.dies && Answered(f.answer) {
        AskedOnce(w1, p, cfg, r, prev, f);
      }
    }
  }

  lemma AskedOnce(w: World, p: Proc, cfg: nat, r: Reading, prev: Option<Status>, f: RefreshFaults)
    requires r.rec.Some? && Answered(f.answer)
    ensures RefreshGranted(w, p, cfg, r, false, prev, f).w.asks == w.asks
  {
    var rec := Merge(r.rec.value, f.answer, f.at);
    CommitAsksNothing(w, p, rec, Some(Refreshed(f.at, f.answer.rid)), f.commit);
  }

  lemma CommitAsksNothing(w: World, p: Proc, rec: Record, refreshed: Option<Refreshed>, f: CommitFaults)
    ensures CommitRecord(w, p, rec, refreshed, f).w.asks == w.asks
  {
    CheckpointShape(w, p, rec, f);
  }
}
