/**
  The library as the program it is: the lane's files and the module's unsaved map as mutable fields, each operation
  changing them step by step, with early returns where the source raises. Every method leaves exactly the lane the
  function of the same name answers, so what is proved of runs of those functions holds of it.
*/
module AuthLibrary {
  import opened Wrappers
  import opened Credential
  import opened AuthSteps

  class Lane {
    var cred: Node
    var pending: Node
    var status: Option<Status>
    var unsaved: map<Proc, Entry>
    var clock: nat
    var next: nat
    var asks: seq<Ask>

    function Contents(): (w: World)
      reads this
    {
      World(cred, pending, status, unsaved, clock, next, asks)
    }

    constructor (w: World)
      ensures Contents() == w
    {
      cred, pending, status, unsaved := w.cred, w.pending, w.status, w.unsaved;
      clock, next, asks := w.clock, w.next, w.asks;
    }

    /** The process dies: its memory goes, and with `tear` so does what was not yet fsynced. */
    method Kill(p: Proc, tear: bool)
      modifies this
      ensures Contents() == Die(old(Contents()), p, tear)
    {
      if tear && pending.File? && !pending.synced {
        pending := pending.(content := Torn);
      }
      unsaved := unsaved - {p};
    }

    /** One system call: true when it succeeds, false when it raises OSError. */
    method Call(p: Proc, f: Fate) returns (ok: bool, dead: bool)
      modifies this
      ensures dead <==> f.Dies?
      ensures !dead ==> ok == f.Fine?
      ensures Contents() == if f.Dies? then Die(old(Contents()), p, f.tear) else old(Contents())
    {
      ok, dead := f.Fine?, f.Dies?;
      if dead {
        Kill(p, f.tear);
      }
    }

    /** The checkpoint written and fsynced: unlink, create, chmod, write, fsync, stopping where one raises. */
    method WriteCheckpoint(p: Proc, rec: Record, f: CommitFaults) returns (progress: Progress)
      modifies this
      ensures (Contents(), progress) == AuthSteps.WriteCheckpoint(old(Contents()), p, rec, f)
    {
      var ok, dead := Call(p, f.unlink);
      if !ok || dead { return if dead then Gone else Broke; }
      pending := Missing;
      ok, dead := Call(p, f.create);
      if !ok || dead { return if dead then Gone else Broke; }
      pending := File(Torn, Identity(next, clock), false);
      next := next + 1;
      ok, dead := Call(p, f.chmod);
      if !ok || dead { return if dead then Gone else Broke; }
      ok, dead := Call(p, f.write);
      if !ok || dead { return if dead then Gone else Broke; }
      pending := pending.(content := Backend(rec));
      ok, dead := Call(p, f.sync);
      if !ok || dead { return if dead then Gone else Broke; }
      pending := pending.(synced := true);
      return Wrote;
    }

    /** `commit_record`. */
    method CommitRecord(p: Proc, rec: Record, refreshed: Option<Refreshed>, f: CommitFaults) returns (out: Out<bool>)
      modifies this
      ensures Run(Contents(), out) == AuthSteps.CommitRecord(old(Contents()), p, rec, refreshed, f)
    {
      var current := ReadFile(Contents(), f.read);
      if Unwritable(current).Some? {
        return Raise(Unwritable(current).value);
      }
      var progress := WriteCheckpoint(p, rec, f);
      if progress.Gone? {
        return Died;
      }
      if progress.Wrote? {
        var ok, dead := Call(p, f.rename);
        if dead {
          return Died;
        }
        if ok {
          cred, pending := pending, Missing;
          ok, dead := Call(p, f.dirsync);
          if dead {
            return Died;
          }
          if ok {
            unsaved := unsaved - {p};
            return Value(true);
          }
          unsaved := unsaved[p := Entry(rec, CurrentIdentity(Contents(), f.measure), refreshed)];
          return Value(false);
        }
      }
      var ok, dead := Call(p, f.cleanup);
      if dead {
        return Died;
      }
      if ok {
        pending := Missing;
      }
      unsaved := unsaved[p := Entry(rec, current.ident, refreshed)];
      return Value(false);
    }

    /** `recover_pending`. */
    method RecoverPending(p: Proc, f: RecoverFaults) returns (out: Out<Settled>)
      modifies this
      ensures Run(Contents(), out) == AuthSteps.RecoverPending(old(Contents()), p, f)
    {
      if !f.lstat {
        return Raise(UnreadableRefusal);
      }
      if pending.Missing? {
        return Value(NoCheckpoint);
      }
      if pending.File? {
        var readable, dead := Call(p, f.open);
        if dead {
          return Died;
        }
        if !readable {
          return Raise(UnreadableRefusal);
        }
        var synced;
        synced, dead := Call(p, f.sync);
        if dead {
          return Died;
        }
        if synced {
          pending := pending.(synced := true);
        }
      }
      var current := ReadFile(Contents(), f.read);
      if !Candidate(pending) || Older(pending, current) {
        var ok, dead := Call(p, f.unlink);
        if dead {
          return Died;
        }
        if !ok {
          return Raise(UnreadableRefusal);
        }
        pending := Missing;
        return Value(Discarded);
      }
      if Unwritable(current).Some? {
        return Raise(Unwritable(current).value);
      }
      if f.sync.Fails? {
        return Raise(UnreadableRefusal);
      }
      var ok, dead := Call(p, f.rename);
      if dead {
        return Died;
      }
      if !ok {
        return Raise(UnreadableRefusal);
      }
      cred, pending := pending, Missing;
      ok, dead := Call(p, f.dirsync);
      return if dead then Died else Value(Promoted);
    }

    /** `write_status`, for a status this call has already put together. */
    method WriteStatus(p: Proc, s: Status, f: Fate) returns (out: Out<()>)
      modifies this
      ensures Run(Contents(), out) == Credential.WriteStatus(old(Contents()), p, s, f)
    {
      var ok, dead := Call(p, f);
      if dead {
        return Died;
      }
      if ok {
        status := Some(s.(bound := IdentityJson(s.bound)));
      }
      return Value(());
    }

    /** `retry_unsaved`. */
    method RetryUnsaved(p: Proc, cfg: nat, f: RetryFaults) returns (out: Out<Retried>)
      modifies this
      ensures Run(Contents(), out) == AuthSteps.RetryUnsaved(old(Contents()), p, cfg, f)
    {
      if p !in unsaved {
        return Value(NoRecord);
      }
      var e := unsaved[p];
      if CurrentIdentity(Contents(), f.measure) != e.bound {
        unsaved := unsaved - {p};
        return Value(Dropped);
      }
      var prev := ReadStatus(Contents(), f.prev);
      var c := CommitRecord(p, e.rec, e.refreshed, f.commit);
      match c {
        case Died => return Died;
        case Raise(x) => return Raise(x);
        case Value(saved) =>
          if !saved {
            return Value(StillUnsaved);
          }
      }
      var s := WriteStatus(p, RetriedStatus(e, prev, cfg, CurrentIdentity(Contents(), f.remeasure)), f.status);
      return if s.Died? then Died else Value(Written);
    }

    /** `recover_pending`, then `retry_unsaved`: how every section under the lock begins. */
    method Settle(p: Proc, cfg: nat, f: SettleFaults) returns (out: Out<()>)
      modifies this
      ensures Run(Contents(), out) == AuthSteps.Settle(old(Contents()), p, cfg, f)
    {
      var a := RecoverPending(p, f.recover);
      match a {
        case Died => return Died;
        case Raise(x) => return Raise(x);
        case Value(_) =>
      }
      var b := RetryUnsaved(p, cfg, f.retry);
      match b {
        case Died => return Died;
        case Raise(x) => return Raise(x);
        case Value(_) => return Value(());
      }
    }

    /** The tries of `_commit_signin`: one commit after another until one answers other than False. */
    method Tries(p: Proc, rec: Record, refreshed: Refreshed, fs: seq<CommitFaults>) returns (out: Out<bool>)
      modifies this
      ensures Run(Contents(), out) == AuthSteps.Tries(old(Contents()), p, rec, refreshed, fs)
    {
      var attempt := 0;
      while attempt < |fs|
        invariant 0 <= attempt <= |fs|
        invariant AuthSteps.Tries(Contents(), p, rec, refreshed, fs[attempt..])
               == AuthSteps.Tries(old(Contents()), p, rec, refreshed, fs)
      {
        assert fs[attempt..][1..] == fs[attempt + 1..];
        out := CommitRecord(p, rec, Some(refreshed), fs[attempt]);
        if out != Value(false) {
          return;
        }
        attempt := attempt + 1;
      }
      return Value(false);
    }

    /** `_commit_signin` after its settle. */
    method SigninTries(p: Proc, cfg: nat, rec: Record, refreshed: Refreshed, f: SigninFaults) returns (out: Out<()>)
      modifies this
      ensures Run(Contents(), out) == AuthSteps.SigninTries(old(Contents()), p, cfg, rec, refreshed, f)
    {
      var r := ReadRaw(Contents(), p, f.measure, f.read);
      if Unwritable(r).Some? {
        return Raise(Unwritable(r).value);
      }
      var before := unsaved;
      var t := Tries(p, rec, refreshed, f.tries);
      if t.Died? {
        return Died;
      }
      var landed := t.Value? && !t.v && Landed(Contents(), rec, f.reread);
      if !landed && t != Value(true) {
        unsaved := if p in before then unsaved[p := before[p]] else unsaved - {p};
        return Raise(if t.Raise? then t.e else LoginFailed);
      }
      unsaved := unsaved - {p};
      out := WriteStatus(p, Status(StateOk, None, refreshed.rid, rec.expiresAt, Some(refreshed.at),
                                   CurrentIdentity(Contents(), f.remeasure), false, cfg), f.status);
    }

    /** `_commit_signin`. */
    method CommitSignin(p: Proc, cfg: nat, rec: Record, refreshed: Refreshed, f: SigninFaults) returns (out: Out<()>)
      requires |f.tries| == SIGNIN_COMMIT_TRIES
      modifies this
      ensures Run(Contents(), out) == AuthSteps.CommitSignin(old(Contents()), p, cfg, rec, refreshed, f)
    {
      out := Settle(p, cfg, f.settle);
      if out.Value? {
        out := SigninTries(p, cfg, rec, refreshed, f);
      }
    }

    /** `_refresh_locked`'s commit of an answer, and the status it writes. */
    method RefreshGranted(p: Proc, cfg: nat, r: Reading, fromUnsaved: bool, prev: Option<Status>, f: RefreshFaults)
      returns (out: Out<Reading>)
      requires r.rec.Some? && Answered(f.answer)
      modifies this
      ensures Run(Contents(), out) == AuthSteps.RefreshGranted(old(Contents()), p, cfg, r, fromUnsaved, prev, f)
    {
      var rec := Merge(r.rec.value, f.answer, f.at);
      var refreshed := Refreshed(f.at, f.answer.rid);
      var standing := fromUnsaved && Bars(prev, cfg);
      var c := CommitRecord(p, rec, Some(refreshed), f.commit);
      match c {
        case Died => return Died;
        case Raise(x) =>
          unsaved := unsaved[p := Entry(rec, r.ident, Some(refreshed))];
          return Raise(x);
        case Value(saved) =>
          var bound := r.ident;
          if saved {
            bound := CurrentIdentity(Contents(), f.measure);
          } else if p in unsaved {
            bound := unsaved[p].bound;
          }
          out := Value(ReadingOf(Backend(rec), if bound.Measured? then bound else NoFile));
          if saved || !standing {
            var (state, code, rid) := RefreshedFields(prev, refreshed.rid);
            var s := WriteStatus(p, Status(state, code, rid, rec.expiresAt, Some(f.at), bound, !saved, cfg), f.status);
            if s.Died? {
              return Died;
            }
          }
      }
    }

    /** The one token request, and what a writer that ignores the lock did to the file meanwhile. */
    method Request(p: Proc, sent: Record, fromUnsaved: bool, f: RefreshFaults)
      requires Complete(sent)
      modifies this
      ensures Contents() == AfterTrip(old(Contents()), p, sent, fromUnsaved, f)
    {
      match f.meanwhile {
        case Untouched =>
        case Overwrote(c) => cred, next := File(c, Identity(next, clock), true), next + 1;
        case Removed => cred := Missing;
        case MadeIrregular => cred, next := Irregular(Identity(next, clock)), next + 1;
      }
      if !f.answer.NotSent? {
        asks := asks + [Ask(p, sent.refresh.value, sent.access.value, !fromUnsaved, f.answer)];
      }
    }

    /** `_refresh_locked`. */
    method RefreshLocked(p: Proc, cfg: nat, r: Reading, fromUnsaved: bool, f: RefreshFaults) returns (out: Out<Reading>)
      requires r.word == Present && r.rec.Some? && Complete(r.rec.value)
      requires fromUnsaved ==> p in unsaved
      modifies this
      ensures Run(Contents(), out) == AuthSteps.RefreshLocked(old(Contents()), p, cfg, r, fromUnsaved, f)
    {
      if Barred(Contents(), cfg, fromUnsaved, f.gate) {
        return Raise(BarRefusal(Contents()));
      }
      var prev := ReadStatus(Contents(), f.prev);
      var before := Contents();
      Request(p, r.rec.value, fromUnsaved, f);
      if f.dies {
        Kill(p, f.tear);
        return Died;
      }
      if Answered(f.answer) {
        out := RefreshGranted(p, cfg, r, fromUnsaved, prev, f);
      } else {
        out := RefreshRefused(before, p, cfg, r, fromUnsaved, prev, f);
      }
    }

    /** The arms of `_refresh_locked` that commit nothing; `before` is the lane its fields were measured on. */
    method RefreshRefused(before: World, p: Proc, cfg: nat, r: Reading, fromUnsaved: bool, prev: Option<Status>,
                          f: RefreshFaults) returns (out: Out<Reading>)
      requires r.rec.Some? && (fromUnsaved ==> p in before.unsaved) && !Answered(f.answer)
      modifies this
      ensures Run(Contents(), out) == AuthSteps.RefreshRefused(old(Contents()), before, p, cfg, r, fromUnsaved, prev, f)
    {
      if f.answer.NotSent? {
        return Raise(EndpointRefused);
      }
      var refusal := RefreshFailed;
      var fields;
      var held := p in before.unsaved;
      match f.answer {
        case RefusedToken(code, rid) =>
          refusal, fields := NeedsSigninRefusal, (NeedsSignin, code, rid);
          if fromUnsaved {
            unsaved := unsaved - {p};
            held := false;
          }
        case RefusedClient(code, rid) => refusal, fields := ConfigErrorRefusal, (ConfigError, code, rid);
        case Transient(code, rid) => fields := TransientFields(prev, code, rid);
        case Granted(_, _, _, _, rid) => fields := TransientFields(prev, Some(RESPONSE_INCOMPLETE), rid);
      }
      if !(fromUnsaved && Bars(prev, cfg)) {
        var s := WriteStatus(p, FailedStatus(before, p, cfg, r, fromUnsaved, prev, fields, held), f.status);
        if s.Died? {
          return Died;
        }
      }
      return Raise(refusal);
    }

    /** `ensure_fresh` and `refresh_rejected` from the lock on. */
    method RefreshSection(p: Proc, cfg: nat, d: Door, f: RefreshRun) returns (out: Out<Reading>)
      modifies this
      ensures Run(Contents(), out) == AuthSteps.RefreshSection(old(Contents()), p, cfg, d, f)
    {
      var s := Settle(p, cfg, f.settle);
      match s {
        case Died => return Died;
        case Raise(x) => return Raise(x);
        case Value(_) =>
      }
      var r := ReadRaw(Contents(), p, f.measure, f.read);
      if RaiseFor(r).Some? {
        return Raise(RaiseFor(r).value);
      }
      if !Wants(d, r.rec.value) {
        return Value(r);
      }
      out := RefreshLocked(p, cfg, r, Served(Contents(), p, f.measure), f.refresh);
    }

    /** `record_upstream` from the lock on. */
    method RecordUpstream(p: Proc, cfg: nat, state: Option<State>, code: Option<nat>, rid: Option<nat>, f: UpstreamFaults)
      returns (out: Out<Option<nat>>)
      requires state.Some? ==> Recordable(state.value)
      modifies this
      ensures Run(Contents(), out) == AuthSteps.RecordUpstream(old(Contents()), p, cfg, state, code, rid, f)
    {
      var r := ReadRaw(Contents(), p, f.measure, f.read);
      if r.word != Present {
        return Value(None);
      }
      var prev := ReadStatus(Contents(), f.prev);
      var current := StateOk;
      var kept := Status(StateOk, None, None, ExpiresAt(r.rec.value), None, r.ident, Served(Contents(), p, f.measure), cfg);
      if prev.Some? {
        current, kept := prev.value.state, prev.value;
      }
      if !Recordable(current) || (state == Some(StateOk) && current == StateOk) {
        return Value(rid);
      }
      var next := if state.Some? then state.value else current;
      var s := WriteStatus(p, kept.(state := next, code := code, rid := rid, cfg := cfg), f.status);
      return if s.Died? then Died else Value(rid);
    }
  }
}
