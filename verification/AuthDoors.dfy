/** What `ensure_fresh` and `refresh_rejected` do before the lock: two reads that answer at once, refuse, or go on. */
module AuthDoors {
  import opened Wrappers
  import opened Credential
  import opened AuthSteps
  import opened AuthFacts

  datatype DoorFaults = DoorFaults(measure: bool, read: ReadFate, status: bool)

  /** The part before the lock. `None`: the call goes on to take it. */
  function AtDoor(w: World, p: Proc, cfg: nat, d: Door, f: DoorFaults): Option<Out<Reading>> {
    var r := ReadRaw(w, p, f.measure, f.read);
    if RaiseFor(r).Some? then Some(Raise(RaiseFor(r).value))
    else if d.EnsureFresh? && !Expired(r.rec.value, d.now, d.within) && p !in w.unsaved then Some(Value(r))
    else if !Served(w, p, f.measure) && Bars(ReadStatus(w, f.status), cfg) then Some(Raise(BarRefusal(w)))
    else None
  }

  /** The door answers for the lock: with nothing to settle, whatever a call is told before the lock is what the
      section would have told it, and the section would have changed nothing. The one exception is exact: a caller
      whose rejected token is no longer the file's is refused at the door by a status that bars, where the section
      would have answered it with the file's newer token. */
  lemma DoorAgreesIff(w: World, p: Proc, cfg: nat, d: Door, f: DoorFaults, g: RefreshRun)
    requires w.pending.Missing? && p !in w.unsaved && g.settle.recover.lstat
    requires g.measure == f.measure && g.read == f.read && g.refresh.gate == f.status
    requires AtDoor(w, p, cfg, d, f).Some?
    ensures
      var r := ReadRaw(w, p, f.measure, f.read);
      var c := RefreshSection(w, p, cfg, d, g);
      && c.w == w
      && (c.out == AtDoor(w, p, cfg, d, f).value <==> RaiseFor(r).Some? || d.EnsureFresh? || Wants(d, r.rec.value))
  {
    assert Settle(w, p, cfg, g.settle) == Run(w, Value(()));
    var r := ReadRaw(w, p, f.measure, f.read);
    if RaiseFor(r).None? && Wants(d, r.rec.value) {
      assert Bars(ReadStatus(w, f.status), cfg);
      assert !Served(w, p, f.measure);
      assert Barred(w, cfg, false, f.status);
    }
  }

  /** A process that holds an unsaved record over the file still in place always goes to the lock, where the record is
      retried: it is neither answered before it nor barred before it, whatever the status says. */
  lemma UnsavedGoesToTheLock(w: World, p: Proc, cfg: nat, d: Door, f: DoorFaults)
    requires Valid(w) && p in w.unsaved
    ensures AtDoor(w, p, cfg, d, f).Some? ==> !AtDoor(w, p, cfg, d, f).value.Value?
    ensures Served(w, p, f.measure) ==> AtDoor(w, p, cfg, d, f) == None
  {
    if Served(w, p, f.measure) {
      assert Complete(w.unsaved[p].rec);
    }
  }
}
