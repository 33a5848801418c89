/**
  What every run of the credential protocol keeps: any number of processes, in any order, every file operation
  succeeding, failing or dying, and writers outside the library taking turns between and inside the sections.
*/
module AuthRuns {
  import opened Wrappers
  import opened Credential
  import opened AuthSteps
  import opened AuthFacts
  import opened AuthOrigins

  // ── the file ──────────────────────────────────────────────────────────────────────────────────

  /** However it ends, a run only the library takes part in leaves the credential file as it was, or holding one whole
      record that came from somewhere: signed in, answered by the endpoint, or carried by the lane before the run. And
      only where the file could be written over: a torn file, another family's or a path that is no regular file is never
      touched. Nor is a file ever followed by an older one. */
  lemma {:induction false} FileIsWhole(w: World, steps: seq<Step>)
    requires Valid(w) && forall s <- steps :: Legal(s)
    ensures Valid(Exec(w, steps))
    ensures
      (forall s <- steps :: !Free(s)) ==>
        var cred := Exec(w, steps).cred;
        && (cred == w.cred || (Writable(w.cred) && Whole(cred) && Comes(w, steps, cred.content.rec)))
        && NoOlder(w.cred, cred)
    decreases |steps|
  {
    if steps != [] {
      assert steps[0] in steps;
      StepMoves(w, steps[0]);
      FileIsWhole(Apply(w, steps[0]), steps[1..]);
      var cred := Exec(w, steps).cred;
      if Whole(cred) {
        RecordsComeFrom(w, steps, cred.content.rec);
      }
    }
  }

  /** No file, and no checkpoint, has this identity any more. */
  predicate Retired(w: World, id: Identity) {
    && id.ino < w.next
    && (w.cred.Missing? || w.cred.id != id)
    && (w.pending.Missing? || w.pending.id != id)
  }

  lemma RetiredStays(w: World, w1: World, p: Proc, free: bool, id: Identity)
    requires Moves(w, w1, p, free) && Retired(w, id)
    ensures Retired(w1, id)
  {
  }

  /** A file that was moved away or written over is retired for good. */
  lemma ChangedIsRetired(w: World, w1: World, p: Proc, free: bool)
    requires Valid(w) && Moves(w, w1, p, free) && !w.cred.Missing? && w1.cred != w.cred
    ensures Retired(w1, w.cred.id)
  {
  }

  lemma {:induction false} RetiredForGood(w: World, steps: seq<Step>, id: Identity)
    requires Valid(w) && (forall s <- steps :: Legal(s)) && Retired(w, id)
    ensures Retired(Exec(w, steps), id)
    decreases |steps|
  {
    if steps != [] {
      assert steps[0] in steps;
      StepMoves(w, steps[0]);
      RetiredStays(w, Apply(w, steps[0]), Actor(steps[0]), Free(steps[0]), id);
      RetiredForGood(Apply(w, steps[0]), steps[1..], id);
    }
  }

  /** A record bound to a file that has changed is never served again, by any process, in any later state. */
  lemma StaleRecordNeverServed(w: World, s: Step, steps: seq<Step>, p: Proc, ok: bool)
    requires Valid(w) && w.cred.File? && Legal(s) && (forall t <- steps :: Legal(t))
    requires Apply(w, s).cred != w.cred
    ensures
      var w' := Exec(Apply(w, s), steps);
      p in w'.unsaved && w'.unsaved[p].bound == CondOf(w.cred) ==> !Served(w', p, ok)
  {
    StepMoves(w, s);
    ChangedIsRetired(w, Apply(w, s), Actor(s), Free(s));
    RetiredForGood(Apply(w, s), steps, w.cred.id);
  }
}
