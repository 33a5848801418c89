/** Runs of the publisher one after another: whatever the first left, the next converges. */
module Reinstall {
  import opened Publisher

  /** Nothing in the run fails. */
  predicate NothingFails(f: Faults)
    requires FaultsFit(f)
  {
    f.early.Fine? && f.selfTest.Fine? && f.sayConverged.Fine? && forall k | 0 <= k < SLOTS :: Publisher.Smooth(f.slots[k])
  }

  /** Every file can be read when its standing is asked. */
  predicate AllReadable(f: Faults)
    requires FaultsFit(f)
  {
    forall k | 0 <= k < SLOTS :: f.slots[k].readable
  }

  /** What an install leaves can be installed over. */
  lemma StaysReplaceable(s: Snapshot, plan: Plan, before: Disk)
    requires Sound(s, plan, before) && forall k | 0 <= k < SLOTS :: Replaceable(before[k])
    ensures forall k | 0 <= k < SLOTS :: Replaceable(s.disk[k])
  {
    forall k | 0 <= k < SLOTS ensures Replaceable(s.disk[k]) {
      assert s.renamed[k] || AsItWas(before[k], s.disk[k], Target(plan, k));
    }
  }

  /** Over the rendered set, what a run leaves is the rendered set, whatever it renames again. */
  lemma StaysRendered(s: Snapshot, plan: Plan, before: Disk)
    requires Sound(s, plan, before) && Rendered(before, plan)
    ensures s.disk == before
  {
    forall k | 0 <= k < SLOTS ensures s.disk[k] == before[k] {
      assert s.renamed[k] || AsItWas(before[k], s.disk[k], Target(plan, k));
    }
  }

  /** A run stopped anywhere, by any failure or death, then a run in which nothing fails, then a third in which anything
      may, deaths and files that cannot be read included: the second reaches the rendered set, and the third leaves every
      destination as it stands. It renames in again, with the same bytes and mode, only what it could not read, and
      nothing at all where it can read them. */
  method Converges(d: Disk, plan: Plan, f: Faults, g: Faults, i: Faults)
    returns (left: Disk, second: Exit, mid: Disk, third: Exit, moved: seq<Half>, end: Disk, ghost again: Marks)
    requires FaultsFit(f) && FaultsFit(g) && FaultsFit(i) && NothingFails(g)
    requires forall k | 0 <= k < SLOTS :: Replaceable(d[k])
    ensures exists s: Snapshot :: Sound(s, plan, d) && s.disk == left
    ensures second == Zero && Rendered(mid, plan)
    ensures end == mid
    ensures forall k | 0 <= k < SLOTS && again[k] :: !i.slots[k].readable
    ensures moved == [] <==> NoneRenamed(again)
    ensures AllReadable(i) ==> moved == [] && !third.Two?
  {
    var run := new Installer(d);
    var first := run.Install(plan, f);
    left := run.disk;
    StaysReplaceable(Snapshot(run.disk, run.renamed), plan, d);
    second := run.Install(plan, g);
    mid := run.disk;
    third := run.Install(plan, i);
    StaysRendered(Snapshot(run.disk, run.renamed), plan, mid);
    NoneNamed(run.renamed);
    moved, end, again := run.moved, run.disk, run.renamed;
    forall k | 0 <= k < SLOTS && again[k] ensures !i.slots[k].readable {
      assert RenamesIn(plan, mid, i, k);
    }
  }
}
