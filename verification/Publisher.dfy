/**
  The publisher of the direct entry (ccd/ccd-entry-install.py `install`): seven files staged beside their destinations
  and renamed in a fixed order, each call succeeding, raising or ending in the process's death.
*/
module Publisher {
  import opened Wrappers

  /** What one call does: it succeeds, raises OSError or Refused, raises anything else (a report whose path stdout cannot
      encode), or the process dies in it. */
  datatype Call = Fine | Fails | Breaks | Dies

  /** What stands at a destination, asked without following it. */
  datatype Node =
    | Absent | Regular(data: string, mode: nat) | LinkToFile | DanglingLink
    | Directory | LinkToDirectory | LinkToOther | Special

  /** The seven destinations, in their rename order: redact.mjs, redact-cli.mjs, the three libraries, the body, the
      launcher. */
  const BODY: nat := 5
  const ENTRY: nat := 6
  const SLOTS: nat := 7

  const BODY_MODE: nat := 420
  const ENTRY_MODE: nat := 493

  /** The rendered set: the bytes of each of the seven. */
  type Plan = s: seq<string> | |s| == SLOTS witness ["", "", "", "", "", "", ""]

  type Disk = s: seq<Node> | |s| == SLOTS witness [Absent, Absent, Absent, Absent, Absent, Absent, Absent]

  /** Which of the seven a run has renamed in. */
  type Marks = s: seq<bool> | |s| == SLOTS witness [false, false, false, false, false, false, false]

  function ModeOf(k: nat): nat {
    if k == ENTRY then ENTRY_MODE else BODY_MODE
  }

  /** The file the run is to leave at slot `k`. */
  function Target(plan: Plan, k: nat): Node
    requires k < SLOTS
  {
    Regular(plan[k], ModeOf(k))
  }

  /** `destination_kind` answers, rather than refusing: one rename can replace it. */
  predicate Replaceable(n: Node) {
    n.Absent? || n.Regular? || n.LinkToFile? || n.DanglingLink?
  }

  datatype Standing = Same | ModeOnly | Differ

  /** `converged`; a file that cannot be read differs. */
  function Converged(n: Node, data: string, mode: nat, readable: bool): Standing {
    if !n.Regular? || !readable || n.data != data then Differ
    else if n.mode == mode then Same
    else ModeOnly
  }

  datatype SlotFaults = SlotFaults(
    readable: bool, stage: Call, repair: Call, sayRepaired: Call, kind: Call, replace: Call, post: Call, say: Call, unlink: bool)

  /** `early`: the checks, the directories and the sweep before anything is staged; `warn`: an exit 2's write to stderr;
      `main`: an exit 1's; `shutdown`: the interpreter's own flush of a stdout nothing has pointed away succeeds. */
  datatype Faults = Faults(
    early: Call, slots: seq<SlotFaults>, selfTest: Call, sayConverged: Call, warn: Call, main: Call, shutdown: bool)

  predicate FaultsFit(f: Faults) {
    |f.slots| == SLOTS
  }

  datatype Half = Library | Body | Launcher

  /** The sentence of an exit 2. */
  datatype Diagnosis =
    | LibraryOnly(files: seq<nat>)
    | LauncherStands | LauncherUnverified
    | BodyUnverified | BodyStandsWithLauncher | LauncherNotProved

  /** The status: `OneTwenty` is the interpreter's, in place of 1, where its flush at shutdown fails. */
  datatype Exit = Zero | One | Two(diagnosis: Diagnosis) | OneTwenty | Killed

  /** How `install` is left: it returns 0 or 2, raises OSError or Refused to `main`, raises anything else, or dies. */
  datatype Leave = Done | Refuses(diagnosis: Diagnosis) | Throws | Uncaught | Dead

  /** How one half's publication ended: it went on, it raised OSError or Refused, something else, or the process died. */
  datatype End = Went | Raised | Broke | Gone

  /** A state of the seven destinations that a crash of the run could leave, and which of them the run had renamed in. */
  datatype Snapshot = Snapshot(disk: Disk, renamed: Marks)

  /** Untouched, or, its bytes being the shipped ones, repaired in place to the shipped mode. */
  predicate AsItWas(before: Node, now: Node, target: Node) {
    now == before || (before.Regular? && target.Regular? && before.data == target.data && now == target)
  }

  /** A body renamed in stands beside exactly the five library files shipped with it; a launcher renamed in, beside
      those and the body whose digest it carries. What was not renamed is as the run found it. */
  ghost predicate Sound(s: Snapshot, plan: Plan, before: Disk) {
    && (forall k | 0 <= k < SLOTS ::
          if s.renamed[k] then s.disk[k] == Target(plan, k) else AsItWas(before[k], s.disk[k], Target(plan, k)))
    && (s.renamed[BODY] ==> forall k | 0 <= k <= BODY :: s.disk[k] == Target(plan, k))
    && (s.renamed[ENTRY] ==> forall k | 0 <= k <= ENTRY :: s.disk[k] == Target(plan, k))
  }

  ghost predicate Rendered(d: Disk, plan: Plan) {
    forall k | 0 <= k < SLOTS :: d[k] == Target(plan, k)
  }

  /** The launcher stands with 755 and every other file with 644, each with its own bytes. */
  lemma RenderedIff(d: Disk, plan: Plan)
    ensures Rendered(d, plan) <==>
              forall k | 0 <= k < 7 :: d[k].Regular? && d[k].data == plan[k] && d[k].mode == if k == 6 then 0x1ed else 0x1a4
  {
    if forall k | 0 <= k < 7 :: d[k].Regular? && d[k].data == plan[k] && d[k].mode == if k == 6 then 0x1ed else 0x1a4 {
      forall k | 0 <= k < SLOTS ensures d[k] == Target(plan, k) {
        assert d[k].data == plan[k];
      }
    } else {
      var k :| 0 <= k < 7 && !(d[k].Regular? && d[k].data == plan[k] && d[k].mode == if k == 6 then 0x1ed else 0x1a4);
      assert d[k] != Target(plan, k);
    }
  }

  /** The halves that moved, in the order they move. */
  function Words(library: bool, body: bool, launcher: bool): seq<Half> {
    (if library then [Library] else []) + (if body then [Body] else []) + (if launcher then [Launcher] else [])
  }

  /** A call that raises ends the run; one the process dies in ends it there and then. */
  function Ends(c: Call): End {
    match c
    case Fine => Went
    case Fails => Raised
    case Breaks => Broke
    case Dies => Gone
  }

  /** How two calls end, the second made only if the first succeeds. */
  function Then(c: Call, rest: End): End {
    if c.Fine? then rest else Ends(c)
  }

  /** How the publication of one destination ends: nothing to do, the mode repaired and said, or the destination asked
      about, replaced, measured again and said. */
  function SlotEnd(state: Standing, f: SlotFaults): End {
    match state
    case Same => Went
    case ModeOnly => Then(f.repair, Ends(f.sayRepaired))
    case Differ => Then(f.kind, Then(f.replace, Then(f.post, Ends(f.say))))
  }

  /** Whether it gets as far as the rename. */
  predicate SlotRenames(state: Standing, f: SlotFaults) {
    state.Differ? && f.kind.Fine? && f.replace.Fine?
  }

  /** The first `done` destinations were published, and of those below `top` exactly the ones whose rename is reached
      have been renamed in. */
  ghost predicate Course(states: seq<Standing>, f: seq<SlotFaults>, done: nat, top: nat, renamed: Marks)
    requires |states| == SLOTS && |f| == SLOTS
  {
    && done <= top <= SLOTS
    && (forall j | 0 <= j < done :: SlotEnd(states[j], f[j]).Went?)
    && (forall j | 0 <= j < SLOTS :: renamed[j] <==> j < top && SlotRenames(states[j], f[j]))
  }

  /** Publishing the destinations below `top` in order either got through them or stopped at `at`, with this end. */
  ghost predicate Reached(states: seq<Standing>, f: seq<SlotFaults>, at: nat, top: nat, end: End, renamed: Marks)
    requires |states| == SLOTS && |f| == SLOTS && top <= SLOTS
  {
    if end.Went? then at == top && Course(states, f, top, top, renamed)
    else at < top && end == SlotEnd(states[at], f[at]) && Course(states, f, at, at + 1, renamed)
  }

  lemma CourseNext(states: seq<Standing>, f: seq<SlotFaults>, k: nat, end: End, renamed: Marks, after: Marks)
    requires |states| == SLOTS && |f| == SLOTS && k < SLOTS && Course(states, f, k, k, renamed)
    requires after == if SlotRenames(states[k], f[k]) then renamed[k := true] else renamed
    requires end == SlotEnd(states[k], f[k])
    ensures Reached(states, f, if end.Went? then k + 1 else k, k + 1, end, after)
  {
  }

  /** Each staged file is the one to publish. */
  predicate StagedFor(staged: seq<Option<Node>>, plan: Plan) {
    && |staged| == SLOTS
    && forall k | 0 <= k < SLOTS && staged[k].Some? :: staged[k].value == Target(plan, k)
  }

  /** The places that are marked, in order. */
  function Names(marks: seq<bool>): seq<nat> {
    if marks == [] then []
    else
      var last := |marks| - 1;
      Names(marks[..last]) + if marks[last] then [last] else []
  }

  lemma {:induction false} NamesNext(marks: seq<bool>, k: nat)
    requires k < |marks| && forall j | k <= j < |marks| :: !marks[j]
    ensures Names(marks[k := true]) == Names(marks) + [k]
  {
    var last := |marks| - 1;
    if k == last {
      assert marks[k := true][..last] == marks[..last];
    } else {
      assert marks[k := true][..last] == marks[..last][k := true];
      NamesNext(marks[..last], k);
    }
  }

  /** The list names exactly the marked places, each once, in ascending order. */
  lemma {:induction false} NamesExactly(marks: seq<bool>)
    ensures forall j :: j in Names(marks) <==> 0 <= j < |marks| && marks[j]
    ensures forall i, j | 0 <= i < j < |Names(marks)| :: Names(marks)[i] < Names(marks)[j]
  {
    if marks != [] {
      var last := |marks| - 1;
      NamesExactly(marks[..last]);
      forall j | 0 <= j < |Names(marks[..last])| ensures Names(marks[..last])[j] < last {
        assert Names(marks[..last])[j] in Names(marks[..last]);
      }
    }
  }

  /** `moved` names the halves that moved, and `lib_moved` the library files. */
  predicate Ledger(moved: seq<Half>, libMoved: seq<nat>, renamed: Marks) {
    && moved == Words(libMoved != [], renamed[BODY], renamed[ENTRY])
    && libMoved == Names(renamed[..BODY])
  }

  /** `entry_proved` is raised only over the shipped launcher; until then the launcher stands as the run found it. */
  predicate Proved(entryProved: bool, entry: Node, entryRenamed: bool, plan: Plan, before: Disk) {
    && (entryProved ==> entry == Target(plan, ENTRY))
    && (!entryProved && !entryRenamed ==> entry == before[ENTRY])
  }

  lemma LedgerLibrary(moved: seq<Half>, libMoved: seq<nat>, renamed: Marks, k: nat)
    requires k < BODY && (forall j | k <= j < SLOTS :: !renamed[j]) && Ledger(moved, libMoved, renamed)
    ensures Ledger([Library], libMoved + [k], renamed[k := true])
    ensures Library in moved <==> libMoved != []
    ensures Library in moved ==> moved == [Library]
    ensures Library !in moved ==> moved == []
  {
    assert renamed[k := true][..BODY] == renamed[..BODY][k := true];
    NamesNext(renamed[..BODY], k);
  }

  lemma LedgerLater(moved: seq<Half>, libMoved: seq<nat>, renamed: Marks, k: nat)
    requires BODY <= k < SLOTS && (forall j | k <= j < SLOTS :: !renamed[j]) && Ledger(moved, libMoved, renamed)
    ensures Ledger(moved + [if k == BODY then Body else Launcher], libMoved, renamed[k := true])
  {
    assert renamed[k := true][..BODY] == renamed[..BODY];
  }

  lemma SoundRename(d: Disk, renamed: Marks, k: nat, plan: Plan, before: Disk)
    requires k < SLOTS && Sound(Snapshot(d, renamed), plan, before)
    requires (forall j | 0 <= j < k :: d[j] == Target(plan, j)) && (forall j | k <= j < SLOTS :: !renamed[j])
    ensures Sound(Snapshot(d[k := Target(plan, k)], renamed[k := true]), plan, before)
  {
  }

  lemma SoundRepair(d: Disk, renamed: Marks, k: nat, plan: Plan, before: Disk)
    requires k < SLOTS && Sound(Snapshot(d, renamed), plan, before) && !renamed[k]
    requires d[k].Regular? && d[k].data == plan[k]
    ensures Sound(Snapshot(d[k := Target(plan, k)], renamed), plan, before)
  {
  }

  /** Nothing that publishes this slot fails. */
  predicate Smooth(f: SlotFaults) {
    f.stage.Fine? && f.repair.Fine? && f.sayRepaired.Fine? && f.kind.Fine? && f.replace.Fine? && f.post.Fine? && f.say.Fine?
  }

  /** Nothing in the run fails, and every destination is one a rename can replace. */
  predicate FailureFree(f: Faults, before: Disk)
    requires FaultsFit(f)
  {
    && f.early.Fine? && f.selfTest.Fine? && f.sayConverged.Fine?
    && forall k | 0 <= k < SLOTS :: Smooth(f.slots[k]) && Replaceable(before[k])
  }

  ghost predicate NoneRenamed(renamed: Marks) {
    forall k | 0 <= k < SLOTS :: !renamed[k]
  }

  /** How destination `k` stands when it is measured. */
  function StandingAt(plan: Plan, before: Disk, f: Faults, k: nat): Standing
    requires FaultsFit(f) && k < SLOTS
  {
    Converged(before[k], plan[k], ModeOf(k), f.slots[k].readable)
  }

  /** The run gets as far as publishing: every destination can be replaced, what differs is staged, and the self-test
      passes. */
  ghost predicate Begins(plan: Plan, before: Disk, f: Faults)
    requires FaultsFit(f)
  {
    && f.early.Fine? && f.selfTest.Fine?
    && forall k | 0 <= k < SLOTS :: Replaceable(before[k]) && (StandingAt(plan, before, f, k).Differ? ==> f.slots[k].stage.Fine?)
  }

  /** The run renames destination `k` in: it gets past every one before it, and this one differs and its rename succeeds. */
  ghost predicate RenamesIn(plan: Plan, before: Disk, f: Faults, k: nat)
    requires FaultsFit(f) && k < SLOTS
  {
    && Begins(plan, before, f)
    && (forall j | 0 <= j < k :: SlotEnd(StandingAt(plan, before, f, j), f.slots[j]).Went?)
    && SlotRenames(StandingAt(plan, before, f, k), f.slots[k])
  }

  // ── the calls a run makes ─────────────────────────────────────────────────────────────────────

  /** How a list of calls ends, made one after another until one does not succeed. */
  function Ended(calls: seq<Call>): End {
    if calls == [] then Went else if calls[0].Fine? then Ended(calls[1..]) else Ends(calls[0])
  }

  /** What is called to publish one destination. */
  function SlotCalls(state: Standing, f: SlotFaults): seq<Call> {
    match state
    case Same => []
    case ModeOnly => [f.repair, f.sayRepaired]
    case Differ => [f.kind, f.replace, f.post, f.say]
  }

  /** The stagings of the first `n` destinations, of those that differ. */
  function StageCalls(plan: Plan, before: Disk, f: Faults, n: nat): seq<Call>
    requires FaultsFit(f) && n <= SLOTS
  {
    if n == 0 then []
    else StageCalls(plan, before, f, n - 1)
         + if StandingAt(plan, before, f, n - 1).Differ? then [f.slots[n - 1].stage] else []
  }

  /** The publications of the first `n` destinations. */
  function PublishCalls(plan: Plan, before: Disk, f: Faults, n: nat): seq<Call>
    requires FaultsFit(f) && n <= SLOTS
  {
    if n == 0 then []
    else PublishCalls(plan, before, f, n - 1) + SlotCalls(StandingAt(plan, before, f, n - 1), f.slots[n - 1])
  }

  ghost predicate AllSame(plan: Plan, before: Disk, f: Faults)
    requires FaultsFit(f)
  {
    forall k | 0 <= k < SLOTS :: StandingAt(plan, before, f, k).Same?
  }

  /** Every call of a run, in the order it would make them all. */
  ghost function RunCalls(plan: Plan, before: Disk, f: Faults): seq<Call>
    requires FaultsFit(f)
  {
    [f.early] + (StageCalls(plan, before, f, SLOTS) + ([f.selfTest]
    + if AllSame(plan, before, f) then [f.sayConverged] else PublishCalls(plan, before, f, SLOTS)))
  }

  /** How a run ends: refused before any call where a destination cannot be replaced, else as its calls do. */
  ghost function RunEnd(plan: Plan, before: Disk, f: Faults): End
    requires FaultsFit(f)
  {
    if exists k :: 0 <= k < SLOTS && !Replaceable(before[k]) then Raised else Ended(RunCalls(plan, before, f))
  }

  lemma {:induction false} EndedAppend(a: seq<Call>, b: seq<Call>)
    ensures Ended(a + b) == if Ended(a).Went? then Ended(b) else Ended(a)
  {
    if a == [] {
      assert a + b == b;
    } else {
      assert (a + b)[1..] == a[1..] + b;
      EndedAppend(a[1..], b);
    }
  }

  lemma EndedFirst(c: Call, rest: seq<Call>)
    ensures Ended([c] + rest) == Then(c, Ended(rest))
  {
    assert ([c] + rest)[1..] == rest;
  }

  lemma SlotEnded(state: Standing, f: SlotFaults)
    ensures Ended(SlotCalls(state, f)) == SlotEnd(state, f)
  {
    if state.ModeOnly? {
      assert [f.repair, f.sayRepaired] == [f.repair] + ([f.sayRepaired] + []);
      EndedFirst(f.repair, [f.sayRepaired] + []);
      EndedFirst(f.sayRepaired, []);
    } else if state.Differ? {
      assert [f.kind, f.replace, f.post, f.say] == [f.kind] + ([f.replace] + ([f.post] + ([f.say] + [])));
      EndedFirst(f.kind, [f.replace] + ([f.post] + ([f.say] + [])));
      EndedFirst(f.replace, [f.post] + ([f.say] + []));
      EndedFirst(f.post, [f.say] + []);
      EndedFirst(f.say, []);
    }
  }

  lemma {:induction false} StagedAll(plan: Plan, before: Disk, f: Faults, n: nat)
    requires FaultsFit(f) && n <= SLOTS
    requires forall k | 0 <= k < n :: StandingAt(plan, before, f, k).Differ? ==> f.slots[k].stage.Fine?
    ensures Ended(StageCalls(plan, before, f, n)).Went?
  {
    if n > 0 {
      StagedAll(plan, before, f, n - 1);
      EndedAppend(StageCalls(plan, before, f, n - 1),
                  if StandingAt(plan, before, f, n - 1).Differ? then [f.slots[n - 1].stage] else []);
    }
  }

  /** The first staging that does not succeed ends them all. */
  lemma {:induction false} StageStops(plan: Plan, before: Disk, f: Faults, k: nat, n: nat)
    requires FaultsFit(f) && k < n <= SLOTS && StandingAt(plan, before, f, k).Differ? && !f.slots[k].stage.Fine?
    requires forall j | 0 <= j < k :: StandingAt(plan, before, f, j).Differ? ==> f.slots[j].stage.Fine?
    ensures Ended(StageCalls(plan, before, f, n)) == Ends(f.slots[k].stage)
    decreases n
  {
    EndedAppend(StageCalls(plan, before, f, n - 1),
                if StandingAt(plan, before, f, n - 1).Differ? then [f.slots[n - 1].stage] else []);
    if n == k + 1 {
      StagedAll(plan, before, f, k);
      assert [f.slots[k].stage][1..] == [];
    } else {
      StageStops(plan, before, f, k, n - 1);
    }
  }

  lemma {:induction false} PublishedAll(plan: Plan, before: Disk, f: Faults, n: nat)
    requires FaultsFit(f) && n <= SLOTS
    requires forall k | 0 <= k < n :: SlotEnd(StandingAt(plan, before, f, k), f.slots[k]).Went?
    ensures Ended(PublishCalls(plan, before, f, n)).Went?
  {
    if n > 0 {
      PublishedAll(plan, before, f, n - 1);
      SlotEnded(StandingAt(plan, before, f, n - 1), f.slots[n - 1]);
      EndedAppend(PublishCalls(plan, before, f, n - 1), SlotCalls(StandingAt(plan, before, f, n - 1), f.slots[n - 1]));
    }
  }

  /** So does the first destination that is not published. */
  lemma {:induction false} PublishStops(plan: Plan, before: Disk, f: Faults, k: nat, n: nat)
    requires FaultsFit(f) && k < n <= SLOTS && !SlotEnd(StandingAt(plan, before, f, k), f.slots[k]).Went?
    requires forall j | 0 <= j < k :: SlotEnd(StandingAt(plan, before, f, j), f.slots[j]).Went?
    ensures Ended(PublishCalls(plan, before, f, n)) == SlotEnd(StandingAt(plan, before, f, k), f.slots[k])
    decreases n
  {
    EndedAppend(PublishCalls(plan, before, f, n - 1), SlotCalls(StandingAt(plan, before, f, n - 1), f.slots[n - 1]));
    if n == k + 1 {
      PublishedAll(plan, before, f, k);
      SlotEnded(StandingAt(plan, before, f, k), f.slots[k]);
    } else {
      PublishStops(plan, before, f, k, n - 1);
    }
  }

  /** A run of which everything up to the self-test has succeeded ends as what follows does. */
  lemma RunEndsAfter(plan: Plan, before: Disk, f: Faults, staged: End)
    requires FaultsFit(f) && f.early.Fine? && forall k | 0 <= k < SLOTS :: Replaceable(before[k])
    requires staged == Ended(StageCalls(plan, before, f, SLOTS))
    ensures RunEnd(plan, before, f) ==
              if !staged.Went? then staged
              else if !f.selfTest.Fine? then Ends(f.selfTest)
              else if AllSame(plan, before, f) then Ends(f.sayConverged)
              else Ended(PublishCalls(plan, before, f, SLOTS))
  {
    var after := if AllSame(plan, before, f) then [f.sayConverged] + [] else PublishCalls(plan, before, f, SLOTS);
    var stages := StageCalls(plan, before, f, SLOTS);
    assert RunCalls(plan, before, f) == [f.early] + (stages + ([f.selfTest] + after));
    EndedFirst(f.early, stages + ([f.selfTest] + after));
    EndedAppend(stages, [f.selfTest] + after);
    EndedFirst(f.selfTest, after);
    EndedFirst(f.sayConverged, []);
  }

  /** Where nothing fails, the run goes through. */
  lemma SmoothGoes(plan: Plan, before: Disk, f: Faults)
    requires FaultsFit(f)
    ensures FailureFree(f, before) ==> RunEnd(plan, before, f).Went?
  {
    if FailureFree(f, before) {
      StagedAll(plan, before, f, SLOTS);
      PublishedAll(plan, before, f, SLOTS);
      RunEndsAfter(plan, before, f, Went);
    }
  }

  /** What the sentence chosen for an exit 2 claims of the seven destinations, and of which call failed. */
  ghost predicate Truthful(d: Diagnosis, s: Snapshot, plan: Plan, before: Disk, f: Faults)
    requires FaultsFit(f)
  {
    match d
    case LibraryOnly(files) =>
      files != [] && files == Names(s.renamed[..BODY]) && !s.renamed[BODY] && !s.renamed[ENTRY]
    case LauncherStands =>
      s.renamed[ENTRY] && Rendered(s.disk, plan) && f.slots[ENTRY].post.Fine? && f.slots[ENTRY].say.Fails?
    case LauncherUnverified =>
      s.renamed[ENTRY] && f.slots[ENTRY].post.Fails?
    case BodyUnverified =>
      s.renamed[BODY] && !s.renamed[ENTRY] && f.slots[BODY].post.Fails?
    case BodyStandsWithLauncher =>
      && s.renamed[BODY] && !s.renamed[ENTRY] && Rendered(s.disk, plan)
      && (f.slots[BODY].say.Fails? || f.slots[ENTRY].sayRepaired.Fails?)
    case LauncherNotProved =>
      && s.renamed[BODY] && !s.renamed[ENTRY] && s.disk[ENTRY] == before[ENTRY]
      && (f.slots[ENTRY].readable ==> s.disk[ENTRY] != Target(plan, ENTRY))
      && forall k | 0 <= k <= BODY :: s.disk[k] == Target(plan, k)
  }

  /** The sentence an exit 2 chooses. */
  function Chosen(moved: seq<Half>, libMoved: seq<nat>, bodyProved: bool, entryProved: bool): Diagnosis {
    if moved == [Library] then LibraryOnly(libMoved)
    else if Launcher in moved && entryProved then LauncherStands
    else if Launcher in moved then LauncherUnverified
    else if !bodyProved then BodyUnverified
    else if entryProved then BodyStandsWithLauncher
    else LauncherNotProved
  }

  /** The same choice, by what was renamed rather than by what the run wrote down. */
  function ChosenBy(libMoved: seq<nat>, body: bool, launcher: bool, bodyProved: bool, entryProved: bool): Diagnosis {
    if launcher then if entryProved then LauncherStands else LauncherUnverified
    else if !body then LibraryOnly(libMoved)
    else if !bodyProved then BodyUnverified
    else if entryProved then BodyStandsWithLauncher
    else LauncherNotProved
  }

  lemma WordsChoose(moved: seq<Half>, libMoved: seq<nat>, body: bool, launcher: bool, bodyProved: bool, entryProved: bool)
    requires moved == Words(libMoved != [], body, launcher)
    ensures moved == [] <==> libMoved == [] && !body && !launcher
    ensures moved != [] ==>
              Chosen(moved, libMoved, bodyProved, entryProved) == ChosenBy(libMoved, body, launcher, bodyProved, entryProved)
  {
    if launcher {
      assert moved[|moved| - 1] == Launcher;
    } else if body {
      assert moved[|moved| - 1] == Body;
      assert Launcher !in moved;
    }
  }

  lemma NoneNamed(renamed: Marks)
    ensures NoneRenamed(renamed) <==> Names(renamed[..BODY]) == [] && !renamed[BODY] && !renamed[ENTRY]
  {
    var r := renamed[..BODY];
    NamesExactly(r);
    if Names(r) == [] {
      forall k | 0 <= k < BODY ensures !renamed[k] {
        assert r[k] == renamed[k];
        assert k !in Names(r);
      }
    } else {
      assert Names(r)[0] in Names(r);
      assert r[Names(r)[0]];
    }
  }

  /** An attempt that ended so ended as its calls do, and renamed exactly what they say. */
  ghost predicate FollowedBy(plan: Plan, before: Disk, f: Faults, end: End, renamed: Marks)
    requires FaultsFit(f)
  {
    && end == RunEnd(plan, before, f)
    && (forall k | 0 <= k < SLOTS :: renamed[k] <==> RenamesIn(plan, before, f, k))
  }

  lemma CourseFollows(plan: Plan, before: Disk, states: seq<Standing>, f: Faults, end: End, at: nat, renamed: Marks)
    requires FaultsFit(f) && |states| == SLOTS && Begins(plan, before, f) && !AllSame(plan, before, f)
    requires forall k | 0 <= k < SLOTS :: states[k] == StandingAt(plan, before, f, k)
    requires Reached(states, f.slots, at, SLOTS, end, renamed)
    ensures FollowedBy(plan, before, f, end, renamed)
  {
    StagedAll(plan, before, f, SLOTS);
    RunEndsAfter(plan, before, f, Went);
    forall k | 0 <= k < SLOTS ensures renamed[k] <==> RenamesIn(plan, before, f, k) {
      assert states[k] == StandingAt(plan, before, f, k);
    }
    if end.Went? {
      PublishedAll(plan, before, f, SLOTS);
    } else {
      PublishStops(plan, before, f, at, SLOTS);
    }
  }

  /** The status `main` and the interpreter make of how `install` was left: where the line is written stdout is pointed
      away and the status stands, and where it is not the interpreter flushes stdout once more. */
  function AtMain(leave: Leave, main: Call, shutdown: bool): Exit {
    match leave
    case Done => Zero
    case Refuses(d) => Two(d)
    case Dead => Killed
    case Uncaught => if shutdown then One else OneTwenty
    case Throws =>
      match main
      case Fine => One
      case Dies => Killed
      case _ => if shutdown then One else OneTwenty
  }

  /** The run leaves `main` something to write: a refusal of its own where nothing has moved, or the sentence of an
      exit 2 that could not be written. */
  predicate Thrown(end: End, moved: bool, f: Faults) {
    end.Raised? && (!moved || f.warn.Fails?)
  }

  /** Nothing at all is said: the run, its sentence or `main`'s own line raises what nothing catches. */
  predicate Unheard(end: End, moved: bool, f: Faults) {
    || end.Broke?
    || (end.Raised? && moved && f.warn.Breaks?)
    || (Thrown(end, moved, f) && (f.main.Fails? || f.main.Breaks?))
  }

  /** The exit status of a run that ended so, having renamed something in or nothing. */
  predicate Answers(exit: Exit, end: End, moved: bool, f: Faults) {
    && (exit.Zero? <==> end.Went?)
    && (exit.Two? <==> end.Raised? && moved && f.warn.Fine?)
    && (exit.One? <==> (Thrown(end, moved, f) && f.main.Fine?) || (Unheard(end, moved, f) && f.shutdown))
    && (exit.OneTwenty? <==> Unheard(end, moved, f) && !f.shutdown)
    && (exit.Killed? <==> end.Gone? || (end.Raised? && moved && f.warn.Dies?) || (Thrown(end, moved, f) && f.main.Dies?))
  }

  /** Exactly when a run that renamed something in exits 1 or 120, which say that nothing was: it raised what it does not
      catch, or the sentence of its exit 2 could not be written. */
  lemma OneIsFalseIff(exit: Exit, end: End, moved: bool, f: Faults)
    requires Answers(exit, end, moved, f) && moved
    ensures exit.One? || exit.OneTwenty? <==>
              end.Broke? || (end.Raised? && (f.warn.Breaks? || (f.warn.Fails? && !f.main.Dies?)))
  {
  }

  /** A run that never comes to publish renames nothing. */
  lemma NeverBegun(plan: Plan, before: Disk, f: Faults, renamed: Marks)
    requires FaultsFit(f) && !Begins(plan, before, f) && NoneRenamed(renamed)
    ensures Sound(Snapshot(before, renamed), plan, before)
    ensures forall k | 0 <= k < SLOTS :: renamed[k] <==> RenamesIn(plan, before, f, k)
  {
  }

  /** How `install` is left by what comes before the `try`. */
  function LeftEarly(end: End): Leave {
    match end
    case Raised => Throws
    case Broke => Uncaught
    case Gone => Dead
    case Went => Done
  }

  /** It ends with the refusal of a destination, or as its first call does. */
  lemma EndsEarly(plan: Plan, before: Disk, f: Faults, ok: bool, end: End, renamed: Marks)
    requires FaultsFit(f) && (ok <==> forall k | 0 <= k < SLOTS :: Replaceable(before[k]))
    requires end == (if ok then Ends(f.early) else Raised) && !end.Went? && NoneRenamed(renamed)
    ensures Answers(AtMain(LeftEarly(end), f.main, f.shutdown), RunEnd(plan, before, f), !NoneRenamed(renamed), f)
    ensures Sound(Snapshot(before, renamed), plan, before)
    ensures forall k | 0 <= k < SLOTS :: renamed[k] <==> RenamesIn(plan, before, f, k)
  {
    NeverBegun(plan, before, f, renamed);
  }

  class Installer {
    var disk: Disk
    var staged: seq<Option<Node>>
    var moved: seq<Half>
    var libMoved: seq<nat>
    var bodyProved: bool
    var entryProved: bool
    ghost var renamed: Marks

    constructor (d: Disk)
      ensures disk == d && moved == [] && (forall k | 0 <= k < SLOTS :: !renamed[k])
    {
      disk, staged, moved, libMoved := d, [None, None, None, None, None, None, None], [], [];
      bodyProved, entryProved := false, false;
      renamed := [false, false, false, false, false, false, false];
    }

    /** What the run's own bookkeeping says is true of the disk. */
    ghost predicate Honest(plan: Plan, before: Disk)
      reads this
    {
      && StagedFor(staged, plan)
      && Sound(Snapshot(disk, renamed), plan, before)
      && (bodyProved ==> renamed[BODY])
      && Proved(entryProved, disk[ENTRY], renamed[ENTRY], plan, before)
    }

    /** What the run says moved is what it renamed. */
    ghost predicate Booked()
      reads this
    {
      Ledger(moved, libMoved, renamed)
    }

    /** The slots before `k` hold what is shipped, and nothing from `k` on has been renamed. */
    ghost predicate UpTo(k: nat, plan: Plan)
      requires k <= SLOTS
      reads this
    {
      && (forall j | 0 <= j < k :: disk[j] == Target(plan, j))
      && (forall j | k <= j < SLOTS :: !renamed[j])
    }

    /** The slots from `k` on stand as `states` measured them, each differing one staged. */
    ghost predicate Ready(k: nat, plan: Plan, states: seq<Standing>)
      requires |states| == SLOTS && |staged| == SLOTS
      reads this
    {
      forall j | k <= j < SLOTS ::
        && (states[j].Differ? <==> staged[j].Some?)
        && (states[j].Same? ==> disk[j] == Target(plan, j))
        && (states[j].ModeOnly? ==> disk[j].Regular? && disk[j].data == plan[j])
    }

    /** `repair_mode`: the mode of a file whose bytes are the shipped ones, set in place. */
    method RepairMode(k: nat, plan: Plan, ghost before: Disk)
      requires k < SLOTS && Honest(plan, before) && (forall j | k <= j < SLOTS :: !renamed[j])
      requires disk[k].Regular? && disk[k].data == plan[k]
      modifies this`disk, this`entryProved
      ensures Honest(plan, before)
      ensures disk == old(disk)[k := Target(plan, k)]
      ensures entryProved == (old(entryProved) || k == ENTRY)
    {
      SoundRepair(disk, renamed, k, plan, before);
      var repaired := disk[k].(mode := ModeOf(k));
      assert repaired == Target(plan, k);
      disk, entryProved := disk[k := repaired], entryProved || k == ENTRY;
    }

    /** `os.replace` of a staged file over its destination. */
    method Replace(k: nat, plan: Plan, ghost before: Disk)
      requires k < SLOTS && Honest(plan, before) && UpTo(k, plan) && staged[k].Some?
      modifies this`disk, this`staged, this`renamed
      ensures Honest(plan, before)
      ensures disk == old(disk)[k := Target(plan, k)] && staged == old(staged)[k := None]
      ensures renamed == old(renamed)[k := true]
    {
      SoundRename(disk, renamed, k, plan, before);
      disk := disk[k := staged[k].value];
      staged := staged[k := None];
      renamed := renamed[k := true];
    }

    /** A half whose bytes are right and whose mode is not: repaired, and said to be. */
    method RepairFirst(k: nat, plan: Plan, ghost before: Disk, states: seq<Standing>, f: SlotFaults) returns (end: End)
      requires k < SLOTS && |states| == SLOTS && Honest(plan, before) && UpTo(k, plan) && Ready(k, plan, states)
      modifies this`disk, this`entryProved
      ensures Honest(plan, before) && UpTo(k, plan) && Ready(k, plan, states)
      ensures end.Went? && staged[k].None? ==> disk[k] == Target(plan, k)
      ensures entryProved == (old(entryProved) || (k == ENTRY && states[k].ModeOnly? && f.repair.Fine?))
      ensures end.Raised? && entryProved && !old(entryProved) ==> f.sayRepaired.Fails?
      ensures Replaceable(old(disk[k])) ==> Replaceable(disk[k])
      ensures end == if states[k].ModeOnly? then SlotEnd(states[k], f) else Went
    {
      if states[k].ModeOnly? {
        if Ends(f.repair) != Went {
          return Ends(f.repair);
        }
        RepairMode(k, plan, before);
        if Ends(f.sayRepaired) != Went {
          return Ends(f.sayRepaired);
        }
      }
      return Went;
    }

    /** A library file renamed in, and written down: the half once, the file by name. */
    method ReplaceLibrary(k: nat, plan: Plan, ghost before: Disk)
      requires k < BODY && Honest(plan, before) && Booked() && UpTo(k, plan) && staged[k].Some?
      modifies this`disk, this`staged, this`moved, this`libMoved, this`renamed
      ensures Honest(plan, before) && Booked()
      ensures disk == old(disk)[k := Target(plan, k)] && staged == old(staged)[k := None]
      ensures renamed == old(renamed)[k := true]
    {
      LedgerLibrary(moved, libMoved, renamed, k);
      Replace(k, plan, before);
      if Library !in moved {
        moved := moved + [Library];
      }
      libMoved := libMoved + [k];
    }

    /** A staged library file published: its destination asked about, replaced, measured again, and said. */
    method PublishLibrary(k: nat, plan: Plan, ghost before: Disk, ghost states: seq<Standing>, f: SlotFaults) returns (end: End)
      requires k < BODY && |states| == SLOTS && Honest(plan, before) && Replaceable(disk[k])
      requires Booked() && UpTo(k, plan) && Ready(k, plan, states) && staged[k].Some?
      modifies this`disk, this`staged, this`moved, this`libMoved, this`renamed
      ensures Honest(plan, before) && Booked()
      ensures end.Went? ==> UpTo(k + 1, plan) && Ready(k + 1, plan, states)
      ensures end == SlotEnd(Differ, f)
      ensures renamed == if SlotRenames(Differ, f) then old(renamed)[k := true] else old(renamed)
    {
      end := if Replaceable(disk[k]) then Ends(f.kind) else Raised;
      if end != Went {
        return;
      }
      if Ends(f.replace) != Went {
        return Ends(f.replace);
      }
      ReplaceLibrary(k, plan, before);
      end := if disk[k] == Target(plan, k) then Ends(f.post) else Raised;
      if end != Went {
        return;
      }
      end := Ends(f.say);
    }

    /** One file of the library half: its mode repaired, or its staged bytes renamed in. */
    method LibraryFile(k: nat, plan: Plan, ghost before: Disk, states: seq<Standing>, f: SlotFaults) returns (end: End)
      requires k < BODY && |states| == SLOTS && Honest(plan, before) && Replaceable(before[k])
      requires Booked() && UpTo(k, plan) && Ready(k, plan, states)
      modifies this`disk, this`staged, this`moved, this`libMoved, this`entryProved, this`renamed
      ensures Honest(plan, before) && Booked() && entryProved == old(entryProved)
      ensures end.Went? ==> UpTo(k + 1, plan) && Ready(k + 1, plan, states)
      ensures end == SlotEnd(states[k], f)
      ensures renamed == if SlotRenames(states[k], f) then old(renamed)[k := true] else old(renamed)
    {
      assert AsItWas(before[k], disk[k], Target(plan, k));
      end := RepairFirst(k, plan, before, states, f);
      if end == Went && staged[k].Some? {
        end := PublishLibrary(k, plan, before, states, f);
      }
    }

    /** A staged body published, as a library file is. */
    method PublishBody(plan: Plan, ghost before: Disk, ghost states: seq<Standing>, f: SlotFaults) returns (end: End)
      requires |states| == SLOTS && Honest(plan, before) && !bodyProved && Replaceable(disk[BODY])
      requires Booked() && UpTo(BODY, plan) && Ready(BODY, plan, states) && staged[BODY].Some?
      modifies this`disk, this`staged, this`moved, this`bodyProved, this`renamed
      ensures Honest(plan, before) && Booked()
      ensures end == SlotEnd(Differ, f)
      ensures renamed == if SlotRenames(Differ, f) then old(renamed)[BODY := true] else old(renamed)
      ensures end.Went? ==> UpTo(ENTRY, plan) && Ready(ENTRY, plan, states)
      ensures bodyProved <==> renamed[BODY] && f.post.Fine?
    {
      end := if Replaceable(disk[BODY]) then Ends(f.kind) else Raised;
      if end != Went {
        return;
      }
      if Ends(f.replace) != Went {
        return Ends(f.replace);
      }
      LedgerLater(moved, libMoved, renamed, BODY);
      Replace(BODY, plan, before);
      moved := moved + [Body];
      end := if disk[BODY] == Target(plan, BODY) then Ends(f.post) else Raised;
      if end != Went {
        return;
      }
      bodyProved := true;
      end := Ends(f.say);
    }

    /** The body, once the library stands. */
    method BodyFile(plan: Plan, ghost before: Disk, states: seq<Standing>, f: SlotFaults) returns (end: End)
      requires |states| == SLOTS && Honest(plan, before) && !bodyProved && Replaceable(before[BODY])
      requires Booked() && UpTo(BODY, plan) && Ready(BODY, plan, states)
      modifies this`disk, this`staged, this`moved, this`bodyProved, this`entryProved, this`renamed
      ensures Honest(plan, before) && Booked() && entryProved == old(entryProved)
      ensures end == SlotEnd(states[BODY], f)
      ensures renamed == if SlotRenames(states[BODY], f) then old(renamed)[BODY := true] else old(renamed)
      ensures end.Went? ==> UpTo(ENTRY, plan) && Ready(ENTRY, plan, states) && (renamed[BODY] ==> bodyProved)
      ensures end.Raised? && renamed[BODY] && !bodyProved ==> f.post.Fails?
      ensures end.Raised? && bodyProved ==> f.post.Fine? && f.say.Fails?
    {
      assert AsItWas(before[BODY], disk[BODY], Target(plan, BODY));
      end := RepairFirst(BODY, plan, before, states, f);
      if end == Went && staged[BODY].Some? {
        end := PublishBody(plan, before, states, f);
      }
    }

    /** The launcher, last. */
    method LauncherFile(plan: Plan, ghost before: Disk, states: seq<Standing>, f: SlotFaults) returns (end: End)
      requires |states| == SLOTS && Honest(plan, before) && entryProved == states[ENTRY].Same? && Replaceable(before[ENTRY])
      requires Booked() && UpTo(ENTRY, plan) && Ready(ENTRY, plan, states)
      modifies this`disk, this`staged, this`moved, this`entryProved, this`renamed
      ensures Honest(plan, before) && Booked()
      ensures old(entryProved) ==> entryProved
      ensures end == SlotEnd(states[ENTRY], f)
      ensures renamed == if SlotRenames(states[ENTRY], f) then old(renamed)[ENTRY := true] else old(renamed)
      ensures forall j | 0 <= j < ENTRY :: disk[j] == Target(plan, j)
      ensures end.Went? ==> Rendered(disk, plan)
      ensures end.Raised? && renamed[ENTRY] && !entryProved ==> f.post.Fails?
      ensures end.Raised? && entryProved ==> if renamed[ENTRY] then f.post.Fine? && f.say.Fails? else f.sayRepaired.Fails?
    {
      assert AsItWas(before[ENTRY], disk[ENTRY], Target(plan, ENTRY));
      end := RepairFirst(ENTRY, plan, before, states, f);
      if end != Went {
        return;
      }
      if staged[ENTRY].Some? {
        end := if Replaceable(disk[ENTRY]) then Ends(f.kind) else Raised;
        if end != Went {
          return;
        }
        if Ends(f.replace) != Went {
          return Ends(f.replace);
        }
        LedgerLater(moved, libMoved, renamed, ENTRY);
        Replace(ENTRY, plan, before);
        moved := moved + [Launcher];
        end := if disk[ENTRY] == Target(plan, ENTRY) then Ends(f.post) else Raised;
        if end != Went {
          return;
        }
        entryProved := true;
        return Ends(f.say);
      }
      return Went;
    }

    /** Each half that differs staged beside its destination, in order. */
    method Stage(plan: Plan, ghost before: Disk, states: seq<Standing>, f: Faults) returns (end: End)
      requires FaultsFit(f) && |states| == SLOTS && disk == before && NoneRenamed(renamed)
      requires forall k | 0 <= k < SLOTS :: states[k] == StandingAt(plan, before, f, k)
      requires staged == [None, None, None, None, None, None, None]
      modifies this`staged
      ensures StagedFor(staged, plan)
      ensures end.Went? ==> forall k | 0 <= k < SLOTS :: states[k].Differ? <==> staged[k].Some?
      ensures end.Went? <==> forall k | 0 <= k < SLOTS :: states[k].Differ? ==> f.slots[k].stage.Fine?
      ensures end == Ended(StageCalls(plan, before, f, SLOTS))
    {
      for k := 0 to SLOTS
        invariant StagedFor(staged, plan)
        invariant forall j | 0 <= j < k :: states[j].Differ? <==> staged[j].Some?
        invariant forall j | k <= j < SLOTS :: staged[j].None?
        invariant forall j | 0 <= j < k :: states[j].Differ? ==> f.slots[j].stage.Fine?
      {
        if states[k].Differ? {
          if Ends(f.slots[k].stage) != Went {
            StageStops(plan, before, f, k, SLOTS);
            return Ends(f.slots[k].stage);
          }
          staged := staged[k := Some(Regular(plan[k], ModeOf(k)))];
        }
      }
      StagedAll(plan, before, f, SLOTS);
      return Went;
    }

    /** One file of the library half, and where the course then stands. */
    method NextLibrary(k: nat, plan: Plan, ghost before: Disk, states: seq<Standing>, f: Faults) returns (end: End, ghost at: nat)
      requires FaultsFit(f) && k < BODY && |states| == SLOTS && Honest(plan, before) && Replaceable(before[k])
      requires Booked() && UpTo(k, plan) && Ready(k, plan, states) && Course(states, f.slots, k, k, renamed)
      modifies this`disk, this`staged, this`moved, this`libMoved, this`entryProved, this`renamed
      ensures Honest(plan, before) && Booked() && entryProved == old(entryProved)
      ensures end.Went? ==> UpTo(k + 1, plan) && Ready(k + 1, plan, states)
      ensures Reached(states, f.slots, at, k + 1, end, renamed)
    {
      ghost var was := renamed;
      end := LibraryFile(k, plan, before, states, f.slots[k]);
      CourseNext(states, f.slots, k, end, was, renamed);
      at := if end.Went? then k + 1 else k;
    }

    /** The library half: the redactor's two files, then the three libraries, each before the body that pins them. `at`
        is where it stopped, or the body's place. */
    method LibraryHalf(plan: Plan, ghost before: Disk, states: seq<Standing>, f: Faults) returns (end: End, ghost at: nat)
      requires FaultsFit(f) && |states| == SLOTS && Honest(plan, before)
      requires Booked() && UpTo(0, plan) && Ready(0, plan, states)
      requires forall k | 0 <= k < SLOTS :: Replaceable(before[k])
      modifies this`disk, this`staged, this`moved, this`libMoved, this`entryProved, this`renamed
      ensures Honest(plan, before) && Booked() && entryProved == old(entryProved)
      ensures end.Went? ==> UpTo(BODY, plan) && Ready(BODY, plan, states)
      ensures Reached(states, f.slots, at, BODY, end, renamed)
    {
      for k := 0 to 2
        invariant Honest(plan, before) && Booked() && entryProved == old(entryProved)
        invariant UpTo(k, plan) && Ready(k, plan, states) && Course(states, f.slots, k, k, renamed)
      {
        end, at := NextLibrary(k, plan, before, states, f);
        if end != Went {
          return;
        }
      }
      end, at := NextLibrary(2, plan, before, states, f);
      if end == Went {
        end, at := NextLibrary(3, plan, before, states, f);
        if end == Went {
          end, at := NextLibrary(4, plan, before, states, f);
        }
      }
    }

    /** Unless nothing moved, the sentence the run would choose now is true. */
    ghost predicate Explains(plan: Plan, before: Disk, f: Faults)
      requires FaultsFit(f)
      reads this
    {
      libMoved != [] || renamed[BODY] || renamed[ENTRY] ==>
        Truthful(ChosenBy(libMoved, renamed[BODY], renamed[ENTRY], bodyProved, entryProved), Snapshot(disk, renamed),
             plan, before, f)
    }

    /** The pair, once the library stands: the body, then the launcher. */
    method PublishPair(plan: Plan, ghost before: Disk, states: seq<Standing>, f: Faults) returns (end: End, ghost at: nat)
      requires FaultsFit(f) && |states| == SLOTS && Honest(plan, before)
      requires Booked() && UpTo(BODY, plan) && Ready(BODY, plan, states)
      requires !bodyProved && entryProved == states[ENTRY].Same?
      requires states[ENTRY] == Converged(before[ENTRY], plan[ENTRY], ModeOf(ENTRY), f.slots[ENTRY].readable)
      requires Course(states, f.slots, BODY, BODY, renamed) && Replaceable(before[BODY]) && Replaceable(before[ENTRY])
      modifies this`disk, this`staged, this`moved, this`bodyProved, this`entryProved, this`renamed
      ensures Honest(plan, before) && Booked()
      ensures end.Went? ==> Rendered(disk, plan)
      ensures end.Raised? ==> Explains(plan, before, f)
      ensures Reached(states, f.slots, at, SLOTS, end, renamed)
    {
      ghost var was := renamed;
      at := BODY;
      end := BodyFile(plan, before, states, f.slots[BODY]);
      CourseNext(states, f.slots, BODY, end, was, renamed);
      if end == Went {
        was := renamed;
        end := LauncherFile(plan, before, states, f.slots[ENTRY]);
        CourseNext(states, f.slots, ENTRY, end, was, renamed);
        at := if end.Went? then SLOTS else ENTRY;
      }
    }

    /** The halves in their order: the library, then the pair. `at` is where it stopped, or past the last. */
    method Publish(plan: Plan, ghost before: Disk, states: seq<Standing>, f: Faults) returns (end: End, ghost at: nat)
      requires FaultsFit(f) && |states| == SLOTS && Honest(plan, before)
      requires Booked() && UpTo(0, plan) && Ready(0, plan, states)
      requires !bodyProved && entryProved == states[ENTRY].Same?
      requires states[ENTRY] == Converged(before[ENTRY], plan[ENTRY], ModeOf(ENTRY), f.slots[ENTRY].readable)
      requires forall k | 0 <= k < SLOTS :: Replaceable(before[k])
      modifies this`disk, this`staged, this`moved, this`libMoved, this`bodyProved, this`entryProved, this`renamed
      ensures Honest(plan, before) && Booked()
      ensures end.Went? ==> Rendered(disk, plan)
      ensures end.Raised? ==> Explains(plan, before, f)
      ensures Reached(states, f.slots, at, SLOTS, end, renamed)
    {
      end, at := LibraryHalf(plan, before, states, f);
      if end == Went {
        end, at := PublishPair(plan, before, states, f);
      }
    }

    /** The `finally`: what is still staged is unlinked, a failure of that ignored. */
    method TidyUp(f: Faults)
      requires FaultsFit(f) && |staged| == SLOTS
      modifies this`staged
      ensures |staged| == SLOTS && forall k | 0 <= k < SLOTS && staged[k].Some? :: !f.slots[k].unlink
    {
      for k := 0 to SLOTS
        invariant |staged| == SLOTS && forall j | 0 <= j < k && staged[j].Some? :: !f.slots[j].unlink
      {
        if staged[k].Some? && f.slots[k].unlink {
          staged := staged[k := None];
        }
      }
    }

    /** Every destination's standing, asked before anything is staged. */
    method Measure(plan: Plan, f: Faults) returns (states: seq<Standing>)
      requires FaultsFit(f)
      ensures |states| == SLOTS
      ensures forall k | 0 <= k < SLOTS ::
                states[k] == Converged(disk[k], plan[k], ModeOf(k), f.slots[k].readable)
    {
      states := [];
      for k := 0 to SLOTS
        invariant |states| == k
        invariant forall j | 0 <= j < k :: states[j] == Converged(disk[j], plan[j], ModeOf(j), f.slots[j].readable)
      {
        states := states + [Converged(disk[k], plan[k], ModeOf(k), f.slots[k].readable)];
      }
    }

    /** `destination_kind` of every destination, before anything is created: whether none refuses. */
    method AllReplaceable() returns (ok: bool)
      ensures ok <==> forall k | 0 <= k < SLOTS :: Replaceable(disk[k])
    {
      for k := 0 to SLOTS
        invariant forall j | 0 <= j < k :: Replaceable(disk[j])
      {
        if !Replaceable(disk[k]) {
          return false;
        }
      }
      return true;
    }

    /** The run's own variables as they start. */
    method Reset()
      modifies this`staged, this`moved, this`libMoved, this`bodyProved, this`entryProved, this`renamed
      ensures staged == [None, None, None, None, None, None, None] && moved == [] && libMoved == []
      ensures !bodyProved && !entryProved && NoneRenamed(renamed)
      ensures Ledger(moved, libMoved, renamed)
    {
      staged, moved, libMoved := [None, None, None, None, None, None, None], [], [];
      bodyProved, entryProved := false, false;
      renamed := [false, false, false, false, false, false, false];
      NoneNamed(renamed);
    }

    /** What follows the self-test: nothing to do is said, anything else is published. */
    method PublishOrSay(plan: Plan, ghost before: Disk, states: seq<Standing>, f: Faults) returns (end: End)
      requires FaultsFit(f) && Begins(plan, before, f) && |states| == SLOTS && Honest(plan, before) && disk == before
      requires Booked() && NoneRenamed(renamed) && !bodyProved && entryProved == states[ENTRY].Same?
      requires forall k | 0 <= k < SLOTS ::
                 states[k] == StandingAt(plan, before, f, k) && (states[k].Differ? <==> staged[k].Some?)
      modifies this`disk, this`staged, this`moved, this`libMoved, this`bodyProved, this`entryProved, this`renamed
      ensures Honest(plan, before) && Booked()
      ensures end.Went? ==> Rendered(disk, plan)
      ensures end.Raised? ==> Explains(plan, before, f)
      ensures FollowedBy(plan, before, f, end, renamed)
    {
      NoneNamed(renamed);
      if forall k | 0 <= k < SLOTS :: states[k].Same? {
        StagedAll(plan, before, f, SLOTS);
        RunEndsAfter(plan, before, f, Went);
        return Ends(f.sayConverged);
      }
      ghost var at;
      end, at := Publish(plan, before, states, f);
      CourseFollows(plan, before, states, f, end, at, renamed);
    }

    /** The `try`: stage, self-test, and what follows. */
    method Attempt(plan: Plan, ghost before: Disk, f: Faults) returns (end: End)
      requires FaultsFit(f) && disk == before && Booked() && NoneRenamed(renamed) && !bodyProved
      requires staged == [None, None, None, None, None, None, None]
      requires f.early.Fine? && forall k | 0 <= k < SLOTS :: Replaceable(before[k])
      modifies this`disk, this`staged, this`moved, this`libMoved, this`bodyProved, this`entryProved, this`renamed
      ensures Honest(plan, before) && Booked()
      ensures end.Went? ==> Rendered(disk, plan)
      ensures end.Raised? ==> Explains(plan, before, f)
      ensures FollowedBy(plan, before, f, end, renamed)
    {
      NoneNamed(renamed);
      var states := Measure(plan, f);
      entryProved := states[ENTRY].Same?;
      end := Stage(plan, before, states, f);
      RunEndsAfter(plan, before, f, end);
      if end != Went {
        NeverBegun(plan, before, f, renamed);
        return;
      }
      end := Ends(f.selfTest);
      if end != Went {
        NeverBegun(plan, before, f, renamed);
        return;
      }
      end := PublishOrSay(plan, before, states, f);
    }

    /** How the run's end and its own record of it make `install` be left. */
    method Conclude(end: End, warn: Call, ghost plan: Plan, ghost before: Disk, ghost f: Faults) returns (leave: Leave)
      requires FaultsFit(f) && Honest(plan, before) && Booked()
      requires end.Raised? ==> Explains(plan, before, f)
      ensures leave.Done? <==> end.Went?
      ensures leave.Dead? <==> end.Gone? || (end.Raised? && !NoneRenamed(renamed) && warn.Dies?)
      ensures leave.Throws? <==> end.Raised? && (NoneRenamed(renamed) || warn.Fails?)
      ensures leave.Uncaught? <==> end.Broke? || (end.Raised? && !NoneRenamed(renamed) && warn.Breaks?)
      ensures leave.Refuses? ==>
                !NoneRenamed(renamed) && Truthful(leave.diagnosis, Snapshot(disk, renamed), plan, before, f)
    {
      match end {
        case Gone => return Dead;
        case Went => return Done;
        case Broke => return Uncaught;
        case Raised =>
          NoneNamed(renamed);
          WordsChoose(moved, libMoved, renamed[BODY], renamed[ENTRY], bodyProved, entryProved);
          if moved == [] {
            return Throws;
          }
          match warn {
            case Fine => return Refuses(Chosen(moved, libMoved, bodyProved, entryProved));
            case Fails => return Throws;
            case Breaks => return Uncaught;
            case Dies => return Dead;
          }
      }
    }

    /** The `try` and its `finally`, once every destination can be replaced. */
    method Guarded(plan: Plan, ghost before: Disk, f: Faults) returns (leave: Leave)
      requires FaultsFit(f) && disk == before && Booked() && NoneRenamed(renamed) && !bodyProved
      requires staged == [None, None, None, None, None, None, None]
      requires f.early.Fine? && forall k | 0 <= k < SLOTS :: Replaceable(before[k])
      modifies this`disk, this`staged, this`moved, this`libMoved, this`bodyProved, this`entryProved, this`renamed
      ensures Sound(Snapshot(disk, renamed), plan, before) && Booked()
      ensures forall k | 0 <= k < SLOTS :: renamed[k] <==> RenamesIn(plan, before, f, k)
      ensures leave.Done? ==> Rendered(disk, plan)
      ensures leave.Refuses? ==>
                !NoneRenamed(renamed) && Truthful(leave.diagnosis, Snapshot(disk, renamed), plan, before, f)
      ensures Answers(AtMain(leave, f.main, f.shutdown), RunEnd(plan, before, f), !NoneRenamed(renamed), f)
      ensures !leave.Dead? ==> |staged| == SLOTS && forall k | 0 <= k < SLOTS && staged[k].Some? :: !f.slots[k].unlink
    {
      var end := Attempt(plan, before, f);
      leave := Conclude(end, f.warn, plan, before, f);
      if leave.Dead? {
        return;
      }
      TidyUp(f);
    }

    /** `install`, and the exit status `main` and the interpreter give its end.

        The run ends as the first of its calls that does not succeed, and its status says how: 0, the seven destinations
        hold the rendered bytes at the shipped modes; 2, something was renamed, and the sentence chosen is true; 1, the
        refusal is one line of `main`'s, or nothing at all was said; 120, nothing was said and the flush at shutdown
        failed too. Exactly the destinations whose rename was reached have been renamed in. Wherever the run stops, death
        included, a body it renamed in stands beside exactly the five library files it pins and a launcher it renamed in
        beside the body it carries. Where nothing fails it publishes. */
    method Install(plan: Plan, f: Faults) returns (exit: Exit)
      requires FaultsFit(f)
      modifies this
      ensures Sound(Snapshot(disk, renamed), plan, old(disk)) && Ledger(moved, libMoved, renamed)
      ensures forall k | 0 <= k < SLOTS :: renamed[k] <==> RenamesIn(plan, old(disk), f, k)
      ensures Answers(exit, RunEnd(plan, old(disk), f), !NoneRenamed(renamed), f)
      ensures exit.Zero? ==> Rendered(disk, plan)
      ensures exit.Two? ==>
                !NoneRenamed(renamed) && Truthful(exit.diagnosis, Snapshot(disk, renamed), plan, old(disk), f)
      ensures FailureFree(f, old(disk)) ==> exit.Zero?
      ensures !exit.Killed? ==> |staged| == SLOTS && forall k | 0 <= k < SLOTS && staged[k].Some? :: !f.slots[k].unlink
    {
      Reset();
      SmoothGoes(plan, disk, f);
      var ok := AllReplaceable();
      var end := if ok then Ends(f.early) else Raised;
      if end != Went {
        EndsEarly(plan, disk, f, ok, end, renamed);
        return AtMain(LeftEarly(end), f.main, f.shutdown);
      }
      var leave := Guarded(plan, disk, f);
      exit := AtMain(leave, f.main, f.shutdown);
    }
  }
}
