/**
  The lane's effort map and its single-slot cache keyed on the file's mtime (ccd/ccgpt-proxy.py `_lane_effort_map`),
  under threads that call it at once and writers that replace the file between any two of a call's system calls.
*/
module EffortCache {
  import opened Wrappers

  type Levels = map<string, string>

  /** A file that does not parse, or what its `byModel` object holds (nothing, when that is no object). */
  datatype Content = Broken | Holds(levels: Levels)

  datatype File = Absent | Present(mtime: nat, content: Content)

  type Thread = nat

  /** What the slot holds: the key's mtime and the levels. `from` is the mtime of the file those levels were read from,
      which the program does not keep. */
  datatype Entry = Entry(key: nat, levels: Levels, from: nat)

  /** How far a call is: it has measured the file; it has missed the slot; it has parsed, and is about to store. */
  datatype Stage = Measured | Missed | Parsed(levels: Levels, from: nat)

  /** One call in flight: the mtime it keys on, and every file that has stood at the path since its stat. */
  datatype Flight = Flight(stage: Stage, mtime: nat, stood: set<File>)

  /** What a call answered, what stood at the path while it ran, and whether its own stat, open or parse failed. */
  datatype Answer = Answer(levels: Levels, stood: set<File>, failed: bool)

  datatype World = World(file: File, slot: Option<Entry>, flights: map<Thread, Flight>, answers: seq<Answer>)

  /** The steps a run interleaves: two of the writers', four of a call. */
  datatype Step =
    | Replace(mtime: nat, content: Content)
    | Remove
    | Stat(thread: Thread, ok: bool)
    | Consult(thread: Thread)
    | OpenAndParse(thread: Thread, ok: bool)
    | Store(thread: Thread)

  /** What opening and parsing the file answers now. */
  function Direct(file: File): Levels {
    if file.Present? && file.content.Holds? then file.content.levels else map[]
  }

  predicate Hits(slot: Option<Entry>, mtime: nat) {
    slot.Some? && slot.value.key == mtime
  }

  predicate Parses(file: File, ok: bool) {
    ok && file.Present? && file.content.Holds?
  }

  /** The file changes under every call in flight. */
  function Change(w: World, file: File): World {
    w.(file := file, flights := map t | t in w.flights :: w.flights[t].(stood := w.flights[t].stood + {file}))
  }

  /** A call ends. */
  function Finish(w: World, t: Thread, levels: Levels, failed: bool): World
    requires t in w.flights
  {
    w.(flights := w.flights - {t}, answers := w.answers + [Answer(levels, w.flights[t].stood, failed)])
  }

  predicate At(w: World, t: Thread, stage: Stage) {
    t in w.flights && w.flights[t].stage == stage
  }

  predicate AtStore(w: World, t: Thread) {
    t in w.flights && w.flights[t].stage.Parsed?
  }

  function Apply(w: World, s: Step): World {
    match s
    case Replace(m, c) => Change(w, Present(m, c))
    case Remove => Change(w, Absent)
    case Stat(t, ok) =>
      if t in w.flights then w
      else if !ok || w.file.Absent? then w.(answers := w.answers + [Answer(map[], {w.file}, true)])
      else w.(flights := w.flights[t := Flight(Measured, w.file.mtime, {w.file})])
    case Consult(t) =>
      if !At(w, t, Measured) then w
      else
        var f := w.flights[t];
        if Hits(w.slot, f.mtime) then Finish(w, t, w.slot.value.levels, false)
        else w.(flights := w.flights[t := f.(stage := Missed)])
    case OpenAndParse(t, ok) =>
      if !At(w, t, Missed) then w
      else
        var f := w.flights[t];
        if Parses(w.file, ok) then w.(flights := w.flights[t := f.(stage := Parsed(w.file.content.levels, w.file.mtime))])
        else Finish(w, t, map[], true)
    case Store(t) =>
      if !AtStore(w, t) then w
      else
        var f := w.flights[t];
        Finish(w, t, f.stage.levels, false).(slot := Some(Entry(f.mtime, f.stage.levels, f.stage.from)))
  }

  function Exec(w: World, steps: seq<Step>): World
    decreases |steps|
  {
    if steps == [] then w else Exec(Apply(w, steps[0]), steps[1..])
  }

  /** The module's one slot, read and written as a whole: the program keeps the key and the levels. */
  class Cache {
    var slot: Option<(nat, Levels)>

    /** The slot as the steps' worlds hold it. */
    ghost predicate Is(entry: Option<Entry>)
      reads this
    {
      if slot.None? then entry.None? else entry.Some? && entry.value.key == slot.value.0 && entry.value.levels == slot.value.1
    }

    constructor ()
      ensures Is(None)
    {
      slot := None;
    }

    /** The slot consulted for a file measured at this mtime, as the step `Consult` does. `None`: the call goes on. */
    method Consult(t: Thread, mtime: nat, ghost w: World) returns (answer: Option<Levels>)
      requires Is(w.slot) && At(w, t, Measured) && w.flights[t].mtime == mtime
      ensures
        var after := Apply(w, Step.Consult(t));
        if answer.Some? then after == Finish(w, t, answer.value, false)
        else At(after, t, Missed)
    {
      match slot {
        case Some(entry) =>
          if entry.0 == mtime {
            return Some(entry.1);
          }
        case None =>
      }
      return None;
    }

    /** The file opened and parsed, as the step `OpenAndParse` does: a failure answers no default at once. */
    static method OpenAndParse(t: Thread, file: File, ok: bool, ghost w: World) returns (answer: Option<Levels>)
      requires w.file == file && At(w, t, Missed)
      ensures
        var after := Apply(w, Step.OpenAndParse(t, ok));
        if answer.Some? then AtStore(after, t) && after.flights[t].stage.levels == answer.value
        else after == Finish(w, t, map[], true)
    {
      if !ok || file.Absent? || file.content.Broken? {
        return None;
      }
      return Some(file.content.levels);
    }

    /** The one assignment, as the step `Store` makes it. */
    method Store(t: Thread, mtime: nat, levels: Levels, ghost w: World)
      requires Is(w.slot) && AtStore(w, t) && w.flights[t].mtime == mtime && w.flights[t].stage.levels == levels
      modifies this
      ensures Is(Apply(w, Step.Store(t)).slot)
    {
      slot := Some((mtime, levels));
    }
  }

  // ── when every answer is a direct one ─────────────────────────────────────────────────────────

  /** Opening and parsing one of these files answers these levels. */
  ghost predicate Shows(stood: set<File>, levels: Levels) {
    exists file :: file in stood && Direct(file) == levels
  }

  /** A call that opens and parses at some moment of this one could have answered the same; one that fails answers no
      default. */
  ghost predicate Fair(a: Answer) {
    Shows(a.stood, a.levels) || (a.failed && a.levels == map[])
  }

  ghost predicate Agree(w: World) {
    forall a <- w.answers :: Fair(a)
  }

  /** Of every call in flight, the present file is one that stood, and so was the one it has itself parsed. */
  ghost predicate Sighted(w: World) {
    && (forall t <- w.flights :: w.file in w.flights[t].stood)
    && (forall t <- w.flights | w.flights[t].stage.Parsed? :: Shows(w.flights[t].stood, w.flights[t].stage.levels))
  }

  /** The step answers a call from the slot. */
  predicate Hit(w: World, s: Step) {
    s.Consult? && At(w, s.thread, Measured) && Hits(w.slot, w.flights[s.thread].mtime)
  }

  lemma ShowsMore(stood: set<File>, file: File, levels: Levels)
    ensures Shows(stood + {file}, levels) <==> Shows(stood, levels) || Direct(file) == levels
  {
    if Shows(stood, levels) {
      var f :| f in stood && Direct(f) == levels;
      assert f in stood + {file};
    }
    if Direct(file) == levels {
      assert file in stood + {file};
    }
  }

  lemma ChangeSighted(w: World, file: File)
    requires Sighted(w)
    ensures Sighted(Change(w, file))
  {
    forall t <- w.flights | w.flights[t].stage.Parsed?
      ensures Shows(w.flights[t].stood + {file}, w.flights[t].stage.levels)
    {
      ShowsMore(w.flights[t].stood, file, w.flights[t].stage.levels);
    }
  }

  /** A step of a call answers fairly, but for a hit on levels that nothing standing shows; and the slot changes only by
      a store of levels that were parsed, never by a failure. */
  lemma StepSighted(w: World, s: Step)
    requires Sighted(w)
    ensures Sighted(Apply(w, s))
    ensures Agree(Apply(w, s)) <==> Agree(w) && (Hit(w, s) ==> Shows(w.flights[s.thread].stood, w.slot.value.levels))
    ensures Apply(w, s).slot != w.slot ==> s.Store? && AtStore(w, s.thread)
  {
    match s
    case Replace(m, c) => ChangeSighted(w, Present(m, c));
    case Remove => ChangeSighted(w, Absent);
    case _ =>
      var w1 := Apply(w, s);
      if w1.answers != w.answers {
        var last := w1.answers[|w.answers|];
        assert w1.answers == w.answers + [last];
        assert last in w1.answers;
        assert forall a <- w.answers :: a in w1.answers;
      }
  }

  // ── stale hits ────────────────────────────────────────────────────────────────────────────────

  /** No two contents share an mtime: `of` says which content each mtime carries. */
  ghost predicate Keyed(of: nat -> Content, s: Step) {
    s.Replace? ==> of(s.mtime) == s.content
  }

  /** The file of this mtime. */
  function FileOf(of: nat -> Content, mtime: nat): File {
    Present(mtime, of(mtime))
  }

  /** The step answers a call from a slot filled from the file of an mtime whose levels no file that stood during the
      call carries. */
  ghost predicate StaleHit(w: World, of: nat -> Content, s: Step) {
    Hit(w, s) && forall file <- w.flights[s.thread].stood :: Direct(file) != Direct(FileOf(of, w.slot.value.from))
  }

  ghost predicate SomeStaleHit(w: World, of: nat -> Content, steps: seq<Step>)
    decreases |steps|
  {
    steps != [] && (StaleHit(w, of, steps[0]) || SomeStaleHit(Apply(w, steps[0]), of, steps[1..]))
  }

  /** The file, every file that stood and what was read for the slot hold what their mtimes carry; and of every call in
      flight the file it measured is one that stood. */
  ghost predicate Faithful(w: World, of: nat -> Content) {
    && Sighted(w)
    && (forall t <- w.flights :: forall file <- w.flights[t].stood | file.Present? :: file == FileOf(of, file.mtime))
    && (w.file.Present? ==> w.file == FileOf(of, w.file.mtime))
    && (forall t <- w.flights :: FileOf(of, w.flights[t].mtime) in w.flights[t].stood)
    && (w.slot.Some? ==> w.slot.value.levels == Direct(FileOf(of, w.slot.value.from)))
    && (forall t <- w.flights | w.flights[t].stage.Parsed? ::
          w.flights[t].stage.levels == Direct(FileOf(of, w.flights[t].stage.from)))
  }

  /** The lane before any call. */
  predicate Initial(w: World) {
    w.slot.None? && w.flights == map[] && w.answers == []
  }

  lemma InitialIsFaithful(w: World, of: nat -> Content)
    requires Initial(w) && (w.file.Present? ==> of(w.file.mtime) == w.file.content)
    ensures Faithful(w, of) && Agree(w)
  {
  }

  /** A stale hit is on a poisoned slot: its levels were read from the file of another mtime than the one it is keyed on. */
  lemma StaleIsPoisoned(w: World, of: nat -> Content, s: Step)
    requires Faithful(w, of) && StaleHit(w, of, s)
    ensures w.slot.value.from != w.slot.value.key
  {
    var f := w.flights[s.thread];
    assert FileOf(of, f.mtime) in f.stood;
  }

  lemma StepFaithful(w: World, of: nat -> Content, s: Step)
    requires Faithful(w, of) && Keyed(of, s)
    ensures Faithful(Apply(w, s), of)
    ensures Agree(Apply(w, s)) <==> Agree(w) && !StaleHit(w, of, s)
  {
    StepSighted(w, s);
  }

  lemma {:induction false} DisagreementStays(w: World, steps: seq<Step>)
    requires Sighted(w) && !Agree(w)
    ensures !Agree(Exec(w, steps))
    decreases |steps|
  {
    if steps != [] {
      StepSighted(w, steps[0]);
      DisagreementStays(Apply(w, steps[0]), steps[1..]);
    }
  }

  /** Where distinct contents never share an mtime, over every interleaving of replacements, removals, failures and calls:
      some call answers what no direct reading within it could, if and only if some call hits a slot that was filled from
      a file whose levels nothing that stood during the call carries. */
  lemma {:induction false} StaleIff(w: World, of: nat -> Content, steps: seq<Step>)
    requires Faithful(w, of) && Agree(w) && forall s <- steps :: Keyed(of, s)
    ensures Agree(Exec(w, steps)) <==> !SomeStaleHit(w, of, steps)
    decreases |steps|
  {
    if steps != [] {
      assert steps[0] in steps;
      StepFaithful(w, of, steps[0]);
      if StaleHit(w, of, steps[0]) {
        DisagreementStays(Apply(w, steps[0]), steps[1..]);
      } else {
        StaleIff(Apply(w, steps[0]), of, steps[1..]);
      }
    }
  }

  // ── by the mtimes alone ───────────────────────────────────────────────────────────────────────

  /** Distinct mtimes carry distinct levels, none of them empty. */
  ghost predicate Telling(of: nat -> Content) {
    && (forall m: nat, n: nat :: m != n ==> Direct(FileOf(of, m)) != Direct(FileOf(of, n)))
    && (forall m: nat :: Direct(FileOf(of, m)) != map[])
  }

  /** The step answers a call from a slot filled from the file of an mtime that was never in place during the call. */
  predicate StrangerHit(w: World, s: Step) {
    Hit(w, s) && forall file <- w.flights[s.thread].stood :: file.Absent? || file.mtime != w.slot.value.from
  }

  predicate SomeStrangerHit(w: World, steps: seq<Step>)
    decreases |steps|
  {
    steps != [] && (StrangerHit(w, steps[0]) || SomeStrangerHit(Apply(w, steps[0]), steps[1..]))
  }

  lemma StaleIsStranger(w: World, of: nat -> Content, s: Step)
    requires Faithful(w, of) && Telling(of)
    ensures StaleHit(w, of, s) <==> StrangerHit(w, s)
  {
    if Hit(w, s) {
      var from := w.slot.value.from;
      forall file <- w.flights[s.thread].stood
        ensures Direct(file) == Direct(FileOf(of, from)) <==> file.Present? && file.mtime == from
      {
        assert file.Present? ==> file == FileOf(of, file.mtime);
      }
    }
  }

  lemma {:induction false} StrangersAreStale(w: World, of: nat -> Content, steps: seq<Step>)
    requires Faithful(w, of) && Telling(of) && forall s <- steps :: Keyed(of, s)
    ensures SomeStaleHit(w, of, steps) <==> SomeStrangerHit(w, steps)
    decreases |steps|
  {
    if steps != [] {
      assert steps[0] in steps;
      StaleIsStranger(w, of, steps[0]);
      StepFaithful(w, of, steps[0]);
      StrangersAreStale(Apply(w, steps[0]), of, steps[1..]);
    }
  }

  /** Where mtimes tell contents apart, then, a lane's whole history of calls is fair if and only if no call hits a slot
      filled from an mtime that was never in place while the call ran. */
  lemma StaleIffNeverInPlace(w: World, of: nat -> Content, steps: seq<Step>)
    requires Initial(w) && (w.file.Present? ==> of(w.file.mtime) == w.file.content)
    requires Telling(of) && forall s <- steps :: Keyed(of, s)
    ensures Agree(Exec(w, steps)) <==> !SomeStrangerHit(w, steps)
  {
    InitialIsFaithful(w, of);
    StaleIff(w, of, steps);
    StrangersAreStale(w, of, steps);
  }

  lemma Unroll(w: World, s: Step, rest: seq<Step>)
    ensures Exec(w, [s] + rest) == Exec(Apply(w, s), rest)
  {
    assert ([s] + rest)[1..] == rest;
  }

  /** One call measures the file, and another file takes its place before the call opens it. */
  lemma StraddlePoisons(a: Levels, b: Levels, m1: nat, m2: nat)
    ensures
      var w := World(Present(m1, Holds(a)), None, map[], []);
      Exec(w, [Stat(0, true)] + ([Consult(0)] + ([Replace(m2, Holds(b))] + ([OpenAndParse(0, true)] + ([Store(0)] + [])))))
      == World(Present(m2, Holds(b)), Some(Entry(m1, b, m2)), map[],
               [Answer(b, {Present(m1, Holds(a)), Present(m2, Holds(b))}, false)])
  {
    var both := {Present(m1, Holds(a)), Present(m2, Holds(b))};
    var w := World(Present(m1, Holds(a)), None, map[], []);
    var w1 := Apply(w, Stat(0, true));
    var w2 := Apply(w1, Consult(0));
    var w3 := Apply(w2, Replace(m2, Holds(b)));
    assert w3.flights[0].stood == both;
    var w4 := Apply(w3, OpenAndParse(0, true));
    var w5 := Apply(w4, Store(0));
    assert w5.flights == map[] && w5.answers == [Answer(b, both, false)];
    Unroll(w4, Store(0), []);
    Unroll(w3, OpenAndParse(0, true), [Store(0)] + []);
    Unroll(w2, Replace(m2, Holds(b)), [OpenAndParse(0, true)] + ([Store(0)] + []));
    Unroll(w1, Consult(0), [Replace(m2, Holds(b))] + ([OpenAndParse(0, true)] + ([Store(0)] + [])));
    Unroll(w, Stat(0, true), [Consult(0)] + ([Replace(m2, Holds(b))] + ([OpenAndParse(0, true)] + ([Store(0)] + []))));
  }

  /** It does happen, though each mtime always carries the same content: the first file comes back, and the next call
      answers what is not there. */
  lemma StraddleSpoils(a: Levels, b: Levels, m1: nat, m2: nat)
    requires a != b && m1 != m2
    ensures
      var w := World(Present(m1, Holds(a)), None, map[], []);
      var w5 := Exec(w, [Stat(0, true)] + ([Consult(0)] + ([Replace(m2, Holds(b))] + ([OpenAndParse(0, true)] + ([Store(0)] + [])))));
      !Agree(Exec(w5, [Replace(m1, Holds(a))] + ([Stat(1, true)] + ([Consult(1)] + []))))
  {
    StraddlePoisons(a, b, m1, m2);
    var first := Answer(b, {Present(m1, Holds(a)), Present(m2, Holds(b))}, false);
    var w5 := World(Present(m2, Holds(b)), Some(Entry(m1, b, m2)), map[], [first]);
    var w6 := Apply(w5, Replace(m1, Holds(a)));
    assert w6.flights == map[];
    var w7 := Apply(w6, Stat(1, true));
    assert w7.flights[1] == Flight(Measured, m1, {Present(m1, Holds(a))});
    var w8 := Apply(w7, Consult(1));
    assert w8.answers[1] == Answer(b, {Present(m1, Holds(a))}, false) && !Fair(w8.answers[1]);
    Unroll(w7, Consult(1), []);
    Unroll(w6, Stat(1, true), [Consult(1)] + []);
    Unroll(w5, Replace(m1, Holds(a)), [Stat(1, true)] + ([Consult(1)] + []));
  }

  // ── two ways to keep it from happening ────────────────────────────────────────────────────────

  /** No replacement or removal falls while a call is between its stat and its parse. */
  predicate Quiet(w: World, s: Step) {
    s.Replace? || s.Remove? ==> forall t <- w.flights :: w.flights[t].stage.Parsed?
  }

  ghost predicate AllQuiet(w: World, of: nat -> Content, steps: seq<Step>)
    decreases |steps|
  {
    steps != [] ==> Keyed(of, steps[0]) && Quiet(w, steps[0]) && AllQuiet(Apply(w, steps[0]), of, steps[1..])
  }

  /** Nothing is poisoned: what each call keys on is what it reads. */
  ghost predicate Clean(w: World) {
    && (w.slot.Some? ==> w.slot.value.from == w.slot.value.key)
    && (forall t <- w.flights ::
          match w.flights[t].stage
          case Parsed(_, from) => from == w.flights[t].mtime
          case _ => w.file.Present? && w.file.mtime == w.flights[t].mtime)
  }

  /** Mtimes may come back, each with its own content, as long as no call straddles a replacement. */
  lemma {:induction false} QuietNeverStale(w: World, of: nat -> Content, steps: seq<Step>)
    requires Faithful(w, of) && Agree(w) && Clean(w) && AllQuiet(w, of, steps)
    ensures Agree(Exec(w, steps))
    decreases |steps|
  {
    if steps != [] {
      assert Clean(Apply(w, steps[0]));
      if StaleHit(w, of, steps[0]) {
        StaleIsPoisoned(w, of, steps[0]);
      }
      StepFaithful(w, of, steps[0]);
      QuietNeverStale(Apply(w, steps[0]), of, steps[1..]);
    }
  }

  function Leave(left: set<nat>, file: File): set<nat> {
    if file.Present? then left + {file.mtime} else left
  }

  function Left(left: set<nat>, w: World, s: Step): set<nat> {
    if s.Replace? || s.Remove? then Leave(left, w.file) else left
  }

  /** A replacement brings an mtime the file never had. */
  predicate Brings(w: World, left: set<nat>, s: Step) {
    s.Replace? ==> s.mtime !in Leave(left, w.file)
  }

  ghost predicate AllFresh(w: World, left: set<nat>, steps: seq<Step>)
    decreases |steps|
  {
    steps != [] ==> Brings(w, left, steps[0]) && AllFresh(Apply(w, steps[0]), Left(left, w, steps[0]), steps[1..])
  }

  /** The mtime is one the file has lost, or the one it has. */
  predicate Known(w: World, left: set<nat>, mtime: nat) {
    mtime in left || (w.file.Present? && w.file.mtime == mtime)
  }

  /** These levels, keyed on this mtime, are the present file's if the mtime is, and those of a file that stood during
      every call in flight that keys on it. */
  ghost predicate Shown(w: World, left: set<nat>, key: nat, levels: Levels) {
    && Known(w, left, key)
    && (w.file.Present? && w.file.mtime == key ==> w.file.content == Holds(levels))
    && (forall t <- w.flights | w.flights[t].mtime == key :: Shows(w.flights[t].stood, levels))
  }

  /** `left` holds every mtime the file has had and lost. */
  ghost predicate Tracked(w: World, left: set<nat>) {
    && Sighted(w)
    && (w.file.Present? ==> w.file.mtime !in left)
    && (forall t <- w.flights :: Known(w, left, w.flights[t].mtime))
    && (w.slot.Some? ==> Shown(w, left, w.slot.value.key, w.slot.value.levels))
    && (forall t <- w.flights | w.flights[t].stage.Parsed? :: Shown(w, left, w.flights[t].mtime, w.flights[t].stage.levels))
  }

  lemma ChangeShown(w: World, left: set<nat>, file: File, key: nat, levels: Levels)
    requires Shown(w, left, key, levels) && (file.Present? ==> file.mtime !in Leave(left, w.file))
    ensures Shown(Change(w, file), Leave(left, w.file), key, levels)
  {
    forall t <- w.flights | w.flights[t].mtime == key ensures Shows(w.flights[t].stood + {file}, levels) {
      ShowsMore(w.flights[t].stood, file, levels);
    }
  }

  lemma ChangeTracked(w: World, left: set<nat>, file: File)
    requires Tracked(w, left) && (file.Present? ==> file.mtime !in Leave(left, w.file))
    ensures Tracked(Change(w, file), Leave(left, w.file))
  {
    ChangeSighted(w, file);
    if w.slot.Some? {
      ChangeShown(w, left, file, w.slot.value.key, w.slot.value.levels);
    }
    forall t <- w.flights | w.flights[t].stage.Parsed?
      ensures Shown(Change(w, file), Leave(left, w.file), w.flights[t].mtime, w.flights[t].stage.levels)
    {
      ChangeShown(w, left, file, w.flights[t].mtime, w.flights[t].stage.levels);
    }
  }

  lemma StepTracked(w: World, left: set<nat>, s: Step)
    requires Tracked(w, left) && Brings(w, left, s)
    ensures Tracked(Apply(w, s), Left(left, w, s))
    ensures Hit(w, s) ==> Shows(w.flights[s.thread].stood, w.slot.value.levels)
  {
    match s
    case Replace(m, c) => ChangeTracked(w, left, Present(m, c));
    case Remove => ChangeTracked(w, left, Absent);
    case _ => StepSighted(w, s);
  }

  /** Where every replacement brings an mtime the file never had, the cache answers what direct reading could, over
      every interleaving, calls that straddle a replacement or are overtaken by another's store included. */
  lemma {:induction false} FreshNeverStale(w: World, left: set<nat>, steps: seq<Step>)
    requires Tracked(w, left) && Agree(w) && AllFresh(w, left, steps)
    ensures Agree(Exec(w, steps))
    decreases |steps|
  {
    if steps != [] {
      StepTracked(w, left, steps[0]);
      StepSighted(w, steps[0]);
      FreshNeverStale(Apply(w, steps[0]), Left(left, w, steps[0]), steps[1..]);
    }
  }
}
