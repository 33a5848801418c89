/**
  What a start does with whatever launcher, body and libraries stand: the launcher checks the body's digest
  (ccd/ccd-entry.py `check_body`), the body checks its libraries' (ccd/ccd `_ccd_lib_load`). So the digests an install
  chains together decide what can run after it, at every point it can stop.
*/
module EntryChain {
  import opened Wrappers
  import opened Lines
  import opened Stamp
  import opened Pins
  import opened Publisher

  // ── a file as bash reads it ───────────────────────────────────────────────────────────────────

  function DropNuls(d: string): string {
    if d == [] then [] else (if d[0] == '\0' then [] else [d[0]]) + DropNuls(d[1..])
  }

  function StripNewlines(d: string): string {
    if d != [] && d[|d| - 1] == '\n' then StripNewlines(d[..|d| - 1]) else d
  }

  /** `$(<file)`: no NUL, no trailing newline. */
  function BashRead(d: string): string {
    StripNewlines(DropNuls(d))
  }

  predicate EndsInOneNewline(d: string) {
    d != [] && d[|d| - 1] == '\n' && (|d| > 1 ==> d[|d| - 2] != '\n')
  }

  lemma {:induction false} DropNulsKeeps(d: string)
    ensures |DropNuls(d)| <= |d|
    ensures |DropNuls(d)| == |d| <==> '\0' !in d
    ensures '\0' !in d ==> DropNuls(d) == d
  {
    if d != [] {
      DropNulsKeeps(d[1..]);
      assert d == [d[0]] + d[1..];
    }
  }

  lemma {:induction false} StripKeeps(d: string)
    ensures |StripNewlines(d)| <= |d|
    ensures StripNewlines(d) <= d
    ensures d != [] && d[|d| - 1] == '\n' ==> |StripNewlines(d)| < |d|
  {
    if d != [] && d[|d| - 1] == '\n' {
      StripKeeps(d[..|d| - 1]);
    }
  }

  /** The digest the body takes of a library is the digest of its raw bytes if and only if the file passes the check
      the publisher makes of it: no NUL, and exactly one newline at its end. */
  lemma ReadsBackIff(d: string)
    ensures BashRead(d) + "\n" == d <==> '\0' !in d && EndsInOneNewline(d)
  {
    var kept := DropNuls(d);
    DropNulsKeeps(d);
    StripKeeps(kept);
    if '\0' !in d && EndsInOneNewline(d) {
      assert StripNewlines(d) == StripNewlines(d[..|d| - 1]) == d[..|d| - 1];
    } else if BashRead(d) + "\n" == d {
      assert d[|d| - 1] == '\n';
      assert |kept| >= |d| - 1;
      if '\0' in d {
        NulLost(d);
      } else if |d| > 1 && d[|d| - 2] == '\n' {
        StripKeeps(d[..|d| - 1]);
      }
    }
  }

  /** A dropped NUL is never made up for. */
  lemma NulLost(d: string)
    requires '\0' in d
    ensures BashRead(d) + "\n" != d
  {
    var kept, read := DropNuls(d), BashRead(d);
    NoNulKept(d);
    StripKeeps(kept);
    assert forall i | 0 <= i < |read| :: read[i] == kept[i] && kept[i] in kept;
    assert '\0' !in read + "\n";
  }

  lemma {:induction false} NoNulKept(d: string)
    ensures '\0' !in DropNuls(d)
  {
    if d != [] {
      NoNulKept(d[1..]);
    }
  }

  // ── a start ───────────────────────────────────────────────────────────────────────────────────

  datatype Start = Runs | Unrendered | BodyAbsent | BodyType | BodyDigest | LibMissing | LibDigest

  /** `check_body`, when the body can be read: `carried` is the launcher's own digest. */
  function CheckBody(h: Hash, carried: string, body: Node): Start {
    if !Hex64(carried) then Unrendered
    else if body.Absent? then BodyAbsent
    else if !body.Regular? then BodyType
    else if h(body.data) != carried then BodyDigest
    else Runs
  }

  /** What a name holds once the body's lines have run: its last assignment's value. */
  function Assigned(lines: seq<string>, name: string): string {
    if lines == [] then ""
    else
      var last := |lines| - 1;
      if Assigns(name, lines[last]) then ValueIn(name, lines[last]) else Assigned(lines[..last], name)
  }

  const LIBRARY_PINS := [LIB_PIN, TRAIN_LIB_PIN, LEASE_LIB_PIN]

  /** The pins a body holds its three libraries to. */
  function LibraryPins(body: string): seq<string> {
    [Assigned(Split(body), LIB_PIN), Assigned(Split(body), TRAIN_LIB_PIN), Assigned(Split(body), LEASE_LIB_PIN)]
  }

  /** A source checkout: no pin rendered, and the second line still the stamp's placeholder. */
  predicate Checkout(body: string) {
    && LibraryPins(body) == [UNRENDERED, UNRENDERED, UNRENDERED]
    && |Split(body)| > 1 && "# ccrc:stamp-at-install" <= Split(body)[1]
  }

  /** `_ccd_lib_load`, when the three files can be read and hashed. */
  function LoadLibraries(h: Hash, body: string, libs: seq<Node>): Start
    requires |libs| == 3
  {
    if !libs[0].Regular? || !libs[1].Regular? || !libs[2].Regular? then LibMissing
    else if Checkout(body) then Runs
    else
      var pins := LibraryPins(body);
      if UNRENDERED in pins then LibDigest
      else if h(BashRead(libs[0].data) + "\n") != pins[0] then LibDigest
      else if h(BashRead(libs[1].data) + "\n") != pins[1] then LibDigest
      else if h(BashRead(libs[2].data) + "\n") != pins[2] then LibDigest
      else Runs
  }

  function StartOf(h: Hash, carried: string, body: Node, libs: seq<Node>): Start
    requires |libs| == 3
  {
    var checked := CheckBody(h, carried, body);
    if checked.Runs? then LoadLibraries(h, body.data, libs) else checked
  }

  // ── what a rendered body holds its libraries to ───────────────────────────────────────────────

  /** Every line that assigns to `name` gives it `v`, and one does. */
  ghost predicate Gives(lines: seq<string>, name: string, v: string) {
    && (forall line <- lines | Assigns(name, line) :: ValueIn(name, line) == v)
    && (exists line :: line in lines && Assigns(name, line))
  }

  lemma {:induction false} GivenIsAssigned(lines: seq<string>, name: string, v: string)
    requires Gives(lines, name, v)
    ensures Assigned(lines, name) == v
  {
    var last := |lines| - 1;
    assert lines == lines[..last] + [lines[last]];
    if Assigns(name, lines[last]) {
      assert lines[last] in lines;
    } else {
      var line :| line in lines && Assigns(name, line);
      assert line in lines[..last];
      forall l <- lines[..last] | Assigns(name, l) ensures ValueIn(name, l) == v {
        assert l in lines;
      }
      GivenIsAssigned(lines[..last], name, v);
    }
  }

  lemma {:induction false} SubGives(lines: seq<string>, name: string, digest: string)
    requires Name(name) && Hex64(digest) && Gives(lines, name, UNRENDERED)
    ensures Gives(Sub(lines, name, digest), name, digest)
  {
    PinLineIsPin(name, digest);
    SubAt(lines, name, digest);
    var after := Sub(lines, name, digest);
    var line :| line in lines && Assigns(name, line);
    var i :| 0 <= i < |lines| && lines[i] == line;
    assert after[i] in after;
    forall l <- after | Assigns(name, l) ensures ValueIn(name, l) == digest {
      var j :| 0 <= j < |after| && after[j] == l;
      assert lines[j] in lines;
    }
  }

  lemma {:induction false} SubAt(lines: seq<string>, name: string, digest: string)
    ensures forall i | 0 <= i < |lines| ::
              Sub(lines, name, digest)[i] == if Placeholder(name, lines[i]) then PinLine(name, digest) else lines[i]
  {
    if lines != [] {
      SubAt(lines[1..], name, digest);
    }
  }

  lemma SubGivesOther(lines: seq<string>, name: string, digest: string, other: string, v: string)
    requires Name(name) && Name(other) && name != other && Hex64(digest) && Gives(lines, other, v)
    ensures Gives(Sub(lines, name, digest), other, v)
  {
    PinLineIsPin(name, digest);
    SubAt(lines, name, digest);
    var after := Sub(lines, name, digest);
    var line :| line in lines && Assigns(other, line);
    var i :| 0 <= i < |lines| && lines[i] == line;
    if Placeholder(name, line) {
      OneOwner(name, other, line);
    }
    assert after[i] in after;
    forall l <- after | Assigns(other, l) ensures ValueIn(other, l) == v {
      var j :| 0 <= j < |after| && after[j] == l;
      if Placeholder(name, lines[j]) {
        OneOwner(name, other, l);
      }
      assert lines[j] in lines;
    }
  }

  lemma StampGives(h: Hash, lines: seq<string>, name: string, v: string)
    requires HexDigests(h) && Name(name) && lines != [] && Gives(lines, name, v)
    ensures Gives(StampLines(h, lines), name, v)
  {
    var i := MarkerIndex(lines);
    var rest := Stripped(lines);
    MarkerIsMarker(h, rest);
    var m := MarkerFor(h, rest);
    assert m[0] == '#' && STAMP_PLACEHOLDER[0] == '#';
    var after := StampLines(h, lines);
    var line :| line in lines && Assigns(name, line);
    assert line in rest;
    assert line in after;
    forall l <- after | Assigns(name, l) ensures ValueIn(name, l) == v {
      assert l in rest;
      assert l in lines;
    }
  }

  /** The committed body gives each library's name the placeholder, and nothing else. */
  ghost predicate Committed(source: string) {
    forall name <- LIBRARY_PINS :: Gives(Split(source), name, UNRENDERED)
  }

  /** Two different texts with one digest. */
  predicate Collide(h: Hash, a: string, b: string) {
    a != b && h(a) == h(b)
  }

  /** `read_lib` takes the three libraries. */
  predicate Publishable(c: Companions) {
    && '\0' !in c.lib && '\0' !in c.train && '\0' !in c.lease
    && EndsInOneNewline(c.lib) && EndsInOneNewline(c.train) && EndsInOneNewline(c.lease)
  }

  /** Rendering a redactor's pin leaves what the three names are given. */
  lemma RedactorKeepsGiven(h: Hash, lines: seq<string>, name: string, digest: string)
    requires Name(name) && name !in LIBRARY_PINS && Hex64(digest)
    requires forall n <- LIBRARY_PINS :: Gives(lines, n, UNRENDERED)
    ensures forall n <- LIBRARY_PINS :: Gives(Sub(lines, name, digest), n, UNRENDERED)
  {
    PinNames();
    forall n <- LIBRARY_PINS ensures Gives(Sub(lines, name, digest), n, UNRENDERED) {
      SubGivesOther(lines, name, digest, n, UNRENDERED);
    }
  }

  /** Rendered one after another, the three names are given the three digests. */
  lemma LibrariesGiven(b: seq<string>, x: string, y: string, z: string)
    requires Hex64(x) && Hex64(y) && Hex64(z) && forall n <- LIBRARY_PINS :: Gives(b, n, UNRENDERED)
    ensures
      var r := Sub(Sub(Sub(b, LIB_PIN, x), TRAIN_LIB_PIN, y), LEASE_LIB_PIN, z);
      Gives(r, LIB_PIN, x) && Gives(r, TRAIN_LIB_PIN, y) && Gives(r, LEASE_LIB_PIN, z)
  {
    PinNames();
    assert LIBRARY_PINS[0] == LIB_PIN && LIBRARY_PINS[1] == TRAIN_LIB_PIN && LIBRARY_PINS[2] == LEASE_LIB_PIN;
    var d := Sub(b, LIB_PIN, x);
    SubGives(b, LIB_PIN, x);
    SubGivesOther(b, LIB_PIN, x, TRAIN_LIB_PIN, UNRENDERED);
    SubGivesOther(b, LIB_PIN, x, LEASE_LIB_PIN, UNRENDERED);
    var e := Sub(d, TRAIN_LIB_PIN, y);
    SubGives(d, TRAIN_LIB_PIN, y);
    SubGivesOther(d, TRAIN_LIB_PIN, y, LIB_PIN, x);
    SubGivesOther(d, TRAIN_LIB_PIN, y, LEASE_LIB_PIN, UNRENDERED);
    SubGives(e, LEASE_LIB_PIN, z);
    SubGivesOther(e, LEASE_LIB_PIN, z, LIB_PIN, x);
    SubGivesOther(e, LEASE_LIB_PIN, z, TRAIN_LIB_PIN, y);
  }

  /** The body an install publishes holds its libraries to the digests of the very files published with it. */
  lemma BodyHoldsTo(h: Hash, source: string, c: Companions)
    requires HexDigests(h) && Committed(source) && BodyData(h, source, c).Some?
    ensures LibraryPins(BodyData(h, source, c).value) == [h(c.lib), h(c.train), h(c.lease)]
  {
    PinNames();
    var lines := Split(source);
    var a := Sub(lines, REDACT_PIN, h(c.redact));
    RedactorKeepsGiven(h, lines, REDACT_PIN, h(c.redact));
    var b := Sub(a, REDACT_CLI_PIN, h(c.cli));
    RedactorKeepsGiven(h, a, REDACT_CLI_PIN, h(c.cli));
    LibrariesGiven(b, h(c.lib), h(c.train), h(c.lease));
    RenderedPins(h, lines, c);
    var r := RenderPins(h, lines, c).value;
    SplitJoin(r);
    Stamped(h, Join(r));
    StampedPins(h, r, h(c.lib), h(c.train), h(c.lease));
  }

  lemma StampedPins(h: Hash, r: seq<string>, x: string, y: string, z: string)
    requires HexDigests(h) && r != [] && Gives(r, LIB_PIN, x) && Gives(r, TRAIN_LIB_PIN, y) && Gives(r, LEASE_LIB_PIN, z)
    ensures
      var s := StampLines(h, r);
      Assigned(s, LIB_PIN) == x && Assigned(s, TRAIN_LIB_PIN) == y && Assigned(s, LEASE_LIB_PIN) == z
  {
    PinNames();
    StampGives(h, r, LIB_PIN, x);
    StampGives(h, r, TRAIN_LIB_PIN, y);
    StampGives(h, r, LEASE_LIB_PIN, z);
    GivenIsAssigned(StampLines(h, r), LIB_PIN, x);
    GivenIsAssigned(StampLines(h, r), TRAIN_LIB_PIN, y);
    GivenIsAssigned(StampLines(h, r), LEASE_LIB_PIN, z);
  }

  // ── what runs ─────────────────────────────────────────────────────────────────────────────────

  /** A file bash reads as this library. */
  predicate ReadsAs(n: Node, lib: string) {
    n.Regular? && BashRead(n.data) + "\n" == lib
  }

  /** Some file a start reads stands in for the shipped one by a collision of their digests: the body, or a library as
      bash reads it. */
  predicate StandsIn(h: Hash, shipped: string, c: Companions, body: Node, libs: seq<Node>)
    requires |libs| == 3
  {
    || (body.Regular? && Collide(h, body.data, shipped))
    || LibraryStandsIn(h, c, libs)
  }

  predicate LibraryStandsIn(h: Hash, c: Companions, libs: seq<Node>)
    requires |libs| == 3
  {
    || (libs[0].Regular? && Collide(h, BashRead(libs[0].data) + "\n", c.lib))
    || (libs[1].Regular? && Collide(h, BashRead(libs[1].data) + "\n", c.train))
    || (libs[2].Regular? && Collide(h, BashRead(libs[2].data) + "\n", c.lease))
  }

  /** Through a launcher rendered for a body, a start runs where that very body stands and bash reads each library as the
      one shipped with it; and whatever else stands is refused, unless one of the four texts it reads collides with the
      shipped one. */
  lemma RunsIff(h: Hash, source: string, c: Companions, body: Node, libs: seq<Node>)
    requires HexDigests(h) && Committed(source) && BodyData(h, source, c).Some? && |libs| == 3
    ensures
      var shipped := BodyData(h, source, c).value;
      var asShipped := body.Regular? && body.data == shipped
                       && ReadsAs(libs[0], c.lib) && ReadsAs(libs[1], c.train) && ReadsAs(libs[2], c.lease);
      && (asShipped ==> StartOf(h, h(shipped), body, libs).Runs?)
      && (StartOf(h, h(shipped), body, libs).Runs? ==> asShipped || StandsIn(h, shipped, c, body, libs))
  {
    var shipped := BodyData(h, source, c).value;
    BodyHoldsTo(h, source, c);
    assert Hex64(h(shipped));
    if body.Regular? && body.data == shipped {
      PinsDecide(h, shipped, libs, c);
    }
  }

  lemma PinsDecide(h: Hash, body: string, libs: seq<Node>, c: Companions)
    requires HexDigests(h) && |libs| == 3 && LibraryPins(body) == [h(c.lib), h(c.train), h(c.lease)]
    ensures
      var asShipped := ReadsAs(libs[0], c.lib) && ReadsAs(libs[1], c.train) && ReadsAs(libs[2], c.lease);
      && (asShipped ==> LoadLibraries(h, body, libs).Runs?)
      && (LoadLibraries(h, body, libs).Runs? ==> asShipped || LibraryStandsIn(h, c, libs))
  {
    assert Hex64(h(c.lib)) && Hex64(h(c.train)) && Hex64(h(c.lease));
    assert |UNRENDERED| == 16;
    var pins := LibraryPins(body);
    assert pins[0] == h(c.lib) && pins[1] == h(c.train) && pins[2] == h(c.lease);
    assert UNRENDERED !in pins;
    assert pins != [UNRENDERED, UNRENDERED, UNRENDERED];
  }

  /** The set an install renders: the body carries these companions' digests, and the slots hold them. */
  ghost predicate RenderedFrom(h: Hash, plan: Plan, source: string, c: Companions) {
    && BodyData(h, source, c) == Some(plan[BODY])
    && plan[0] == c.redact && plan[1] == c.cli && plan[2] == c.lib && plan[3] == c.train && plan[4] == c.lease
  }

  /** The three library destinations. */
  function LibrariesOf(d: Disk): seq<Node> {
    d[2..5]
  }

  /** Wherever an install stops once it has renamed its body in, a launcher that carries that body's digest starts it,
      and every earlier launcher refuses it by digest. */
  lemma AfterTheBody(h: Hash, s: Snapshot, plan: Plan, before: Disk, source: string, c: Companions, carried: string)
    requires HexDigests(h) && Committed(source) && Publishable(c)
    requires RenderedFrom(h, plan, source, c) && Sound(s, plan, before) && s.renamed[BODY] && Hex64(carried)
    ensures StartOf(h, carried, s.disk[BODY], LibrariesOf(s.disk)) == if carried == h(plan[BODY]) then Runs else BodyDigest
  {
    if carried == h(plan[BODY]) {
      ReadsBackIff(c.lib);
      ReadsBackIff(c.train);
      ReadsBackIff(c.lease);
      RunsIff(h, source, c, s.disk[BODY], LibrariesOf(s.disk));
    }
  }

  /** Three regular files. */
  predicate Stand(libs: seq<Node>) {
    |libs| == 3 && libs[0].Regular? && libs[1].Regular? && libs[2].Regular?
  }

  /** Bash reads the three libraries as it did. */
  predicate ReadsAlike(was: seq<Node>, now: seq<Node>)
    requires Stand(was) && Stand(now)
  {
    && BashRead(now[0].data) == BashRead(was[0].data)
    && BashRead(now[1].data) == BashRead(was[1].data)
    && BashRead(now[2].data) == BashRead(was[2].data)
  }

  /** Some library is read otherwise than it was, with the same digest. */
  predicate StandsInFor(h: Hash, was: seq<Node>, now: seq<Node>)
    requires Stand(was) && Stand(now)
  {
    || Collide(h, BashRead(now[0].data) + "\n", BashRead(was[0].data) + "\n")
    || Collide(h, BashRead(now[1].data) + "\n", BashRead(was[1].data) + "\n")
    || Collide(h, BashRead(now[2].data) + "\n", BashRead(was[2].data) + "\n")
  }

  /** Wherever an install stops, libraries that stood stand. */
  lemma LibrariesStand(s: Snapshot, plan: Plan, before: Disk)
    requires Sound(s, plan, before) && Stand(LibrariesOf(before))
    ensures Stand(LibrariesOf(s.disk))
  {
    forall k | 2 <= k < 5 ensures s.disk[k].Regular? {
      assert LibrariesOf(before)[k - 2] == before[k];
      assert s.renamed[k] || AsItWas(before[k], s.disk[k], Target(plan, k));
    }
  }

  /** Wherever an install stops before its body is renamed in: a standing pair that started before it, its pins
      rendered, starts now where bash reads each library as it did; and where it does not, it is refused by digest,
      unless a library collides with the one it replaced. */
  lemma BeforeTheBodyIff(h: Hash, s: Snapshot, plan: Plan, before: Disk, carried: string)
    requires Sound(s, plan, before) && !s.renamed[BODY]
    requires StartOf(h, carried, before[BODY], LibrariesOf(before)).Runs?
    requires before[BODY].Regular? && !Checkout(before[BODY].data)
    ensures
      var was, now := LibrariesOf(before), LibrariesOf(s.disk);
      && Stand(was) && Stand(now)
      && var start := StartOf(h, carried, s.disk[BODY], now);
         && start in {Runs, LibDigest}
         && (ReadsAlike(was, now) ==> start == Runs)
         && (start == Runs ==> ReadsAlike(was, now) || StandsInFor(h, was, now))
  {
    LibrariesStand(s, plan, before);
    LoadsAsItDidIff(h, before[BODY].data, LibrariesOf(before), LibrariesOf(s.disk));
  }

  /** A body whose libraries loaded loads them again where bash reads each as it did, and otherwise only by a collision. */
  lemma LoadsAsItDidIff(h: Hash, body: string, was: seq<Node>, now: seq<Node>)
    requires Stand(was) && Stand(now) && !Checkout(body) && LoadLibraries(h, body, was).Runs?
    ensures
      && LoadLibraries(h, body, now) in {Runs, LibDigest}
      && (ReadsAlike(was, now) ==> LoadLibraries(h, body, now).Runs?)
      && (LoadLibraries(h, body, now).Runs? ==> ReadsAlike(was, now) || StandsInFor(h, was, now))
  {
    SameLine(BashRead(now[0].data), BashRead(was[0].data));
    SameLine(BashRead(now[1].data), BashRead(was[1].data));
    SameLine(BashRead(now[2].data), BashRead(was[2].data));
  }

  lemma SameLine(a: string, b: string)
    ensures a + "\n" == b + "\n" <==> a == b
  {
    assert (a + "\n")[..|a|] == a && (b + "\n")[..|b|] == b;
  }
}
