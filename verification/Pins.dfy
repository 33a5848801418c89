/**
  The pins an install renders into the body: each names, in one line of the body's own text, the digest of a file
  published beside it (ccd/ccd-entry-install.py). The regular expressions are multi-line and match whole lines, so
  they are read here on the lines of the text.
*/
module Pins {
  import opened Wrappers
  import opened Lines
  import opened Stamp

  const LIB_PIN := "__CCD_LIB_SHA256"
  const TRAIN_LIB_PIN := "__CCD_LIB_TRAIN_SHA256"
  const LEASE_LIB_PIN := "__CCD_LIB_LEASE_SHA256"
  const REDACT_PIN := "__CCD_REDACT_SHA256"
  const REDACT_CLI_PIN := "__CCD_REDACT_CLI_SHA256"

  const UNRENDERED := "stamp-at-install"

  /** A name no two of which begin the same assignment. */
  predicate Name(name: string) {
    '=' !in name && '\n' !in name && "_" <= name
  }

  /** The line assigns to `name`. */
  predicate Assigns(name: string, line: string) {
    name + "=" <= line
  }

  function ValueIn(name: string, line: string): string
    requires Assigns(name, line)
  {
    line[|name| + 1..]
  }

  predicate Placeholder(name: string, line: string) {
    Assigns(name, line) && ValueIn(name, line) == UNRENDERED
  }

  predicate Pin(name: string, line: string) {
    Assigns(name, line) && Hex64(ValueIn(name, line))
  }

  function PinLine(name: string, digest: string): string {
    name + "=" + digest
  }

  /** `placeholder.sub`. */
  function Sub(lines: seq<string>, name: string, digest: string): (r: seq<string>)
    ensures |r| == |lines|
  {
    if lines == [] then []
    else [if Placeholder(name, lines[0]) then PinLine(name, digest) else lines[0]] + Sub(lines[1..], name, digest)
  }

  /** `PIN.findall`: the digests the pin lines of `name` carry, in order. */
  function PinsIn(lines: seq<string>, name: string): seq<string> {
    if lines == [] then []
    else (if Pin(name, lines[0]) then [ValueIn(name, lines[0])] else []) + PinsIn(lines[1..], name)
  }

  /** `len(line.findall(data))` for the placeholder of `name`. */
  function PlaceholdersIn(lines: seq<string>, name: string): nat {
    if lines == [] then 0 else (if Placeholder(name, lines[0]) then 1 else 0) + PlaceholdersIn(lines[1..], name)
  }

  /** The five files published beside a body. */
  datatype Companions = Companions(redact: string, cli: string, lib: string, train: string, lease: string)

  /** One pin of `render_redact_pins`: refused unless exactly one line holds its placeholder. */
  function RenderRedactPin(lines: seq<string>, name: string, digest: string): Option<seq<string>> {
    if PlaceholdersIn(lines, name) != 1 then None else Some(Sub(lines, name, digest))
  }

  /** A library's pin: `render_lib_pin`, then refused unless exactly one pin line stands and names the library. */
  function RenderLibPin(lines: seq<string>, name: string, digest: string): Option<seq<string>> {
    var rendered := Sub(lines, name, digest);
    if PinsIn(rendered, name) != [digest] then None else Some(rendered)
  }

  /** The body with its five pins rendered, in the order `install` renders them. */
  function RenderPins(h: Hash, lines: seq<string>, c: Companions): Option<seq<string>> {
    var a := RenderRedactPin(lines, REDACT_PIN, h(c.redact));
    if a.None? then None
    else
      var b := RenderRedactPin(a.value, REDACT_CLI_PIN, h(c.cli));
      if b.None? then None
      else
        var d := RenderLibPin(b.value, LIB_PIN, h(c.lib));
        if d.None? then None
        else
          var e := RenderLibPin(d.value, TRAIN_LIB_PIN, h(c.train));
          if e.None? then None else RenderLibPin(e.value, LEASE_LIB_PIN, h(c.lease))
  }

  /** The body to publish: pinned first, then stamped. */
  function BodyData(h: Hash, source: string, c: Companions): Option<string> {
    var pinned := RenderPins(h, Split(source), c);
    if pinned.None? then None else Some(StampBody(h, Join(pinned.value)))
  }

  // ── one line ──────────────────────────────────────────────────────────────────────────────────

  /** One line assigns to one name. */
  lemma OneOwner(n: string, n': string, line: string)
    requires Name(n) && Name(n') && Assigns(n, line) && Assigns(n', line)
    ensures n == n'
  {
    assert line[|n|] == '=' == line[|n'|];
    assert forall k | 0 <= k < |n| :: line[k] == (n + "=")[k] == n[k];
    assert forall k | 0 <= k < |n'| :: line[k] == (n' + "=")[k] == n'[k];
    if |n| == |n'| {
      assert n == (n + "=")[..|n|] == line[..|n|];
      assert n' == (n' + "=")[..|n|];
    }
  }

  lemma PinLineIsPin(name: string, digest: string)
    requires Name(name) && Hex64(digest)
    ensures
      var line := PinLine(name, digest);
      Pin(name, line) && !Placeholder(name, line) && ValueIn(name, line) == digest && OneLine(line)
  {
    var line := PinLine(name, digest);
    assert name + "=" <= line;
    assert ValueIn(name, line) == digest;
  }

  // ── a substitution ────────────────────────────────────────────────────────────────────────────

  lemma {:induction false} SubOwn(lines: seq<string>, name: string, digest: string)
    requires Name(name) && Hex64(digest)
    ensures
      var after := Sub(lines, name, digest);
      && PlaceholdersIn(after, name) == 0
      && |PinsIn(after, name)| == PlaceholdersIn(lines, name) + |PinsIn(lines, name)|
      && (PlaceholdersIn(lines, name) > 0 ==> digest in PinsIn(after, name))
      && (PlaceholdersIn(lines, name) == 0 ==> after == lines)
  {
    if lines != [] {
      SubOwn(lines[1..], name, digest);
      PinLineIsPin(name, digest);
      var after := Sub(lines, name, digest);
      assert after[1..] == Sub(lines[1..], name, digest);
      assert PinsIn(after, name) == (if Pin(name, after[0]) then [ValueIn(name, after[0])] else []) + PinsIn(after[1..], name);
      assert lines == [lines[0]] + lines[1..];
      if Placeholder(name, lines[0]) {
        assert PinsIn(after, name)[0] == digest;
      }
    }
  }

  lemma {:induction false} SubOther(lines: seq<string>, name: string, digest: string, other: string)
    requires Name(name) && Name(other) && name != other && Hex64(digest)
    ensures
      var after := Sub(lines, name, digest);
      PlaceholdersIn(after, other) == PlaceholdersIn(lines, other) && PinsIn(after, other) == PinsIn(lines, other)
  {
    if lines != [] {
      SubOther(lines[1..], name, digest, other);
      PinLineIsPin(name, digest);
      var after := Sub(lines, name, digest);
      assert after[1..] == Sub(lines[1..], name, digest);
      if Placeholder(name, lines[0]) {
        assert !Assigns(other, lines[0]) by {
          if Assigns(other, lines[0]) { OneOwner(name, other, lines[0]); }
        }
        assert !Assigns(other, after[0]) by {
          if Assigns(other, after[0]) { OneOwner(name, other, after[0]); }
        }
      }
    }
  }

  /** A library's pin renders if and only if the body holds, in all, one line of it: the placeholder, or a pin that
      already names this very library. */
  lemma LibPinRendersIff(lines: seq<string>, name: string, digest: string)
    requires Name(name) && Hex64(digest)
    ensures RenderLibPin(lines, name, digest).Some? <==>
              (PlaceholdersIn(lines, name) == 1 && PinsIn(lines, name) == []) ||
              (PlaceholdersIn(lines, name) == 0 && PinsIn(lines, name) == [digest])
  {
    SubOwn(lines, name, digest);
    var after := PinsIn(Sub(lines, name, digest), name);
    if PlaceholdersIn(lines, name) == 1 && PinsIn(lines, name) == [] {
      assert |after| == 1 && digest in after;
      assert after == [digest];
    }
  }

  // ── the whole body ────────────────────────────────────────────────────────────────────────────

  /** Lines split from a text stay lines through a substitution. */
  lemma {:induction false} SubLines(lines: seq<string>, name: string, digest: string)
    requires Name(name) && Hex64(digest) && forall line <- lines :: OneLine(line)
    ensures forall line <- Sub(lines, name, digest) :: OneLine(line)
  {
    if lines != [] {
      SubLines(lines[1..], name, digest);
      PinLineIsPin(name, digest);
    }
  }

  /** A stamp touches no pin. */
  lemma StampKeepsPins(h: Hash, lines: seq<string>, name: string)
    requires HexDigests(h) && Name(name) && lines != []
    ensures PinsIn(StampLines(h, lines), name) == PinsIn(lines, name)
  {
    var i := MarkerIndex(lines);
    var rest := Stripped(lines);
    MarkerIsMarker(h, rest);
    var m := MarkerFor(h, rest);
    assert m[0] == '#' && STAMP_PLACEHOLDER[0] == '#';
    assert !Assigns(name, m);
    InsertKeepsPins(rest, i, m, name);
    if rest != lines {
      assert lines[i][0] == '#';
      InsertKeepsPins(rest, i, lines[i], name);
      assert Insert(rest, i, lines[i]) == lines;
    }
  }

  lemma {:induction false} InsertKeepsPins(lines: seq<string>, i: nat, line: string, name: string)
    requires i <= |lines| && !Assigns(name, line)
    ensures PinsIn(Insert(lines, i, line), name) == PinsIn(lines, name)
  {
    var after := Insert(lines, i, line);
    if i == 0 {
      assert after[1..] == lines;
    } else {
      InsertKeepsPins(lines[1..], i - 1, line, name);
      assert after[1..] == Insert(lines[1..], i - 1, line);
    }
  }

  lemma LibraryNames()
    ensures Name(LIB_PIN) && Name(TRAIN_LIB_PIN) && Name(LEASE_LIB_PIN)
    ensures LIB_PIN != TRAIN_LIB_PIN && LIB_PIN != LEASE_LIB_PIN && TRAIN_LIB_PIN != LEASE_LIB_PIN
  {
    assert |LIB_PIN| < |TRAIN_LIB_PIN|;
    assert TRAIN_LIB_PIN[10] == 'T' && LEASE_LIB_PIN[10] == 'L';
  }

  lemma RedactorNames()
    ensures Name(REDACT_PIN) && Name(REDACT_CLI_PIN) && REDACT_PIN != REDACT_CLI_PIN
  {
    assert |REDACT_PIN| < |REDACT_CLI_PIN|;
  }

  lemma PinNames()
    ensures Name(LIB_PIN) && Name(TRAIN_LIB_PIN) && Name(LEASE_LIB_PIN) && Name(REDACT_PIN) && Name(REDACT_CLI_PIN)
    ensures LIB_PIN != TRAIN_LIB_PIN && LIB_PIN != LEASE_LIB_PIN && LIB_PIN != REDACT_PIN && LIB_PIN != REDACT_CLI_PIN
    ensures TRAIN_LIB_PIN != LEASE_LIB_PIN && TRAIN_LIB_PIN != REDACT_PIN && TRAIN_LIB_PIN != REDACT_CLI_PIN
    ensures LEASE_LIB_PIN != REDACT_PIN && LEASE_LIB_PIN != REDACT_CLI_PIN && REDACT_PIN != REDACT_CLI_PIN
  {
    LibraryNames();
    RedactorNames();
    assert |LIB_PIN| == 16 && |TRAIN_LIB_PIN| == 22 && |REDACT_PIN| == 19 && |REDACT_CLI_PIN| == 23;
  }

  /** Every pin of a rendered body, and how many of each. */
  ghost predicate Pinned(h: Hash, r: seq<string>, source: seq<string>, c: Companions) {
    && PinsIn(r, LIB_PIN) == [h(c.lib)] && PinsIn(r, TRAIN_LIB_PIN) == [h(c.train)]
    && PinsIn(r, LEASE_LIB_PIN) == [h(c.lease)]
    && h(c.redact) in PinsIn(r, REDACT_PIN) && |PinsIn(r, REDACT_PIN)| == 1 + |PinsIn(source, REDACT_PIN)|
    && h(c.cli) in PinsIn(r, REDACT_CLI_PIN) && |PinsIn(r, REDACT_CLI_PIN)| == 1 + |PinsIn(source, REDACT_CLI_PIN)|
  }

  lemma RenderedPins(h: Hash, lines: seq<string>, c: Companions)
    requires HexDigests(h) && RenderPins(h, lines, c).Some? && forall line <- lines :: OneLine(line)
    ensures
      var r := RenderPins(h, lines, c).value;
      Pinned(h, r, lines, c) && |r| == |lines| && forall line <- r :: OneLine(line)
  {
    PinNames();
    var a := Sub(lines, REDACT_PIN, h(c.redact));
    SubOwn(lines, REDACT_PIN, h(c.redact));
    SubOther(lines, REDACT_PIN, h(c.redact), REDACT_CLI_PIN);
    SubLines(lines, REDACT_PIN, h(c.redact));
    var b := Sub(a, REDACT_CLI_PIN, h(c.cli));
    SubOwn(a, REDACT_CLI_PIN, h(c.cli));
    SubOther(a, REDACT_CLI_PIN, h(c.cli), REDACT_PIN);
    SubLines(a, REDACT_CLI_PIN, h(c.cli));
    LibrariesPinned(h, b, c);
  }

  /** The three library pins, over lines whose redactor pins already stand. */
  lemma LibrariesPinned(h: Hash, b: seq<string>, c: Companions)
    requires HexDigests(h) && forall line <- b :: OneLine(line)
    ensures
      var d := Sub(b, LIB_PIN, h(c.lib));
      var e := Sub(d, TRAIN_LIB_PIN, h(c.train));
      var r := Sub(e, LEASE_LIB_PIN, h(c.lease));
      && PinsIn(r, LIB_PIN) == PinsIn(d, LIB_PIN) && PinsIn(r, TRAIN_LIB_PIN) == PinsIn(e, TRAIN_LIB_PIN)
      && PinsIn(r, REDACT_PIN) == PinsIn(b, REDACT_PIN) && PinsIn(r, REDACT_CLI_PIN) == PinsIn(b, REDACT_CLI_PIN)
      && forall line <- r :: OneLine(line)
  {
    PinNames();
    var d := Sub(b, LIB_PIN, h(c.lib));
    SubOther(b, LIB_PIN, h(c.lib), REDACT_PIN);
    SubOther(b, LIB_PIN, h(c.lib), REDACT_CLI_PIN);
    SubLines(b, LIB_PIN, h(c.lib));
    var e := Sub(d, TRAIN_LIB_PIN, h(c.train));
    SubOther(d, TRAIN_LIB_PIN, h(c.train), REDACT_PIN);
    SubOther(d, TRAIN_LIB_PIN, h(c.train), REDACT_CLI_PIN);
    SubOther(d, TRAIN_LIB_PIN, h(c.train), LIB_PIN);
    SubLines(d, TRAIN_LIB_PIN, h(c.train));
    SubOther(e, LEASE_LIB_PIN, h(c.lease), REDACT_PIN);
    SubOther(e, LEASE_LIB_PIN, h(c.lease), REDACT_CLI_PIN);
    SubOther(e, LEASE_LIB_PIN, h(c.lease), LIB_PIN);
    SubOther(e, LEASE_LIB_PIN, h(c.lease), TRAIN_LIB_PIN);
    SubLines(e, LEASE_LIB_PIN, h(c.lease));
  }

  /** The body an install publishes, whatever the source: one pin line per library, naming the library published with
      it; of each redactor pin one more than the source already had; a marker the reader accepts. */
  lemma BodyIsPinned(h: Hash, source: string, c: Companions)
    requires HexDigests(h) && BodyData(h, source, c).Some?
    ensures
      var body := BodyData(h, source, c).value;
      Pinned(h, Split(body), Split(source), c) && VerifyMarker(h, body) == Unmodified
  {
    var lines := Split(source);
    RenderedPins(h, lines, c);
    var r := RenderPins(h, lines, c).value;
    SplitJoin(r);
    Stamped(h, Join(r));
    StampVerifies(h, Join(r));
    PinNames();
    StampKeepsPins(h, r, LIB_PIN);
    StampKeepsPins(h, r, TRAIN_LIB_PIN);
    StampKeepsPins(h, r, LEASE_LIB_PIN);
    StampKeepsPins(h, r, REDACT_PIN);
    StampKeepsPins(h, r, REDACT_CLI_PIN);
  }

  /** The redactor's two files are each pinned by exactly one line if and only if the source had no pin of them already
      rendered: the install counts placeholder lines and nothing else. */
  lemma RedactorPinnedOnceIff(h: Hash, source: string, c: Companions)
    requires HexDigests(h) && BodyData(h, source, c).Some?
    ensures
      var body := Split(BodyData(h, source, c).value);
      && (PinsIn(body, REDACT_PIN) == [h(c.redact)] <==> PinsIn(Split(source), REDACT_PIN) == [])
      && (PinsIn(body, REDACT_CLI_PIN) == [h(c.cli)] <==> PinsIn(Split(source), REDACT_CLI_PIN) == [])
  {
    var body := BodyData(h, source, c).value;
    BodyIsPinned(h, source, c);
    OneMore(PinsIn(Split(body), REDACT_PIN), PinsIn(Split(source), REDACT_PIN), h(c.redact));
    OneMore(PinsIn(Split(body), REDACT_CLI_PIN), PinsIn(Split(source), REDACT_CLI_PIN), h(c.cli));
  }

  lemma OneMore(pins: seq<string>, before: seq<string>, digest: string)
    requires digest in pins && |pins| == 1 + |before|
    ensures pins == [digest] <==> before == []
  {
  }

  /** `render_redact_pins`: each pin's one placeholder line in turn. */
  method RenderRedactPins(lines: seq<string>, names: seq<string>, digests: seq<string>) returns (r: Option<seq<string>>)
    requires |names| == |digests| && forall i | 0 <= i < |names| :: Name(names[i]) && Hex64(digests[i])
    requires forall i, j | 0 <= i < j < |names| :: names[i] != names[j]
    ensures r.Some? <==> forall i | 0 <= i < |names| :: PlaceholdersIn(lines, names[i]) == 1
    ensures r.Some? ==> forall i | 0 <= i < |names| ::
              PlaceholdersIn(r.value, names[i]) == 0
              && digests[i] in PinsIn(r.value, names[i])
              && |PinsIn(r.value, names[i])| == 1 + |PinsIn(lines, names[i])|
  {
    var data := lines;
    for k := 0 to |names|
      invariant forall i | 0 <= i < k ::
                  PlaceholdersIn(lines, names[i]) == 1
                  && PlaceholdersIn(data, names[i]) == 0
                  && digests[i] in PinsIn(data, names[i])
                  && |PinsIn(data, names[i])| == 1 + |PinsIn(lines, names[i])|
      invariant forall i | k <= i < |names| ::
                  PlaceholdersIn(data, names[i]) == PlaceholdersIn(lines, names[i])
                  && PinsIn(data, names[i]) == PinsIn(lines, names[i])
    {
      if PlaceholdersIn(data, names[k]) != 1 {
        return None;
      }
      SubOwn(data, names[k], digests[k]);
      forall i | 0 <= i < |names| && i != k
        ensures PlaceholdersIn(Sub(data, names[k], digests[k]), names[i]) == PlaceholdersIn(data, names[i])
        ensures PinsIn(Sub(data, names[k], digests[k]), names[i]) == PinsIn(data, names[i])
      {
        SubOther(data, names[k], digests[k], names[i]);
      }
      data := Sub(data, names[k], digests[k]);
    }
    return Some(data);
  }
}
