/**
  The body's provenance stamp: `stamp_body` (ccd/ccd-entry-install.py) as its writer, shared/mark.mjs as the other
  writer and the reader. `h` stands for the hex SHA-256.
*/
module Stamp {
  import opened Lines

  /** Sixty-four lower-case hexadecimal digits. */
  predicate Hex64(s: string) {
    |s| == 64 && forall c <- s :: c in "0123456789abcdef"
  }

  type Hash = string -> string

  ghost predicate HexDigests(h: Hash) {
    forall s :: Hex64(h(s))
  }

  const MARKER_PREFIX := "# ccrc:generated 1 sha256="

  const STAMP_PLACEHOLDER :=
    "# ccrc:stamp-at-install " + ['\U{2014}'] + " written into the installed copy by ccd/ccd-entry-install.py; never committed"

  predicate Shebang(line: string) {
    "#!" <= line
  }

  /** `MARKER_LINE.fullmatch`. */
  predicate Marker(line: string) {
    MARKER_PREFIX <= line && Hex64(line[|MARKER_PREFIX|..])
  }

  /** Where the marker goes: the second line after a shebang, else the first. */
  function MarkerIndex(lines: seq<string>): nat
    requires lines != []
  {
    if Shebang(lines[0]) then 1 else 0
  }

  function Remove(lines: seq<string>, i: nat): seq<string>
    requires i < |lines|
  {
    lines[..i] + lines[i + 1..]
  }

  function Insert(lines: seq<string>, i: nat, line: string): seq<string>
    requires i <= |lines|
  {
    lines[..i] + [line] + lines[i..]
  }

  predicate Replaced(line: string) {
    line == STAMP_PLACEHOLDER || Marker(line)
  }

  /** The lines without whatever stands at the marker's place. */
  function Stripped(lines: seq<string>): seq<string>
    requires lines != []
  {
    var i := MarkerIndex(lines);
    if i < |lines| && Replaced(lines[i]) then Remove(lines, i) else lines
  }

  function MarkerFor(h: Hash, lines: seq<string>): string {
    MARKER_PREFIX + h(Join(lines))
  }

  function StampLines(h: Hash, lines: seq<string>): seq<string>
    requires lines != []
  {
    Insert(Stripped(lines), MarkerIndex(lines), MarkerFor(h, Stripped(lines)))
  }

  function StampBody(h: Hash, data: string): string {
    Join(StampLines(h, Split(data)))
  }

  /** `stamp_body`, on its list of lines. */
  method Run(h: Hash, data: string) returns (stamped: string)
    ensures stamped == StampBody(h, data)
  {
    var lines := Split(data);
    var i := if "#!" <= lines[0] then 1 else 0;
    if i < |lines| && (lines[i] == STAMP_PLACEHOLDER || Marker(lines[i])) {
      lines := lines[..i] + lines[i + 1..];
    }
    lines := lines[..i] + [MARKER_PREFIX + h(Join(lines))] + lines[i..];
    stamped := Join(lines);
  }

  // ── shared/mark.mjs ───────────────────────────────────────────────────────────────────────────

  /** `stripMarkerLine`, on lines. */
  function StripMarker(lines: seq<string>): seq<string>
    requires lines != []
  {
    var i := MarkerIndex(lines);
    if i < |lines| && Marker(lines[i]) then Remove(lines, i) else lines
  }

  /** `markGenerated`. */
  function MarkGenerated(h: Hash, body: string): string {
    var stripped := Join(StripMarker(Split(body)));
    var lines := Split(stripped);
    Join(Insert(lines, MarkerIndex(lines), MARKER_PREFIX + h(stripped)))
  }

  datatype Verdict = Foreign | Unmodified | Edited

  /** `verifyMarker`. */
  function VerifyMarker(h: Hash, text: string): Verdict {
    var lines := Split(text);
    var i := MarkerIndex(lines);
    if i >= |lines| || !Marker(lines[i]) then Foreign
    else if h(Join(StripMarker(lines))) == lines[i][|MARKER_PREFIX|..] then Unmodified
    else Edited
  }

  // ── what a stamp keeps ────────────────────────────────────────────────────────────────────────

  lemma MarkerIsMarker(h: Hash, lines: seq<string>)
    requires HexDigests(h)
    ensures
      var m := MarkerFor(h, lines);
      Marker(m) && OneLine(m) && !Shebang(m) && m[|MARKER_PREFIX|..] == h(Join(lines))
  {
    var d := h(Join(lines));
    assert Hex64(d);
    var m := MarkerFor(h, lines);
    assert m[|MARKER_PREFIX|..] == d;
    assert m[1] == ' ';
    forall i | 0 <= i < |m| ensures m[i] != '\n' {
      if i >= |MARKER_PREFIX| {
        assert m[i] == d[i - |MARKER_PREFIX|];
        assert m[i] in d;
      }
    }
  }

  /** The stamped text's lines: the marker at its place over the very lines it is the hash of. */
  lemma Stamped(h: Hash, data: string)
    requires HexDigests(h)
    ensures
      var lines := Split(data);
      var i := MarkerIndex(lines);
      var s := Split(StampBody(h, data));
      && s == StampLines(h, lines)
      && MarkerIndex(s) == i && i < |s|
      && s[i] == MarkerFor(h, Stripped(lines))
      && Marker(s[i]) && Remove(s, i) == Stripped(lines) && Stripped(s) == Stripped(lines)
  {
    var lines := Split(data);
    MarkerIsMarker(h, Stripped(lines));
    var s := StampLines(h, lines);
    forall line <- s ensures OneLine(line) {
      if line != MarkerFor(h, Stripped(lines)) {
        assert line in Stripped(lines);
        assert line in lines;
      }
    }
    SplitJoin(s);
    var i := MarkerIndex(lines);
    if i == 1 {
      assert s[0] == lines[0];
    }
    assert Remove(s, i) == Stripped(lines);
  }

  /** Stamping a stamped body changes nothing. */
  lemma StampIsIdempotent(h: Hash, data: string)
    requires HexDigests(h)
    ensures StampBody(h, StampBody(h, data)) == StampBody(h, data)
  {
    Stamped(h, data);
  }

  /** The reader takes every stamped body for one nobody has edited. */
  lemma StampVerifies(h: Hash, data: string)
    requires HexDigests(h)
    ensures VerifyMarker(h, StampBody(h, data)) == Unmodified
  {
    Stamped(h, data);
    MarkerIsMarker(h, Stripped(Split(data)));
  }

  /** Where a placeholder or an older marker stands, the stamp takes its line and every other line keeps its number;
      elsewhere it adds one line. */
  lemma StampKeepsLines(h: Hash, data: string)
    requires HexDigests(h)
    ensures
      var lines := Split(data);
      var i := MarkerIndex(lines);
      var s := Split(StampBody(h, data));
      if i < |lines| && Replaced(lines[i]) then s == lines[i := MarkerFor(h, Remove(lines, i))]
      else s == Insert(lines, i, MarkerFor(h, lines))
  {
    Stamped(h, data);
  }

  /** Marking before a shebang is not marking after it. */
  lemma PlacesDiffer(h: Hash, lines: seq<string>)
    requires HexDigests(h) && lines != [] && (forall line <- lines :: OneLine(line)) && Shebang(lines[0])
    ensures
      var m := MarkerFor(h, lines);
      Join(Insert(lines, 0, m)) != Join(Insert(lines, 1, m))
  {
    var m := MarkerFor(h, lines);
    MarkerIsMarker(h, lines);
    var a, b := Insert(lines, 0, m), Insert(lines, 1, m);
    SplitJoin(a);
    SplitJoin(b);
    assert a[0] == m && b[0] == lines[0];
  }

  /** The two writers agree, byte for byte, on a body without the placeholder, if and only if dropping its first-line
      marker neither brings a shebang to the first line nor leaves no line at all. */
  lemma WritersAgreeIff(h: Hash, body: string)
    requires HexDigests(h)
    requires
      var lines := Split(body);
      MarkerIndex(lines) < |lines| ==> lines[MarkerIndex(lines)] != STAMP_PLACEHOLDER
    ensures
      var lines := Split(body);
      StampBody(h, body) == MarkGenerated(h, body) <==> !(Marker(lines[0]) && (|lines| == 1 || Shebang(lines[1])))
  {
    var lines := Split(body);
    var rest := StripMarker(lines);
    StrippedShape(lines);
    SplitJoin(rest);
    if rest == [] {
      OnlyMarker(h);
    } else if MarkerIndex(lines) != MarkerIndex(rest) {
      PlacesDiffer(h, rest);
    }
  }

  /** Dropping the marker moves the marker's place exactly when it brings a shebang to the first line. */
  lemma StrippedShape(lines: seq<string>)
    requires lines != [] && (MarkerIndex(lines) < |lines| ==> lines[MarkerIndex(lines)] != STAMP_PLACEHOLDER)
    ensures
      var rest := StripMarker(lines);
      && rest == Stripped(lines)
      && (rest == [] <==> |lines| == 1 && Marker(lines[0]))
      && (rest != [] && MarkerIndex(lines) != MarkerIndex(rest) <==> |lines| > 1 && Marker(lines[0]) && Shebang(lines[1]))
      && (rest != [] && MarkerIndex(lines) != MarkerIndex(rest) ==> MarkerIndex(lines) == 0)
      && (rest == [] ==> MarkerIndex(lines) == 0)
  {
    assert Marker(lines[0]) ==> !Shebang(lines[0]) by {
      if Marker(lines[0]) {
        assert lines[0][1] == MARKER_PREFIX[1] == ' ';
      }
    }
  }

  lemma OnlyMarker(h: Hash)
    requires HexDigests(h)
    ensures
      var m := MarkerFor(h, []);
      Join(Insert([], 0, m)) != Join(Insert([""], 0, m))
  {
    var m := MarkerFor(h, []);
    assert Insert([], 0, m) == [m];
    assert Insert([""], 0, m) == [m, ""];
    assert |Join([m, ""])| == |m| + 1;
  }
}
