/** The observed epoch of a terminated document (shared/agent-protocol.ts `parseObservedEpochDoc`). */
module EpochDoc {
  import opened Wrappers
  import opened Lines

  /** What ends a line for a regular expression with the `m` flag: not the newline alone. */
  predicate JsBreak(c: char) {
    c == '\n' || c == '\r' || c == 0x2028 as char || c == 0x2029 as char
  }

  function JsLines(s: string): (lines: seq<string>)
    ensures lines != []
  {
    if s == [] then [""]
    else
      var rest := JsLines(s[1..]);
      if JsBreak(s[0]) then [""] + rest else [[s[0]] + rest[0]] + rest[1..]
  }

  /** `EPOCH_KEYED_LINE_RE`. */
  predicate Keyed(line: string) {
    line == "epoch" || "epoch " <= line
  }

  /** `OBSERVED_EPOCH_NUM`. */
  predicate Num(s: string) {
    s != [] && (forall i | 0 <= i < |s| :: '0' <= s[i] <= '9') && (|s| > 1 ==> s[0] != '0')
  }

  function KeyedLines(lines: seq<string>): seq<string> {
    if lines == [] then [] else (if Keyed(lines[0]) then [lines[0]] else []) + KeyedLines(lines[1..])
  }

  /** The text without its one trailing newline. */
  function Stripped(text: string): string {
    if text != [] && text[|text| - 1] == '\n' then text[..|text| - 1] else text
  }

  function LastLine(text: string): string {
    Split(text)[|Split(text)| - 1]
  }

  predicate Terminated(text: string) {
    LastLine(Stripped(text)) == "end"
  }

  /** The epoch the document proves, when it proves one. `number` is JavaScript's `Number` of a digit string and `print`
      its `String` of a number. */
  function Parse<N(==)>(text: string, number: string -> N, spell: N -> string): Option<N> {
    if !Terminated(text) then None
    else
      var keyed := KeyedLines(JsLines(text));
      if |keyed| != 1 then None
      else
        var line := keyed[0];
        if !("epoch " <= line) || !Num(line[6..]) || spell(number(line[6..])) != line[6..] then None
        else Some(number(line[6..]))
  }

  /** How many lines are keyed `epoch`. */
  function KeyedIn(lines: seq<string>): nat {
    if lines == [] then 0 else (if Keyed(lines[0]) then 1 else 0) + KeyedIn(lines[1..])
  }

  lemma {:induction false} KeyedCount(lines: seq<string>)
    ensures |KeyedLines(lines)| == KeyedIn(lines)
    ensures forall line <- KeyedLines(lines) :: line in lines && Keyed(line)
    ensures forall line <- lines | Keyed(line) :: line in KeyedLines(lines)
  {
    if lines != [] {
      KeyedCount(lines[1..]);
    }
  }

  /** A document answers a number exactly when it is terminated, one of its lines alone is keyed `epoch`, and that line
      is the key, a space and the very digits the number prints as. */
  lemma AnswersIff<N(!new)>(text: string, number: string -> N, spell: N -> string, n: N)
    ensures Parse(text, number, spell) == Some(n) <==>
              && Terminated(text) && KeyedIn(JsLines(text)) == 1
              && "epoch " + spell(n) in JsLines(text) && Num(spell(n)) && number(spell(n)) == n
  {
    var lines := JsLines(text);
    KeyedCount(lines);
    var line := "epoch " + spell(n);
    assert "epoch " <= line && line[6..] == spell(n);
    if KeyedIn(lines) == 1 {
      var only := KeyedLines(lines)[0];
      assert KeyedLines(lines) == [only];
      assert "epoch " <= only ==> only == "epoch " + only[6..];
    }
  }

  /** Two documents that answer one number hold the same epoch line: rounding never makes one epoch pass for another. */
  lemma EpochsAreTold<N(!new)>(a: string, b: string, number: string -> N, spell: N -> string)
    requires Parse(a, number, spell).Some? && Parse(a, number, spell) == Parse(b, number, spell)
    ensures
      var line := "epoch " + spell(Parse(a, number, spell).value);
      line in JsLines(a) && line in JsLines(b)
  {
    var n := Parse(a, number, spell).value;
    AnswersIff(a, number, spell, n);
    AnswersIff(b, number, spell, n);
  }

  // ── a document cut short ──────────────────────────────────────────────────────────────────────

  /** A document as it is written: lines, the last of them `end`, and a newline after each. */
  function Doc(lines: seq<string>): string {
    Join(lines + ["end"]) + "\n"
  }

  lemma {:induction false} JoinNewline(lines: seq<string>)
    requires lines != []
    ensures Join(lines + [""]) == Join(lines) + "\n"
  {
    if |lines| == 1 {
      assert lines + [""] == [lines[0], ""];
      assert [lines[0], ""][1..] == [""];
    } else {
      JoinNewline(lines[1..]);
      assert (lines + [""])[1..] == lines[1..] + [""];
    }
  }

  /** A text cut short is some of its lines whole and part of the next. */
  lemma {:induction false} CutLines(all: seq<string>, j: nat) returns (k: nat, part: string)
    requires all != [] && j <= |Join(all)|
    ensures k < |all| && part <= all[k] && Join(all)[..j] == Join(all[..k] + [part])
  {
    if j <= |all[0]| {
      k, part := 0, all[0][..j];
      assert all[..0] + [part] == [part];
      assert all[0] <= Join(all);
    } else {
      k, part := CutLines(all[1..], j - |all[0]| - 1);
      CutLater(all, j, k, part);
      k := k + 1;
    }
  }

  lemma CutLater(all: seq<string>, j: nat, k: nat, part: string)
    requires |all| > 1 && |all[0]| < j <= |Join(all)| && k < |all| - 1
    requires Join(all[1..])[..j - |all[0]| - 1] == Join(all[1..][..k] + [part])
    ensures Join(all)[..j] == Join(all[..k + 1] + [part])
  {
    var front, rest := all[0] + "\n", Join(all[1..]);
    var kept := all[1..][..k] + [part];
    assert all[..k + 1] + [part] == [all[0]] + kept;
    assert ([all[0]] + kept)[1..] == kept;
    assert (front + rest)[..j] == front + rest[..j - |front|];
  }

  /** The terminator of a text, told by its lines. */
  lemma TerminatedByLines(whole: seq<string>, part: string)
    requires OneLine(part) && forall line <- whole :: OneLine(line)
    ensures Terminated(Join(whole + [part])) <==>
              part == "end" || (part == "" && whole != [] && whole[|whole| - 1] == "end")
  {
    var text := Join(whole + [part]);
    SplitJoin(whole + [part]);
    if part == "" && whole != [] {
      JoinNewline(whole);
      assert text == Join(whole) + "\n";
      assert Stripped(text) == Join(whole);
      SplitJoin(whole);
    } else {
      EndsLike(whole, part);
    }
  }

  /** A text whose last line is not empty does not end in a newline. */
  lemma {:induction false} EndsLike(whole: seq<string>, part: string)
    requires OneLine(part) && (part != "" || whole == [])
    ensures Stripped(Join(whole + [part])) == Join(whole + [part])
  {
    if whole == [] {
      assert whole + [part] == [part];
    } else {
      EndsLike(whole[1..], part);
      assert (whole + [part])[1..] == whole[1..] + [part];
      var rest := Join(whole[1..] + [part]);
      NotEmpty(whole[1..], part);
      assert Join(whole + [part]) == whole[0] + "\n" + rest;
    }
  }

  lemma NotEmpty(whole: seq<string>, part: string)
    requires part != ""
    ensures Join(whole + [part]) != ""
  {
    if whole == [] {
      assert whole + [part] == [part];
    }
  }

  /** The part of `lines` before one that begins with `end`, and those three letters. */
  function CutAt(lines: seq<string>, k: nat): string
    requires k < |lines|
  {
    Join(lines[..k] + ["end"])
  }

  /** A strict prefix of a document, but the one that lacks only the final newline, passes for terminated only if some
      line before the last begins with `end`. */
  lemma CutIsRefused(lines: seq<string>, j: nat)
    requires (forall line <- lines :: OneLine(line) && !("end" <= line)) && j < |Doc(lines)| - 1
    ensures !Terminated(Doc(lines)[..j])
  {
    var all := lines + ["end"];
    assert Doc(lines)[..j] == Join(all)[..j];
    var k, part := CutLines(all, j);
    assert all[..|lines|] + ["end"] == all;
    PartIsNoEnd(lines, k, part);
  }

  lemma PartIsNoEnd(lines: seq<string>, k: nat, part: string)
    requires forall line <- lines :: OneLine(line) && !("end" <= line)
    requires k <= |lines| && part <= (lines + ["end"])[k] && (k == |lines| ==> part != "end")
    ensures !Terminated(Join((lines + ["end"])[..k] + [part]))
  {
    var line := (lines + ["end"])[k];
    assert OneLine(line) && (k < |lines| ==> !("end" <= line)) by {
      if k < |lines| {
        assert line == lines[k];
      }
    }
    assert OneLine(part) by {
      assert forall i | 0 <= i < |part| :: part[i] == line[i];
    }
    var whole := (lines + ["end"])[..k];
    assert whole == lines[..k];
    forall l <- whole ensures OneLine(l) && l != "end" {
      assert l in lines;
    }
    assert whole != [] ==> whole[|whole| - 1] in whole;
    TerminatedByLines(whole, part);
  }

  /** And it is exact: where a line does begin with `end`, the document cut right after those letters passes. */
  lemma CutPassesAt(lines: seq<string>, k: nat)
    requires (forall line <- lines :: OneLine(line)) && k < |lines| && "end" <= lines[k]
    ensures Terminated(CutAt(lines, k)) && CutAt(lines, k) <= Doc(lines) && |CutAt(lines, k)| < |Doc(lines)| - 1
  {
    forall line <- lines[..k] ensures OneLine(line) {
      assert line in lines;
    }
    TerminatedByLines(lines[..k], "end");
    CutIsPrefix(lines, k);
  }

  lemma {:induction false} CutIsPrefix(lines: seq<string>, k: nat)
    requires k < |lines| && "end" <= lines[k]
    ensures CutAt(lines, k) <= Join(lines + ["end"]) && |CutAt(lines, k)| < |Join(lines + ["end"])|
  {
    var all := lines + ["end"];
    assert all[1..] == lines[1..] + ["end"];
    if k == 0 {
      assert lines[..0] + ["end"] == ["end"];
      assert Join(all) == lines[0] + "\n" + Join(all[1..]);
    } else {
      CutIsPrefix(lines[1..], k - 1);
      var cut := lines[..k] + ["end"];
      assert cut[1..] == lines[1..][..k - 1] + ["end"];
      assert cut[0] == lines[0] && all[0] == lines[0];
      assert Join(cut) == lines[0] + "\n" + CutAt(lines[1..], k - 1);
      assert Join(all) == lines[0] + "\n" + Join(all[1..]);
    }
  }

  /** So a fragment of a document none of whose other lines begins with `end` is never read as an epoch. */
  lemma FragmentIsRefused<N>(lines: seq<string>, j: nat, number: string -> N, spell: N -> string)
    requires (forall line <- lines :: OneLine(line) && !("end" <= line)) && j < |Doc(lines)| - 1
    ensures Parse(Doc(lines)[..j], number, spell).None?
  {
    CutIsRefused(lines, j);
  }
}
