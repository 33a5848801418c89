/** A text as its lines: `data.split(b'\n')` and `b'\n'.join(lines)`. */
module Lines {

  predicate OneLine(s: string) {
    '\n' !in s
  }

  /** Every text has at least one line; the last is empty when the text ends in a newline. */
  function Split(s: string): (lines: seq<string>)
    ensures lines != [] && forall line <- lines :: OneLine(line)
  {
    if s == [] then [""]
    else
      var rest := Split(s[1..]);
      assert OneLine(rest[0]);
      if s[0] == '\n' then [""] + rest else [[s[0]] + rest[0]] + rest[1..]
  }

  function Join(lines: seq<string>): string {
    if lines == [] then ""
    else if |lines| == 1 then lines[0]
    else lines[0] + "\n" + Join(lines[1..])
  }

  lemma {:induction false} JoinSplit(s: string)
    ensures Join(Split(s)) == s
  {
    if s != [] {
      JoinSplit(s[1..]);
      var rest := Split(s[1..]);
      if s[0] == '\n' {
        assert ([""] + rest)[1..] == rest;
        assert [""] + rest != [""];
        assert s == "" + "\n" + s[1..];
      } else {
        var lines := [[s[0]] + rest[0]] + rest[1..];
        assert s == [s[0]] + s[1..];
        if |rest| > 1 {
          assert lines[1..] == rest[1..];
          assert Join(lines) == ([s[0]] + rest[0]) + "\n" + Join(rest[1..]);
          assert Join(rest) == rest[0] + "\n" + Join(rest[1..]);
          assert ([s[0]] + rest[0]) + "\n" + Join(rest[1..]) == [s[0]] + (rest[0] + "\n" + Join(rest[1..]));
        }
      }
    }
  }

  lemma {:induction false} SplitLine(line: string)
    requires OneLine(line)
    ensures Split(line) == [line]
  {
    if line != [] {
      SplitLine(line[1..]);
      assert line == [line[0]] + line[1..];
    }
  }

  lemma {:induction false} SplitCons(line: string, rest: string)
    requires OneLine(line)
    ensures Split(line + "\n" + rest) == [line] + Split(rest)
  {
    var s := line + "\n" + rest;
    if line == [] {
      assert s[1..] == rest;
    } else {
      SplitCons(line[1..], rest);
      assert s[1..] == line[1..] + "\n" + rest;
      assert line == [line[0]] + line[1..];
      assert ([line[1..]] + Split(rest))[1..] == Split(rest);
    }
  }

  /** Lines joined and split again are the same lines; no lines at all read back as one empty one. */
  lemma {:induction false} SplitJoin(lines: seq<string>)
    requires forall line <- lines :: OneLine(line)
    ensures Split(Join(lines)) == if lines == [] then [""] else lines
  {
    if |lines| == 1 {
      SplitLine(lines[0]);
      assert lines == [lines[0]];
    } else if |lines| > 1 {
      SplitCons(lines[0], Join(lines[1..]));
      SplitJoin(lines[1..]);
      assert lines == [lines[0]] + lines[1..];
    }
  }
}
