/** The chunked request body (section 4.1 of RFC 7230) as ccd/ccgpt-proxy.py decodes it, a byte a character. */
module ChunkedBody {
  import opened Wrappers

  const LINE_MAX: nat := 65537

  // ── int(token, 16) ────────────────────────────────────────────────────────────────────────────

  predicate HexDigit(c: char) {
    '0' <= c <= '9' || 'a' <= c <= 'f' || 'A' <= c <= 'F'
  }

  function DigitValue(c: char): nat
    requires HexDigit(c)
  {
    if c <= '9' then (c - '0') as nat
    else if c <= 'F' then (c - 'A') as nat + 10
    else (c - 'a') as nat + 10
  }

  lemma HexDigitIff(c: char)
    ensures HexDigit(c) <==> c in "0123456789abcdef" || c in "0123456789ABCDEF"
    ensures HexDigit(c) ==> DigitValue(c) < 16 && c in ["0123456789abcdef"[DigitValue(c)], "0123456789ABCDEF"[DigitValue(c)]]
  {
    var lower, upper := "0123456789abcdef", "0123456789ABCDEF";
    if HexDigit(c) {
      var n := DigitValue(c);
      assert lower[n] in lower && upper[n] in upper;
    }
  }

  /** Digits read on after `sofar`, single underscores between them, none at the end. */
  function Digits(t: string, sofar: nat): Option<nat> {
    if t == [] then Some(sofar)
    else if HexDigit(t[0]) then Digits(t[1..], 16 * sofar + DigitValue(t[0]))
    else if t[0] == '_' && |t| > 1 && HexDigit(t[1]) then Digits(t[2..], 16 * sofar + DigitValue(t[1]))
    else None
  }

  /** What follows the sign: an optional `0x`, then one underscore at most, then digits. */
  function Magnitude(t: string): Option<nat> {
    var prefixed := |t| >= 2 && t[0] == '0' && (t[1] == 'x' || t[1] == 'X');
    var u := if !prefixed then t else if |t| > 2 && t[2] == '_' then t[3..] else t[2..];
    if u == [] || !HexDigit(u[0]) then None else Digits(u, 0)
  }

  function ParseHex(t: string): Option<int> {
    if t == [] then None
    else if t[0] == '-' then
      var m := Magnitude(t[1..]);
      if m.None? then None
      else
        var size: int := m.value;
        Some(-size)
    else
      var m := Magnitude(if t[0] == '+' then t[1..] else t);
      if m.Some? then Some(m.value) else None
  }

  predicate Space(c: char) {
    c in {' ', '\t', '\n', '\r', 11 as char, 12 as char}
  }

  function StripLeft(s: string): string {
    if s != [] && Space(s[0]) then StripLeft(s[1..]) else s
  }

  function StripRight(s: string): string {
    if s != [] && Space(s[|s| - 1]) then StripRight(s[..|s| - 1]) else s
  }

  /** `line.split(b";", 1)[0]`. */
  function BeforeSemicolon(s: string): string {
    if s == [] || s[0] == ';' then [] else [s[0]] + BeforeSemicolon(s[1..])
  }

  /** The size a chunk-size line gives. */
  function SizeOf(line: string): Option<int> {
    ParseHex(StripRight(StripLeft(BeforeSemicolon(line))))
  }

  // ── the stream ────────────────────────────────────────────────────────────────────────────────

  /** How much `readline(max)` takes: through the first newline, at most `max`, at most everything. */
  function LineLength(s: string, max: nat): (n: nat)
    ensures n <= |s| && n <= max
    ensures n == 0 <==> s == [] || max == 0
  {
    if s == [] || max == 0 then 0 else if s[0] == '\n' then 1 else 1 + LineLength(s[1..], max - 1)
  }

  class Reader {
    var rest: string

    constructor (s: string)
      ensures rest == s
    {
      rest := s;
    }

    method ReadLine(max: nat) returns (line: string)
      modifies this
      ensures
        var n := LineLength(old(rest), max);
        line == old(rest)[..n] && rest == old(rest)[n..]
    {
      var n := 0;
      while n < |rest| && n < max && (n == 0 || rest[n - 1] != '\n')
        invariant n <= |rest| && n <= max
        invariant LineLength(rest, max) ==
                  n + if n > 0 && rest[n - 1] == '\n' then 0 else LineLength(rest[n..], max - n)
      {
        assert rest[n..][1..] == rest[n + 1..];
        n := n + 1;
      }
      line, rest := rest[..n], rest[n..];
    }

    method Read(size: nat) returns (data: string)
      modifies this
      ensures
        var n := if size <= |old(rest)| then size else |old(rest)|;
        data == old(rest)[..n] && rest == old(rest)[n..]
    {
      var n := if size <= |rest| then size else |rest|;
      data, rest := rest[..n], rest[n..];
    }
  }

  // ── the decoder ───────────────────────────────────────────────────────────────────────────────

  predicate Blank(line: string) {
    line == "\r\n" || line == "\n"
  }

  /** What follows the blank line that closes the trailers; `None` where the stream ends before it. */
  function AfterTrailers(s: string): (rest: Option<string>)
    ensures rest.Some? ==> |rest.value| < |s|
    decreases |s|
  {
    if s == [] then None
    else
      var n := LineLength(s, LINE_MAX);
      if Blank(s[..n]) then Some(s[n..]) else AfterTrailers(s[n..])
  }

  /** The size the chunk-size line in front gives; `None` where reading it raises. */
  function HeadOf(s: string): (size: Option<nat>)
    ensures size.Some? ==> s != []
  {
    if s == [] then None
    else
      var size := SizeOf(s[..LineLength(s, LINE_MAX)]);
      if size.None? || size.value < 0 then None else Some(size.value)
  }

  datatype Decoded = Decoded(body: string, rest: string)

  /** The body, and what is left unread; `None` where the decoder raises. */
  function Decode(s: string): (d: Option<Decoded>)
    ensures d.Some? ==> |d.value.rest| < |s|
    decreases |s|
  {
    var size := HeadOf(s);
    if size.None? then None
    else AfterHead(s[LineLength(s, LINE_MAX)..], size.value)
  }

  function AfterHead(s: string, size: nat): (d: Option<Decoded>)
    ensures d.Some? ==> |d.value.rest| < |s|
    decreases |s|, 1
  {
    if size > 0 then AfterChunk(s, size)
    else
      var rest := AfterTrailers(s);
      if rest.Some? then Some(Decoded("", rest.value)) else None
  }

  function AfterChunk(s: string, size: nat): (d: Option<Decoded>)
    ensures d.Some? ==> |d.value.rest| < |s|
    decreases |s|, 0
  {
    if |s| < size + 2 || s[size..size + 2] != "\r\n" then None
    else
      var d := Decode(s[size + 2..]);
      if d.Some? then Some(Decoded(s[..size] + d.value.body, d.value.rest)) else None
  }

  function Concat(chunks: seq<string>): string {
    if chunks == [] then "" else Concat(chunks[..|chunks| - 1]) + chunks[|chunks| - 1]
  }

  /** What the whole read answers, `sofar` read already. */
  function Onto(sofar: string, d: Option<Decoded>): Option<Decoded> {
    if d.Some? then Some(Decoded(sofar + d.value.body, d.value.rest)) else None
  }

  method DrainTrailers(rfile: Reader) returns (ok: bool)
    modifies rfile
    ensures ok <==> AfterTrailers(old(rfile.rest)).Some?
    ensures ok ==> rfile.rest == AfterTrailers(old(rfile.rest)).value
  {
    while true
      invariant AfterTrailers(rfile.rest) == AfterTrailers(old(rfile.rest))
      decreases |rfile.rest|
    {
      var line := rfile.ReadLine(LINE_MAX);
      if line == [] {
        return false;
      }
      if Blank(line) {
        return true;
      }
    }
  }

  /** One chunk-size line. */
  method ReadHead(rfile: Reader) returns (size: Option<nat>)
    modifies rfile
    ensures size == HeadOf(old(rfile.rest))
    ensures size.Some? ==> rfile.rest == old(rfile.rest)[LineLength(old(rfile.rest), LINE_MAX)..]
  {
    var line := rfile.ReadLine(LINE_MAX);
    if line == [] {
      return None;
    }
    var parsed := SizeOf(line);
    if parsed.None? || parsed.value < 0 {
      return None;
    }
    return Some(parsed.value);
  }

  /** The data of one chunk and the CRLF after it. */
  method ReadChunk(rfile: Reader, size: nat) returns (chunk: Option<string>)
    requires size > 0
    modifies rfile
    ensures
      var s := old(rfile.rest);
      if |s| < size + 2 || s[size..size + 2] != "\r\n" then chunk.None?
      else chunk == Some(s[..size]) && rfile.rest == s[size + 2..]
  {
    var data := rfile.Read(size);
    if |data| != size {
      return None;
    }
    var crlf := rfile.Read(2);
    return if crlf == "\r\n" then Some(data) else None;
  }

  lemma OntoNothing(d: Option<Decoded>)
    ensures Onto("", d) == d
  {
    if d.Some? {
      assert "" + d.value.body == d.value.body;
    }
  }

  lemma OntoMore(chunks: seq<string>, chunk: string, d: Option<Decoded>)
    ensures Onto(Concat(chunks), Onto(chunk, d)) == Onto(Concat(chunks + [chunk]), d)
  {
    assert (chunks + [chunk])[..|chunks|] == chunks;
    if d.Some? {
      assert Concat(chunks) + (chunk + d.value.body) == (Concat(chunks) + chunk) + d.value.body;
    }
  }

  /** `_read_chunked_body`; `None` where it raises. */
  method ReadChunkedBody(rfile: Reader) returns (body: Option<string>)
    modifies rfile
    ensures body.Some? <==> Decode(old(rfile.rest)).Some?
    ensures body.Some? ==> Decode(old(rfile.rest)) == Some(Decoded(body.value, rfile.rest))
  {
    var chunks: seq<string> := [];
    OntoNothing(Decode(rfile.rest));
    while true
      invariant Decode(old(rfile.rest)) == Onto(Concat(chunks), Decode(rfile.rest))
      decreases |rfile.rest|
    {
      ghost var before := rfile.rest;
      var size := ReadHead(rfile);
      if size.None? {
        assert Decode(before).None?;
        return None;
      }
      assert Decode(before) == AfterHead(rfile.rest, size.value);
      if size.value == 0 {
        assert Concat(chunks) + "" == Concat(chunks);
        var ok := DrainTrailers(rfile);
        return if ok then Some(Concat(chunks)) else None;
      }
      ghost var s := rfile.rest;
      var chunk := ReadChunk(rfile, size.value);
      if chunk.None? {
        assert AfterChunk(s, size.value).None?;
        return None;
      }
      assert AfterChunk(s, size.value) == Onto(chunk.value, Decode(rfile.rest));
      OntoMore(chunks, chunk.value, Decode(rfile.rest));
      chunks := chunks + [chunk.value];
    }
  }

  // ── an accepted body ends where it says ───────────────────────────────────────────────────────

  /** `x` is one line as `readline` takes it, ended by its newline or at the bound. */
  predicate Line(x: string) {
    x != [] && LineLength(x, LINE_MAX) == |x| && (x[|x| - 1] == '\n' || |x| == LINE_MAX)
  }

  /** A line that has ended is the same line whatever follows it. */
  lemma LineIs(x: string, y: string)
    requires Line(x)
    ensures LineLength(x + y, LINE_MAX) == |x| && (x + y)[..|x|] == x && (x + y)[|x|..] == y
  {
    LineIsFound(x, y, LINE_MAX);
  }

  lemma {:induction false} LineIsFound(s: string, t: string, max: nat)
    requires max > 0
    ensures
      var n := LineLength(s, max);
      && (n > 0 && (s[n - 1] == '\n' || n == max) ==> LineLength(s + t, max) == n)
      && (n > 0 && !(s[n - 1] == '\n' || n == max) ==> n == |s|)
  {
    if s != [] && s[0] != '\n' && max > 1 {
      LineIsFound(s[1..], t, max - 1);
      assert (s + t)[1..] == s[1..] + t;
    }
  }

  /** Cut short inside the line, the line is all there is. */
  lemma {:induction false} LineCut(s: string, k: nat, max: nat)
    requires k <= LineLength(s, max)
    ensures LineLength(s[..k], max) == k
  {
    if k > 0 {
      if s[0] != '\n' {
        LineCut(s[1..], k - 1, max - 1);
        assert s[..k][1..] == s[1..][..k - 1];
      }
    }
  }

  /** The first line of a stream: a line that has ended, or all there is. */
  lemma FirstLine(s: string)
    requires s != []
    ensures
      var n := LineLength(s, LINE_MAX);
      Line(s[..n]) || (n == |s| && s[n - 1] != '\n')
  {
    var n := LineLength(s, LINE_MAX);
    LineIsFound(s, "", LINE_MAX);
    LineCut(s, n, LINE_MAX);
  }

  lemma {:induction false} NoNewlineBefore(s: string, i: nat, max: nat)
    requires i + 1 < LineLength(s, max)
    ensures s[i] != '\n'
  {
    if i > 0 {
      NoNewlineBefore(s[1..], i - 1, max - 1);
    }
  }

  /** A line cut short holds no newline, and is then all there is to read. */
  lemma PartialLine(x: string, j: nat)
    requires Line(x) && 0 < j < |x|
    ensures LineLength(x[..j], LINE_MAX) == j && x[j - 1] != '\n' && !Blank(x[..j])
  {
    LineCut(x, j, LINE_MAX);
    NoNewlineBefore(x, j - 1, LINE_MAX);
    assert x[..j][j - 1] == x[j - 1];
  }

  lemma TrailersStay(x: string, y: string)
    requires Line(x)
    ensures AfterTrailers(x + y) == if Blank(x) then Some(y) else AfterTrailers(y)
  {
    LineIs(x, y);
  }

  /** The trailers: nothing but the lines up to the blank one is used, and every cut of them is refused. */
  lemma {:induction false} TrailersKept(a: string, rest: string, t: string)
    requires AfterTrailers(a + rest) == Some(rest)
    ensures AfterTrailers(a + t) == Some(t)
    decreases |a|
  {
    var x, a' := TrailerLine(a, rest);
    TrailersStay(x, a' + t);
    assert x + (a' + t) == a + t;
    if Blank(x) {
      assert a' + t == t;
    } else {
      TrailersKept(a', rest, t);
    }
  }

  lemma TrailerHead(s: string)
    requires AfterTrailers(s).Some?
    ensures
      var n := LineLength(s, LINE_MAX);
      && Line(s[..n]) && n + |AfterTrailers(s).value| <= |s|
      && AfterTrailers(s) == if Blank(s[..n]) then Some(s[n..]) else AfterTrailers(s[n..])
  {
    FirstLine(s);
    var n := LineLength(s, LINE_MAX);
    if Blank(s[..n]) {
      assert s[..n][n - 1] == '\n';
    }
  }

  lemma Halves(a: string, rest: string, n: nat)
    requires n <= |a|
    ensures a == a[..n] + a[n..] && (a + rest)[..n] == a[..n] && (a + rest)[n..] == a[n..] + rest
  {
  }

  /** The first line of trailers that are whole. */
  lemma TrailerLine(a: string, rest: string) returns (x: string, a': string)
    requires AfterTrailers(a + rest) == Some(rest)
    ensures a == x + a' && Line(x)
    ensures if Blank(x) then a' == [] else AfterTrailers(a' + rest) == Some(rest)
  {
    var n := LineLength(a + rest, LINE_MAX);
    TrailerHead(a + rest);
    Halves(a, rest, n);
    x, a' := a[..n], a[n..];
    assert Blank(x) ==> |a' + rest| == |rest|;
  }

  lemma {:induction false} TrailersCut(a: string, rest: string, j: nat)
    requires AfterTrailers(a + rest) == Some(rest) && j < |a|
    ensures AfterTrailers(a[..j]).None?
    decreases |a|
  {
    var x, a' := TrailerLine(a, rest);
    if j == 0 {
    } else if j < |x| {
      PartialLine(x, j);
      assert a[..j] == x[..j] && x[..j][..j] == x[..j];
    } else {
      TrailersStay(x, a'[..j - |x|]);
      assert a[..j] == x + a'[..j - |x|];
      TrailersCut(a', rest, j - |x|);
    }
  }

  /** The chunk-size line in front of a body that decodes. */
  lemma HeadLine(a: string, body: string, rest: string) returns (x: string, a': string)
    requires Decode(a + rest) == Some(Decoded(body, rest))
    ensures a == x + a' && Line(x) && HeadOf(a + rest) == HeadOf(x) && HeadOf(x).Some?
    ensures
      if HeadOf(x).value == 0 then body == "" && AfterTrailers(a' + rest) == Some(rest)
      else AfterChunk(a' + rest, HeadOf(x).value) == Some(Decoded(body, rest))
  {
    var s := a + rest;
    var n := LineLength(s, LINE_MAX);
    HeadOfBody(s);
    x, a' := a[..n], a[n..];
    assert s[..n] == x;
    assert s[n..] == a' + rest;
  }

  /** A body that decodes begins with a size line, and what it answers is what follows that line. */
  lemma HeadOfBody(s: string)
    requires Decode(s).Some?
    ensures
      var n := LineLength(s, LINE_MAX);
      && Line(s[..n]) && HeadOf(s[..n]) == HeadOf(s) && HeadOf(s).Some?
      && Decode(s) == AfterHead(s[n..], HeadOf(s).value) && n + |Decode(s).value.rest| < |s|
  {
    FirstLine(s);
    NothingAfter(s);
    var x := s[..LineLength(s, LINE_MAX)];
    assert x[..|x|] == x;
  }

  /** The data, the CRLF and the chunks after it. */
  lemma ChunkAt(a: string, size: nat, body: string, rest: string) returns (data: string, a': string, body': string)
    requires size > 0 && AfterChunk(a + rest, size) == Some(Decoded(body, rest))
    ensures a == data + "\r\n" + a' && |data| == size && body == data + body'
    ensures Decode(a' + rest) == Some(Decoded(body', rest))
  {
    var s := a + rest;
    var d := Decode(s[size + 2..]);
    assert |a| >= size + 2;
    data, a', body' := a[..size], a[size + 2..], d.value.body;
    assert s[size + 2..] == a' + rest;
    assert s[..size] == data;
    assert s[size..size + 2] == a[size..size + 2];
  }

  lemma HeadStays(x: string, y: string)
    requires Line(x)
    ensures HeadOf(x + y) == HeadOf(x)
    ensures HeadOf(x).Some? ==> Decode(x + y) == AfterHead(y, HeadOf(x).value)
  {
    LineIs(x, y);
    assert x[..|x|] == x;
  }

  lemma ChunkStays(data: string, y: string)
    requires data != []
    ensures AfterChunk(data + "\r\n" + y, |data|) == Onto(data, Decode(y))
  {
    var s := data + "\r\n" + y;
    assert s[..|data|] == data;
    assert s[|data|..|data| + 2] == "\r\n";
    assert s[|data| + 2..] == y;
  }

  /** A body that decodes is used up to where it ends and no further: whatever follows it is left unread. */
  lemma {:induction false} RestIsUnread(a: string, body: string, rest: string, t: string)
    requires Decode(a + rest) == Some(Decoded(body, rest))
    ensures Decode(a + t) == Some(Decoded(body, t))
    decreases |a|
  {
    var x, a' := HeadLine(a, body, rest);
    HeadStays(x, a' + t);
    assert x + (a' + t) == a + t;
    if HeadOf(x).value == 0 {
      TrailersKept(a', rest, t);
    } else {
      ChunkRestIsUnread(a', HeadOf(x).value, body, rest, t);
    }
  }

  lemma Regroup(data: string, a: string, t: string)
    ensures data + "\r\n" + (a + t) == data + "\r\n" + a + t
  {
  }

  lemma ChunkRestIsUnread(a: string, size: nat, body: string, rest: string, t: string)
    requires size > 0 && AfterChunk(a + rest, size) == Some(Decoded(body, rest))
    ensures AfterChunk(a + t, size) == Some(Decoded(body, t))
    decreases |a|, 0
  {
    var data, a', body' := ChunkAt(a, size, body, rest);
    RestIsUnread(a', body', rest, t);
    ChunkStays(data, a' + t);
    Regroup(data, a', t);
  }

  /** And no part of it short of that end decodes: a truncated body is never returned. */
  lemma {:induction false} TruncatedIsRefused(a: string, body: string, rest: string, j: nat)
    requires Decode(a + rest) == Some(Decoded(body, rest)) && j < |a|
    ensures Decode(a[..j]).None?
    decreases |a|
  {
    var x, a' := HeadLine(a, body, rest);
    if j == 0 {
    } else if j < |x| {
      PartialLine(x, j);
      assert a[..j] == x[..j];
      NothingAfter(a[..j]);
    } else {
      var k := j - |x|;
      HeadStays(x, a'[..k]);
      assert a[..j] == x + a'[..k];
      if HeadOf(x).value == 0 {
        TrailersCut(a', rest, k);
      } else {
        CutInChunk(a', HeadOf(x).value, body, rest, k);
      }
    }
  }

  lemma CutInChunk(a: string, size: nat, body: string, rest: string, k: nat)
    requires size > 0 && AfterChunk(a + rest, size) == Some(Decoded(body, rest)) && k < |a|
    ensures AfterChunk(a[..k], size).None?
    decreases |a|, 0
  {
    if k >= size + 2 {
      var data, a', body' := ChunkAt(a, size, body, rest);
      assert a[..k] == data + "\r\n" + a'[..k - size - 2];
      TruncatedIsRefused(a', body', rest, k - size - 2);
      ChunkStays(data, a'[..k - size - 2]);
    }
  }

  /** A stream that is one line and no more is no body. */
  lemma NothingAfter(s: string)
    ensures LineLength(s, LINE_MAX) == |s| ==> Decode(s).None?
  {
    assert s[|s|..] == [];
  }

  // ── which size lines are refused ──────────────────────────────────────────────────────────────

  /** A chunk-size line as it may be written: blanks about a number with a sign and a `0x` or without, and extensions. */
  datatype SizeForm = SizeForm(before: string, sign: string, prefix: string, numeral: string, after: string, ext: string)

  predicate Blanks(s: string) {
    forall c <- s :: Space(c)
  }

  /** Every underscore has a digit after it. */
  predicate DigitsOn(t: string) {
    forall i | 0 <= i < |t| :: HexDigit(t[i]) || (t[i] == '_' && i + 1 < |t| && HexDigit(t[i + 1]))
  }

  /** Hexadecimal digits, single underscores between them. */
  predicate Numeral(t: string) {
    t != "" && HexDigit(t[0]) && DigitsOn(t)
  }

  predicate Sign(s: string) {
    s == "" || s == "+" || s == "-"
  }

  predicate Prefix(p: string) {
    p == "" || p == "0x" || p == "0X" || p == "0x_" || p == "0X_"
  }

  predicate WellFormed(f: SizeForm) {
    && Blanks(f.before) && Blanks(f.after) && Numeral(f.numeral)
    && Sign(f.sign) && Prefix(f.prefix)
    && (f.ext == "" || f.ext[0] == ';')
  }

  function Token(f: SizeForm): string {
    f.sign + (f.prefix + f.numeral)
  }

  function Text(f: SizeForm): string {
    f.before + (Token(f) + f.after) + f.ext
  }

  /** The digits alone. */
  function Plain(t: string): (d: string)
    ensures forall c <- d :: HexDigit(c)
  {
    if t == [] then [] else if HexDigit(t[0]) then [t[0]] + Plain(t[1..]) else Plain(t[1..])
  }

  /** The number written, most significant digit first. */
  function HexValue(digits: string): nat
    requires forall c <- digits :: HexDigit(c)
  {
    if digits == [] then 0
    else
      var last := |digits| - 1;
      assert digits[last] in digits;
      16 * HexValue(digits[..last]) + DigitValue(digits[last])
  }

  function Magnified(f: SizeForm): nat {
    HexValue(Plain(f.numeral))
  }

  lemma {:induction false} OneMoreDigit(t: string, c: char, sofar: nat)
    requires HexDigit(c) && forall d <- t :: HexDigit(d)
    ensures Digits(t, sofar).Some?
    ensures Digits(t + [c], sofar) == Some(16 * Digits(t, sofar).value + DigitValue(c))
  {
    if t != [] {
      assert t[0] in t;
      assert (t + [c])[1..] == t[1..] + [c];
      OneMoreDigit(t[1..], c, 16 * sofar + DigitValue(t[0]));
    }
  }

  lemma {:induction false} DigitsAreTheNumber(digits: string)
    requires forall c <- digits :: HexDigit(c)
    ensures Digits(digits, 0) == Some(HexValue(digits))
  {
    if digits != [] {
      var last := |digits| - 1;
      assert digits[last] in digits;
      assert digits == digits[..last] + [digits[last]];
      DigitsAreTheNumber(digits[..last]);
      OneMoreDigit(digits[..last], digits[last], 0);
    }
  }

  lemma {:induction false} DigitsIff(t: string, sofar: nat)
    ensures Digits(t, sofar).Some? <==> DigitsOn(t)
    ensures DigitsOn(t) ==> Digits(t, sofar) == Digits(Plain(t), sofar)
    decreases |t|
  {
    if t != "" {
      if HexDigit(t[0]) {
        assert DigitsOn(t) <==> DigitsOn(t[1..]) by {
          assert forall i | 1 <= i < |t| :: t[i] == t[1..][i - 1];
        }
        DigitsIff(t[1..], 16 * sofar + DigitValue(t[0]));
      } else if t[0] == '_' && |t| > 1 && HexDigit(t[1]) {
        assert DigitsOn(t) <==> DigitsOn(t[2..]) by {
          assert forall i | 2 <= i < |t| :: t[i] == t[2..][i - 2];
        }
        DigitsIff(t[2..], 16 * sofar + DigitValue(t[1]));
        assert t[1..][1..] == t[2..];
      }
    }
  }

  lemma NumeralReads(t: string)
    requires Numeral(t)
    ensures Digits(t, 0) == Some(HexValue(Plain(t)))
  {
    DigitsIff(t, 0);
    DigitsAreTheNumber(Plain(t));
  }

  lemma MagnitudeReads(prefix: string, numeral: string)
    requires Numeral(numeral) && Prefix(prefix)
    ensures Magnitude(prefix + numeral) == Some(HexValue(Plain(numeral)))
  {
    var t := prefix + numeral;
    NumeralReads(numeral);
    assert t[|prefix|..] == numeral;
    assert |numeral| > 1 ==> HexDigit(numeral[1]) || numeral[1] == '_';
    assert prefix == "" ==> t == numeral;
  }

  /** Nothing in it is a sign, a blank or a semicolon. */
  predicate Bare(t: string) {
    t != "" && forall c <- t :: !Space(c) && c != ';' && c != '-' && c != '+'
  }

  lemma MagnitudeIsBare(prefix: string, numeral: string)
    requires Numeral(numeral) && Prefix(prefix)
    ensures Bare(prefix + numeral)
  {
    assert Bare("0x_") && Bare("0X_") && Bare("0x") && Bare("0X");
    assert forall c <- numeral :: HexDigit(c) || c == '_';
  }

  lemma SignedParses(sign: string, m: string)
    requires Sign(sign) && Bare(m) && Magnitude(m).Some?
    ensures
      var size: int := Magnitude(m).value;
      ParseHex(sign + m) == Some(if sign == "-" then -size else size)
  {
    assert m[0] in m;
    if sign == "" {
      assert sign + m == m;
    } else {
      assert (sign + m)[1..] == m;
    }
  }

  lemma SignedIsBare(sign: string, m: string)
    requires Sign(sign) && Bare(m)
    ensures sign + m != "" && !Space((sign + m)[0]) && !Space((sign + m)[|sign + m| - 1]) && ';' !in sign + m
  {
    assert m[0] in m && m[|m| - 1] in m;
    assert (sign + m)[|sign + m| - 1] == m[|m| - 1];
    assert sign == "" ==> sign + m == m;
    assert ';' !in sign && ';' !in m;
  }

  lemma {:induction false} StripLeftOf(blanks: string, t: string)
    requires Blanks(blanks) && (t == "" || !Space(t[0]))
    ensures StripLeft(blanks + t) == t
  {
    if blanks == [] {
      assert blanks + t == t;
    } else {
      assert blanks[0] in blanks;
      assert (blanks + t)[1..] == blanks[1..] + t;
      StripLeftOf(blanks[1..], t);
    }
  }

  lemma {:induction false} StripRightOf(t: string, blanks: string)
    requires Blanks(blanks) && t != "" && !Space(t[|t| - 1])
    ensures StripRight(t + blanks) == t
  {
    if blanks == [] {
      assert t + blanks == t;
    } else {
      var last := |blanks| - 1;
      assert blanks[last] in blanks;
      assert (t + blanks)[..|t| + last] == t + blanks[..last];
      StripRightOf(t, blanks[..last]);
    }
  }

  lemma {:induction false} BeforeExtension(front: string, tail: string)
    requires ';' !in front
    ensures BeforeSemicolon(front + tail) == front + BeforeSemicolon(tail)
  {
    if front != [] {
      assert front[0] in front;
      assert (front + tail)[1..] == front[1..] + tail;
      BeforeExtension(front[1..], tail);
    } else {
      assert front + tail == tail;
    }
  }

  /** A line so written gives its number. */
  lemma FormReads(f: SizeForm)
    requires WellFormed(f)
    ensures
      var size: int := Magnified(f);
      SizeOf(Text(f)) == Some(if f.sign == "-" then -size else size)
  {
    var t := Token(f);
    MagnitudeReads(f.prefix, f.numeral);
    MagnitudeIsBare(f.prefix, f.numeral);
    SignedParses(f.sign, f.prefix + f.numeral);
    SignedIsBare(f.sign, f.prefix + f.numeral);
    var front := f.before + (t + f.after);
    assert ';' !in f.before && ';' !in f.after;
    BeforeExtension(front, f.ext);
    assert BeforeSemicolon(f.ext) == "" && front + "" == front;
    assert (t + f.after)[0] == t[0];
    StripLeftOf(f.before, t + f.after);
    StripRightOf(t, f.after);
  }

  lemma {:induction false} SplitsAtSemicolon(s: string)
    ensures
      var front := BeforeSemicolon(s);
      |front| <= |s| && s == front + s[|front|..] && (|front| < |s| ==> s[|front|] == ';')
  {
    if s != [] && s[0] != ';' {
      SplitsAtSemicolon(s[1..]);
    }
  }

  lemma {:induction false} StrippedLeft(s: string) returns (k: nat)
    ensures k <= |s| && Blanks(s[..k]) && StripLeft(s) == s[k..]
  {
    if s != [] && Space(s[0]) {
      k := StrippedLeft(s[1..]);
      k := k + 1;
      assert forall i | 0 < i < k :: s[..k][i] == s[1..][..k - 1][i - 1];
    } else {
      k := 0;
    }
  }

  lemma {:induction false} StrippedRight(s: string) returns (k: nat)
    ensures k <= |s| && Blanks(s[k..]) && StripRight(s) == s[..k]
  {
    if s != [] && Space(s[|s| - 1]) {
      var n := |s| - 1;
      k := StrippedRight(s[..n]);
      assert forall i | 0 <= i < n - k :: s[k..][i] == s[..n][k..][i];
      assert s[..n][..k] == s[..k];
    } else {
      k := |s|;
    }
  }

  lemma MagnitudeHasForm(t: string) returns (prefix: string, numeral: string)
    requires Magnitude(t).Some?
    ensures t == prefix + numeral && Numeral(numeral) && Prefix(prefix)
  {
    var prefixed := |t| >= 2 && t[0] == '0' && (t[1] == 'x' || t[1] == 'X');
    var k := if !prefixed then 0 else if |t| > 2 && t[2] == '_' then 3 else 2;
    prefix, numeral := t[..k], t[k..];
    DigitsIff(numeral, 0);
  }

  lemma TokenHasForm(t: string) returns (sign: string, prefix: string, numeral: string)
    requires ParseHex(t).Some?
    ensures t == sign + (prefix + numeral) && Numeral(numeral) && Sign(sign) && Prefix(prefix)
  {
    var k := if t[0] == '-' || t[0] == '+' then 1 else 0;
    sign := t[..k];
    prefix, numeral := MagnitudeHasForm(t[k..]);
  }

  /** And any line that gives a number is so written. */
  lemma SizeHasForm(line: string) returns (f: SizeForm)
    requires SizeOf(line).Some?
    ensures WellFormed(f) && Text(f) == line
  {
    var front := BeforeSemicolon(line);
    SplitsAtSemicolon(line);
    var i := StrippedLeft(front);
    var bare := front[i..];
    var k := StrippedRight(bare);
    var sign, prefix, numeral := TokenHasForm(bare[..k]);
    f := SizeForm(front[..i], sign, prefix, numeral, bare[k..], line[|front|..]);
    assert front == front[..i] + (bare[..k] + bare[k..]);
  }

  /** The size line gives this size: it is written as one may be, and is not below 0. */
  ghost predicate Gives(line: string, size: nat) {
    exists f :: WellFormed(f) && Text(f) == line && Magnified(f) == size && (f.sign == "-" ==> size == 0)
  }

  /** Which size lines are refused: every one but those so written, a negative number among them. Where it is refused
      the whole body is, whatever follows. */
  lemma HeadGivesIff(s: string, size: nat)
    ensures HeadOf(s) == Some(size) <==> s != "" && Gives(s[..LineLength(s, LINE_MAX)], size)
    ensures HeadOf(s).None? ==> Decode(s).None?
  {
    if s != "" {
      var line := s[..LineLength(s, LINE_MAX)];
      if SizeOf(line).Some? {
        var f := SizeHasForm(line);
        FormReads(f);
      }
      forall f | WellFormed(f) && Text(f) == line
        ensures SizeOf(line) == Some(if f.sign == "-" then -(Magnified(f) as int) else Magnified(f))
      {
        FormReads(f);
      }
    }
  }

  // ── what a sender writes ──────────────────────────────────────────────────────────────────────

  /** One chunk as section 4.1 frames it: its size in hexadecimal digits, its extensions, its data. */
  datatype Chunk = Chunk(digits: string, ext: string, data: string)

  predicate HexDigits(s: string) {
    s != [] && forall c <- s :: HexDigit(c)
  }

  /** A chunk whose size line fits the bound and gives the length of its data; extensions start at a semicolon. */
  predicate Framed(c: Chunk) {
    && HexDigits(c.digits) && HexValue(c.digits) == |c.data|
    && (c.ext == "" || c.ext[0] == ';') && '\n' !in c.ext
    && |c.digits| + |c.ext| + 2 <= LINE_MAX
  }

  function SizeLine(c: Chunk): string {
    c.digits + c.ext + "\r\n"
  }

  predicate TrailerField(f: string) {
    f != "" && '\n' !in f && |f| + 2 <= LINE_MAX
  }

  function Trailers(fields: seq<string>): string {
    if fields == [] then "\r\n" else fields[0] + "\r\n" + Trailers(fields[1..])
  }

  function Encode(chunks: seq<Chunk>, last: Chunk, fields: seq<string>): string {
    if chunks == [] then SizeLine(last) + Trailers(fields)
    else SizeLine(chunks[0]) + (chunks[0].data + "\r\n" + Encode(chunks[1..], last, fields))
  }

  function DataOf(chunks: seq<Chunk>): string {
    if chunks == [] then "" else chunks[0].data + DataOf(chunks[1..])
  }

  /** The digits a size line begins with are the size it gives, whatever extensions follow. */
  lemma SizeIsRead(c: Chunk)
    requires Framed(c)
    ensures SizeOf(SizeLine(c)) == Some(|c.data|)
  {
    var f := if c.ext == "" then SizeForm("", "", "", c.digits, "\r\n", "") else SizeForm("", "", "", c.digits, "", c.ext + "\r\n");
    assert Text(f) == SizeLine(c);
    assert c.digits[0] in c.digits;
    PlainDigits(c.digits);
    FormReads(f);
  }

  lemma {:induction false} PlainDigits(d: string)
    requires forall c <- d :: HexDigit(c)
    ensures Plain(d) == d && DigitsOn(d)
  {
    if d != "" {
      assert d[0] in d;
      forall c <- d[1..] ensures HexDigit(c) {
        assert c in d;
      }
      PlainDigits(d[1..]);
      assert forall i | 0 <= i < |d| :: d[i] in d;
    }
  }

  lemma {:induction false} NewlineEndsLine(s: string, max: nat)
    requires '\n' !in s && |s| < max
    ensures LineLength(s + "\n", max) == |s| + 1
  {
    if s != [] {
      NewlineEndsLine(s[1..], max - 1);
      assert (s + "\n")[1..] == s[1..] + "\n";
    }
  }

  lemma CrlfLine(s: string)
    requires '\n' !in s && |s| + 2 <= LINE_MAX
    ensures Line(s + "\r\n")
  {
    NewlineEndsLine(s + "\r", LINE_MAX);
    assert s + "\r" + "\n" == s + "\r\n";
  }

  lemma {:induction false} TrailersRead(fields: seq<string>)
    requires forall f <- fields :: TrailerField(f)
    ensures AfterTrailers(Trailers(fields)) == Some("")
  {
    if fields == [] {
      CrlfLine("");
      assert "" + "\r\n" == "\r\n";
    } else {
      assert TrailerField(fields[0]);
      var x := fields[0] + "\r\n";
      CrlfLine(fields[0]);
      LineIs(x, Trailers(fields[1..]));
      TrailersRead(fields[1..]);
      assert x[0] == fields[0][0] && |x| > 2;
    }
  }

  lemma SizeLineIsLine(c: Chunk)
    requires Framed(c)
    ensures Line(SizeLine(c)) && HeadOf(SizeLine(c)) == Some(|c.data|)
  {
    forall ch <- c.digits + c.ext ensures ch != '\n' {
      assert ch in c.digits || ch in c.ext;
    }
    CrlfLine(c.digits + c.ext);
    SizeIsRead(c);
    assert SizeLine(c)[..|SizeLine(c)|] == SizeLine(c);
  }

  lemma {:induction false} EncodedDecodes(chunks: seq<Chunk>, last: Chunk, fields: seq<string>)
    requires (forall c <- chunks :: Framed(c) && c.data != "") && Framed(last) && last.data == ""
    requires forall f <- fields :: TrailerField(f)
    ensures Decode(Encode(chunks, last, fields)) == Some(Decoded(DataOf(chunks), ""))
  {
    if chunks == [] {
      SizeLineIsLine(last);
      HeadStays(SizeLine(last), Trailers(fields));
      TrailersRead(fields);
    } else {
      var c := chunks[0];
      assert Framed(c);
      var more := Encode(chunks[1..], last, fields);
      SizeLineIsLine(c);
      HeadStays(SizeLine(c), c.data + "\r\n" + more);
      ChunkStays(c.data, more);
      EncodedDecodes(chunks[1..], last, fields);
    }
  }

  /** Whatever chunks, extensions and trailers a sender writes, and whatever follows them on the connection, the decoder
      answers the chunks' data and leaves what follows unread; and cut short anywhere it raises. */
  lemma EncodingRoundTrips(chunks: seq<Chunk>, last: Chunk, fields: seq<string>, rest: string, j: nat)
    requires (forall c <- chunks :: Framed(c) && c.data != "") && Framed(last) && last.data == ""
    requires forall f <- fields :: TrailerField(f)
    ensures
      var encoded := Encode(chunks, last, fields);
      && Decode(encoded + rest) == Some(Decoded(DataOf(chunks), rest))
      && (j < |encoded| ==> Decode(encoded[..j]).None?)
  {
    var encoded := Encode(chunks, last, fields);
    EncodedDecodes(chunks, last, fields);
    assert encoded + "" == encoded;
    RestIsUnread(encoded, DataOf(chunks), "", rest);
    if j < |encoded| {
      TruncatedIsRefused(encoded, DataOf(chunks), "", j);
    }
  }
}
