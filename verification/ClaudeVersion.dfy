/** The order of Claude Code builds (shared/claudeVersion.ts): digit strings compared by length and then lexically. */
module ClaudeVersion {
  import opened Decimals
  import opened Wrappers

  /** `s.split('.')`. */
  function SplitDots(s: string): (parts: seq<string>)
    ensures parts != []
  {
    if s == [] then [""]
    else
      var rest := SplitDots(s[1..]);
      if s[0] == '.' then [""] + rest else [[s[0]] + rest[0]] + rest[1..]
  }

  /** `0`, or digits that do not begin with one. */
  predicate Component(s: string) {
    s != [] && Digits(s) && (|s| > 1 ==> s[0] != '0')
  }

  /** `CLAUDE_VERSION`: three components, two dots, and nothing else. */
  predicate IsVersion(s: string) {
    var parts := SplitDots(s);
    |parts| == 3 && Component(parts[0]) && Component(parts[1]) && Component(parts[2])
  }

  /** JavaScript's `>` on strings. */
  predicate LexGreater(p: string, q: string) {
    if p == [] then false
    else if q == [] then true
    else if p[0] != q[0] then p[0] > q[0]
    else LexGreater(p[1..], q[1..])
  }

  function CompareNumbers(m: nat, n: nat): int {
    if m < n then -1 else if m > n then 1 else 0
  }

  /** The order of two builds as the order of three numbers each, most significant first. */
  function CompareBuilds(x: (nat, nat, nat), y: (nat, nat, nat)): int {
    if x.0 != y.0 then CompareNumbers(x.0, y.0)
    else if x.1 != y.1 then CompareNumbers(x.1, y.1)
    else CompareNumbers(x.2, y.2)
  }

  function Numbers(s: string): (nat, nat, nat)
    requires IsVersion(s)
  {
    var parts := SplitDots(s);
    (Value(parts[0]), Value(parts[1]), Value(parts[2]))
  }

  /** The order of two components, as the source decides it. */
  function ComparePart(p: string, q: string): int {
    if |p| != |q| then if |p| > |q| then 1 else -1
    else if p != q then if LexGreater(p, q) then 1 else -1
    else 0
  }

  lemma {:induction false} LexByLast(p: string, q: string)
    requires |p| == |q| > 0
    ensures
      var n := |p| - 1;
      LexGreater(p, q) <==> LexGreater(p[..n], q[..n]) || (p[..n] == q[..n] && p[n] > q[n])
  {
    var n := |p| - 1;
    if n > 0 && p[0] == q[0] {
      LexByLast(p[1..], q[1..]);
      assert p[1..][..n - 1] == p[..n][1..] && q[1..][..n - 1] == q[..n][1..];
      assert p[..n] == q[..n] <==> p[..n][1..] == q[..n][1..] by {
        assert p[..n] == [p[0]] + p[..n][1..] && q[..n] == [q[0]] + q[..n][1..];
      }
    } else if n > 0 {
      assert p[..n][0] == p[0] && q[..n][0] == q[0];
    }
  }

  lemma {:induction false} SameLength(p: string, q: string)
    requires |p| == |q| && Digits(p) && Digits(q)
    ensures Value(p) == Value(q) <==> p == q
    ensures Value(p) > Value(q) <==> LexGreater(p, q)
  {
    if p != [] {
      var n := |p| - 1;
      SameLength(p[..n], q[..n]);
      LexByLast(p, q);
      assert p == p[..n] + [p[n]] && q == q[..n] + [q[n]];
    }
  }

  lemma {:induction false} LongerIsGreater(p: string, q: string)
    requires |p| > |q| > 0 && Digits(p) && Digits(q) && p[0] != '0'
    ensures Value(p) > Value(q)
  {
    if |q| > 1 {
      LongerIsGreater(p[..|p| - 1], q[..|q| - 1]);
    } else {
      LeadingIsPositive(p[..|p| - 1]);
    }
  }

  lemma {:induction false} LeadingIsPositive(p: string)
    requires p != [] && Digits(p) && p[0] != '0'
    ensures Value(p) > 0
  {
    if |p| > 1 {
      LeadingIsPositive(p[..|p| - 1]);
    }
  }

  /** Length first, then lexical, is the order of the numbers, at any length: what no leading zero buys. */
  lemma PartsCompareAsNumbers(p: string, q: string)
    requires Component(p) && Component(q)
    ensures ComparePart(p, q) == CompareNumbers(Value(p), Value(q))
    ensures ComparePart(p, q) == 0 <==> p == q
  {
    if |p| == |q| {
      SameLength(p, q);
    } else if |p| > |q| {
      LongerIsGreater(p, q);
    } else {
      LongerIsGreater(q, p);
    }
  }

  /** `compareClaudeVersions`; `None` is its RangeError. */
  method Compare(a: string, b: string) returns (r: Option<int>)
    ensures r.Some? <==> IsVersion(a) && IsVersion(b)
    ensures r.Some? ==> r.value == CompareBuilds(Numbers(a), Numbers(b))
    ensures r == Some(0) <==> IsVersion(a) && a == b
  {
    if !IsVersion(a) {
      return None;
    }
    if !IsVersion(b) {
      return None;
    }
    var x, y := SplitDots(a), SplitDots(b);
    SamePartsSameText(a, b);
    PartsCompareAsNumbers(x[0], y[0]);
    PartsCompareAsNumbers(x[1], y[1]);
    PartsCompareAsNumbers(x[2], y[2]);
    for i := 0 to 3
      invariant forall j | 0 <= j < i :: x[j] == y[j]
    {
      var p, q := x[i], y[i];
      if |p| != |q| {
        return Some(if |p| > |q| then 1 else -1);
      }
      if p != q {
        return Some(if LexGreater(p, q) then 1 else -1);
      }
    }
    assert x == y;
    return Some(0);
  }

  lemma {:induction false} SamePartsSameText(a: string, b: string)
    ensures SplitDots(a) == SplitDots(b) <==> a == b
  {
    if a == [] || b == [] {
      OnePart(a);
      OnePart(b);
    } else {
      SamePartsSameText(a[1..], b[1..]);
      assert a == [a[0]] + a[1..] && b == [b[0]] + b[1..];
      var x, y := SplitDots(a[1..]), SplitDots(b[1..]);
      HeadPart(a);
      HeadPart(b);
      if SplitDots(a) == SplitDots(b) {
        SameTail(a, b);
      }
    }
  }

  lemma OnePart(a: string)
    ensures SplitDots(a) == [""] <==> a == []
  {
  }

  /** The first part is empty exactly when the text starts with a dot. */
  lemma HeadPart(a: string)
    requires a != []
    ensures SplitDots(a)[0] == [] <==> a[0] == '.'
    ensures a[0] != '.' ==> SplitDots(a)[0][0] == a[0]
  {
  }

  lemma SameTail(a: string, b: string)
    requires a != [] && b != [] && SplitDots(a) == SplitDots(b)
    ensures a[0] == b[0] && SplitDots(a[1..]) == SplitDots(b[1..])
  {
    var x, y := SplitDots(a[1..]), SplitDots(b[1..]);
    HeadPart(a);
    HeadPart(b);
    if a[0] == '.' {
      assert SplitDots(a)[1..] == x && SplitDots(b)[1..] == y;
    } else {
      assert SplitDots(a)[0][1..] == x[0] && SplitDots(b)[0][1..] == y[0];
      assert SplitDots(a)[1..] == x[1..] && SplitDots(b)[1..] == y[1..];
      assert x == [x[0]] + x[1..] && y == [y[0]] + y[1..];
    }
  }

  /** The order is total: antisymmetric and transitive over every three builds. */
  lemma OrderIsTotal(a: string, b: string, c: string)
    requires IsVersion(a) && IsVersion(b) && IsVersion(c)
    ensures CompareBuilds(Numbers(a), Numbers(b)) == -CompareBuilds(Numbers(b), Numbers(a))
    ensures CompareBuilds(Numbers(a), Numbers(b)) == 0 <==> a == b
    ensures CompareBuilds(Numbers(a), Numbers(b)) <= 0 && CompareBuilds(Numbers(b), Numbers(c)) <= 0 ==>
              CompareBuilds(Numbers(a), Numbers(c)) <= 0
  {
    var x, y := SplitDots(a), SplitDots(b);
    SamePartsSameText(a, b);
    PartsCompareAsNumbers(x[0], y[0]);
    PartsCompareAsNumbers(x[1], y[1]);
    PartsCompareAsNumbers(x[2], y[2]);
    if x[0] == y[0] && x[1] == y[1] && x[2] == y[2] {
      assert x == y;
    }
  }
}
