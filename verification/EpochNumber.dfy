/**
  The number an epoch's digits come to (shared/agent-protocol.ts `parseObservedEpochDoc`): `Number` rounds them to a
  double, `String` prints a double by its shortest digits (ECMA-262, sections 7.1.4.1 and 6.1.6.1.20), and the document is
  refused unless the two give the digits back. Every double here is a whole number.
*/
module EpochNumber {
  import opened Decimals
  import opened Wrappers
  import opened ClaudeVersion
  import opened EpochDoc

  /** 2^53: the integers below it are the safe ones. */
  const SAFE: nat := 9007199254740992

  /** From here on `String` writes an exponent. */
  const EXPONENT: nat := 1000000000000000000000

  /** The distance between the doubles around `v`. */
  function Unit(v: nat): (u: nat)
    ensures u > 0
  {
    if v < SAFE then 1 else 2 * Unit(v / 2)
  }

  /** The double nearest to `v`, an even multiple of the unit where two are. */
  function Nearest(v: nat): nat {
    var u := Unit(v);
    var q, r := v / u, v % u;
    if 2 * r < u || (2 * r == u && q % 2 == 0) then q * u else (q + 1) * u
  }

  /** How many digits `v` has, and how many of them before its trailing zeros. */
  function Length(v: nat): nat {
    if v < 10 then 1 else 1 + Length(v / 10)
  }

  function Significant(v: nat): nat {
    if v >= 10 && v % 10 == 0 then Significant(v / 10) else Length(v)
  }

  function Distance(a: nat, b: nat): nat {
    if a < b then b - a else a - b
  }

  /** `v`'s digits are what prints for the double `x`: of all that round to it, none has fewer significant digits, and
      none of those with as many is closer. */
  ghost predicate Prints(x: nat, v: nat) {
    && v < EXPONENT && Nearest(v) == x
    && forall u: nat | Nearest(u) == x ::
         Significant(v) <= Significant(u) && (Significant(v) == Significant(u) ==> Distance(v, x) <= Distance(u, x))
  }

  /** `String` of a double; one that no such digits print is written with an exponent. */
  ghost function Spell(x: nat): string {
    if exists v: nat :: Prints(x, v) then
      var v: nat :| Prints(x, v);
      Decimal(v)
    else "e"
  }

  /** `Number` of a digit string. */
  function Read(s: string): nat {
    if Digits(s) then Nearest(Value(s)) else 0
  }

  lemma DecimalIs(v: nat)
    ensures Num(Decimal(v)) && Digits(Decimal(v)) && Value(Decimal(v)) == v
  {
    DecimalReads(v);
    assert forall i | 0 <= i < |Decimal(v)| :: Digit(Decimal(v)[i]);
  }

  /** These digits come back as they were. */
  ghost predicate ComesBack(v: nat) {
    Spell(Nearest(v)) == Decimal(v)
  }

  lemma {:induction false} UnitBounds(v: nat)
    requires v >= SAFE
    ensures Unit(v) >= 2 && SAFE / 2 * Unit(v) <= v < SAFE * Unit(v)
  {
    if v / 2 >= SAFE {
      UnitBounds(v / 2);
      UnitGrows(v, Unit(v / 2));
    }
  }

  lemma UnitGrows(v: nat, u: nat)
    requires SAFE / 2 * u <= v / 2 < SAFE * u
    ensures SAFE / 2 * (2 * u) <= v < SAFE * (2 * u)
  {
  }

  /** Rounding moves by half a unit at most. */
  lemma NearestIsNear(v: nat)
    ensures 2 * Distance(Nearest(v), v) <= Unit(v)
  {
    var u := Unit(v);
    var q, r := v / u, v % u;
    assert v == q * u + r;
    assert (q + 1) * u == q * u + u;
  }

  lemma SafeIsExact(v: nat)
    requires v < SAFE
    ensures Nearest(v) == v
  {
    assert v / 1 == v && v % 1 == 0;
  }

  /** Nothing from 2^53 on rounds below it. */
  lemma UnsafeStaysUnsafe(v: nat)
    requires v >= SAFE
    ensures Nearest(v) >= SAFE
  {
    UnitBounds(v);
    var u := Unit(v);
    var q := v / u;
    assert q >= SAFE / 2 by {
      QuotientAtLeast(v, u, SAFE / 2);
    }
    AtLeast(q, u);
  }

  lemma QuotientAtLeast(v: nat, u: nat, m: nat)
    requires u > 0 && m * u <= v
    ensures v / u >= m
  {
    assert m * u < (v / u + 1) * u;
    Cancels(m, v / u + 1, u);
  }

  lemma Cancels(a: nat, b: nat, u: nat)
    requires a * u < b * u
    ensures a < b
  {
  }

  lemma AtLeast(q: nat, u: nat)
    requires q >= SAFE / 2 && u >= 2
    ensures q * u >= SAFE && (q + 1) * u >= SAFE + 2
  {
    assert q * u >= q * 2;
  }

  // ── which epochs are read ─────────────────────────────────────────────────────────────────────

  /** Every safe integer is printed by its own digits alone. */
  lemma SafePrints(v: nat)
    requires v < SAFE
    ensures forall u: nat :: Prints(v, u) <==> u == v
  {
    SafeIsExact(v);
    forall u: nat | Nearest(u) == v ensures u == v {
      if u < SAFE {
        SafeIsExact(u);
      } else {
        UnsafeStaysUnsafe(u);
      }
    }
  }

  /** Two numbers round to 2^53: itself and the next. */
  lemma RoundsToSafe(u: nat)
    ensures Nearest(u) == SAFE <==> u == SAFE || u == SAFE + 1
  {
    if u < SAFE {
      SafeIsExact(u);
    } else if u >= 2 * SAFE {
      UnitBounds(u);
      NearestIsNear(u);
    } else {
      assert Unit(u / 2) == 1 && Unit(u) == 2;
      var q := u / 2;
      assert Nearest(u) == if u % 2 == 0 || q % 2 == 0 then q * 2 else (q + 1) * 2;
    }
  }

  lemma LimitHasNoZeros()
    ensures Significant(SAFE) == Significant(SAFE + 1)
  {
    assert SAFE % 10 == 2 && (SAFE + 1) % 10 == 3;
    assert SAFE / 10 == (SAFE + 1) / 10;
  }

  lemma SafeLimitPrints()
    ensures forall u: nat :: Prints(SAFE, u) <==> u == SAFE
  {
    RoundsToSafe(SAFE);
    LimitHasNoZeros();
    forall u: nat | Nearest(u) == SAFE ensures u == SAFE || u == SAFE + 1 {
      RoundsToSafe(u);
    }
  }

  lemma DecimalTells(a: nat, b: nat)
    requires Decimal(a) == Decimal(b)
    ensures a == b
  {
    DecimalIs(a);
    DecimalIs(b);
  }

  lemma SpellsOnly(x: nat, v: nat)
    requires forall u: nat :: Prints(x, u) <==> u == v
    ensures Spell(x) == Decimal(v)
  {
    assert Prints(x, v);
  }

  /** Every epoch up to 2^53 comes back as itself, and the next is the first that does not. */
  lemma SafeComesBack(v: nat)
    ensures v <= SAFE ==> ComesBack(v) && Nearest(v) == v
    ensures v == SAFE + 1 ==> !ComesBack(v)
  {
    if v < SAFE {
      SafeIsExact(v);
      SafePrints(v);
      SpellsOnly(v, v);
    } else if v <= SAFE + 1 {
      SafeLimitPrints();
      SpellsOnly(SAFE, SAFE);
      RoundsToSafe(v);
      if Decimal(SAFE) == Decimal(v) {
        DecimalTells(SAFE, v);
      }
    }
  }

  // ── digits that come back though they were rounded ────────────────────────────────────────────

  function Pow10(k: nat): nat {
    if k == 0 then 1 else 10 * Pow10(k - 1)
  }

  lemma {:induction false} LengthAtLeast(v: nat, k: nat)
    requires v >= Pow10(k)
    ensures Length(v) >= k + 1
  {
    if k > 0 {
      LengthAtLeast(v / 10, k - 1);
    }
  }

  /** 2^60, and its shortest digits: the number nearest to it that ends in three zeros. */
  const EXACT: nat := 1152921504606846976
  const SHORT: nat := 1152921504606847000

  lemma ShortIsShort()
    ensures Significant(SHORT) <= 16
  {
    assert SHORT % 10 == 0 && SHORT / 10 == 115292150460684700;
    assert 115292150460684700 % 10 == 0 && 115292150460684700 / 10 == 11529215046068470;
    assert 11529215046068470 % 10 == 0 && 11529215046068470 / 10 == 1152921504606847;
    assert 1152921504606847 % 10 == 7 && Length(1152921504606847) == 16;
  }

  lemma TenToTheSixteen()
    ensures Pow10(16) == 10000000000000000
  {
    assert Pow10(2) == 100;
    assert Pow10(4) == 10000;
    assert Pow10(6) == 1000000;
    assert Pow10(8) == 100000000;
    assert Pow10(10) == 10000000000;
    assert Pow10(12) == 1000000000000;
    assert Pow10(14) == 100000000000000;
  }

  lemma LongEnough(v: nat)
    requires v >= 10000000000000000
    ensures Length(v) >= 17
  {
    TenToTheSixteen();
    LengthAtLeast(v, 16);
  }

  lemma ZeroOrLong(v: nat)
    requires v >= 10000000000000000
    ensures Significant(v) >= 17 || (v % 10 == 0 && Significant(v) == Significant(v / 10))
  {
    LongEnough(v);
  }

  /** No other number so near to 2^60 is as short. */
  lemma OthersAreLonger(u: nat)
    requires EXACT - 200 < u < EXACT + 200 && u != SHORT
    ensures Significant(u) >= 17
  {
    var a := u / 10;
    var b := a / 10;
    ZeroOrLong(u);
    ZeroOrLong(a);
    ZeroOrLong(b);
    if u == 10 * a && a == 10 * b {
      TwoZeros(u, b);
    }
  }

  lemma TwoZeros(u: nat, b: nat)
    requires EXACT - 200 < u < EXACT + 200 && u != SHORT && u == 100 * b
    ensures b % 10 != 0
  {
    assert b == 11529215046068468 || b == 11529215046068469 || b == 11529215046068471;
  }

  lemma RoundsNearExact(u: nat)
    requires Nearest(u) == EXACT
    ensures EXACT - 200 < u < EXACT + 200
  {
    if u < SAFE {
      SafeIsExact(u);
    } else {
      UnitBounds(u);
      NearestIsNear(u);
    }
  }

  lemma ShortRounds()
    ensures Nearest(SHORT) == EXACT && Nearest(EXACT) == EXACT
  {
    assert Unit(SHORT) == 256 && Unit(EXACT) == 256;
  }

  /** A rounded number is answered all the same where its digits are the double's shortest: these come back as 2^60, and
      the digits of 2^60 itself do not come back at all. */
  lemma RoundedComesBack()
    ensures ComesBack(SHORT) && Nearest(SHORT) == EXACT != SHORT
    ensures !ComesBack(EXACT)
  {
    ShortRounds();
    ShortIsShort();
    forall u: nat ensures Prints(EXACT, u) <==> u == SHORT {
      ShortIsPrinted(u);
    }
    SpellsOnly(EXACT, SHORT);
    if Decimal(SHORT) == Decimal(EXACT) {
      DecimalTells(SHORT, EXACT);
    }
  }

  lemma ShortIsPrinted(u: nat)
    requires Nearest(SHORT) == EXACT && Significant(SHORT) <= 16
    ensures Prints(EXACT, u) <==> u == SHORT
  {
    forall v: nat | Nearest(v) == EXACT ensures v == SHORT || Significant(v) >= 17 {
      RoundsNearExact(v);
      if v != SHORT {
        OthersAreLonger(v);
      }
    }
  }

  // ── what a document answers ───────────────────────────────────────────────────────────────────

  /** `parseObservedEpochDoc`. */
  ghost function Answer(text: string): Option<nat> {
    Parse<nat>(text, Read, Spell)
  }

  /** A digit string is the decimal of its value. */
  lemma DecimalOf(s: string)
    requires Num(s)
    ensures Digits(s) && Decimal(Value(s)) == s
  {
    DecimalIs(Value(s));
    PartsCompareAsNumbers(Decimal(Value(s)), s);
  }

  /** A terminated document with one keyed line answers exactly where that line is the digits of a number that comes
      back, and then what they round to. */
  lemma DocumentAnswersIff(text: string, n: nat)
    ensures Answer(text) == Some(n) <==>
              && Terminated(text) && KeyedIn(JsLines(text)) == 1
              && exists v: nat :: "epoch " + Decimal(v) in JsLines(text) && ComesBack(v) && n == Nearest(v)
  {
    AnswersIff<nat>(text, Read, Spell, n);
    if Num(Spell(n)) {
      DecimalOf(Spell(n));
      assert Read(Spell(n)) == n ==> ComesBack(Value(Spell(n)));
    }
    forall v: nat | ComesBack(v) && n == Nearest(v) ensures Num(Spell(n)) && Read(Spell(n)) == n && Spell(n) == Decimal(v) {
      DecimalIs(v);
    }
  }

  lemma OneKeyed(lines: seq<string>, a: string, b: string)
    requires KeyedIn(lines) == 1 && a in lines && b in lines && Keyed(a) && Keyed(b)
    ensures a == b
  {
    KeyedCount(lines);
    assert a in KeyedLines(lines) && b in KeyedLines(lines);
  }

  /** The epoch a document writes: every one up to 2^53 is answered as itself, and 2^53 + 1 is refused; what is answered
      is a safe integer exactly when what is written is one, so a document may answer a number no later reader takes for
      safe. */
  lemma EpochIs(text: string, v: nat)
    requires Terminated(text) && KeyedIn(JsLines(text)) == 1 && "epoch " + Decimal(v) in JsLines(text)
    ensures
      var answer := Answer(text);
      && answer == (if ComesBack(v) then Some(Nearest(v)) else None)
      && (v <= SAFE ==> answer == Some(v))
      && (v == SAFE + 1 ==> answer == None)
      && (answer.Some? ==> (answer.value < SAFE <==> v < SAFE))
  {
    var answer := Answer(text);
    SafeComesBack(v);
    DocumentAnswersIff(text, Nearest(v));
    if v < SAFE {
      SafeIsExact(v);
    } else {
      UnsafeStaysUnsafe(v);
    }
    if answer.Some? {
      DocumentAnswersIff(text, answer.value);
      var u: nat :| "epoch " + Decimal(u) in JsLines(text) && ComesBack(u) && answer.value == Nearest(u);
      SameEpoch(text, u, v);
    }
  }

  lemma SameEpoch(text: string, u: nat, v: nat)
    requires KeyedIn(JsLines(text)) == 1
    requires "epoch " + Decimal(u) in JsLines(text) && "epoch " + Decimal(v) in JsLines(text)
    ensures u == v
  {
    var a, b := "epoch " + Decimal(u), "epoch " + Decimal(v);
    OneKeyed(JsLines(text), a, b);
    assert a[6..] == Decimal(u) && b[6..] == Decimal(v);
    DecimalTells(u, v);
  }

  /** A document that writes 1152921504606847000 answers 1152921504606846976, and one that writes that is refused. */
  lemma RoundedIsAnswered(text: string, v: nat)
    requires Terminated(text) && KeyedIn(JsLines(text)) == 1 && "epoch " + Decimal(v) in JsLines(text)
    ensures v == SHORT ==> Answer(text) == Some(EXACT)
    ensures v == EXACT ==> Answer(text) == None
  {
    EpochIs(text, v);
    RoundedComesBack();
  }
}
