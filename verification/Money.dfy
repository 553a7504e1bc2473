/**
 * The demo application's money printer, and the parser that reads its text back into minor units
 * through a decimal of 28 significant digits.
 */
module Money {
  import opened Contracts
  import opened Text

  // ---- Decimal digits -----------------------------------------------------------

  predicate IsDigit(c: char) { '0' <= c <= '9' }

  predicate AllDigits(s: string) { forall i :: 0 <= i < |s| ==> IsDigit(s[i]) }

  function Digit(d: nat): (c: char)
    requires d < 10
    ensures IsDigit(c)
  {
    '0' + d as char
  }

  /** The decimal numeral of `n`. */
  function Digits(n: nat): (s: string)
    ensures |s| > 0 && AllDigits(s)
  {
    if n < 10 then [Digit(n)] else Digits(n / 10) + [Digit(n % 10)]
  }

  /** The number a string of digits denotes. */
  function Value(s: string): nat
    requires AllDigits(s)
  {
    if s == [] then 0 else 10 * Value(s[..|s| - 1]) + (s[|s| - 1] as int - '0' as int)
  }

  function Pow10(k: nat): (p: nat)
    ensures p > 0
  {
    if k == 0 then 1 else 10 * Pow10(k - 1)
  }

  // ---- The printer -----------------------------------------------------------------

  function TwoDigits(n: nat): string
    requires n < 100
  {
    [Digit(n / 10), Digit(n % 10)]
  }

  function ThreeDigits(n: nat): string
    requires n < 1000
  {
    [Digit(n / 100), Digit(n / 10 % 10), Digit(n % 10)]
  }

  /** The numeral with a comma between groups of three digits. */
  function Grouped(n: nat): string {
    if n < 1000 then Digits(n) else Grouped(n / 1000) + "," + ThreeDigits(n % 1000)
  }

  /** The balance of an account as the page shows it; division and remainder are floored. */
  function FormatBalance(minorUnits: int): string {
    var whole, cents := minorUnits / 100, minorUnits % 100;
    "$" + (if whole < 0 then "-" + Grouped(-whole) else Grouped(whole)) + "." + TwoDigits(cents)
  }

  // ---- The parser --------------------------------------------------------------------

  predicate IsUpper(c: char) { 'A' <= c <= 'Z' }

  predicate IsCode(s: string) { |s| == 3 && IsUpper(s[0]) && IsUpper(s[1]) && IsUpper(s[2]) }

  /** A non-zero numeral in groups of three. */
  predicate IsGrouped(w: string) {
    || (1 <= |w| <= 3 && AllDigits(w) && w[0] != '0')
    || (|w| >= 5 && w[|w| - 4] == ',' && AllDigits(w[|w| - 3..]) && IsGrouped(w[..|w| - 4]))
  }

  predicate IsPlain(w: string) { |w| >= 1 && AllDigits(w) && w[0] != '0' }

  predicate IsWhole(w: string) { w == "0" || IsGrouped(w) || IsPlain(w) }

  /** What may follow the cents: nothing, or whitespace and a currency code. */
  predicate IsSuffix(s: string) {
    s == "" || (|s| >= 4 && AllSpace(s[..|s| - 3]) && IsCode(s[|s| - 3..]))
  }

  predicate DigitsOrCommas(w: string) { forall i :: 0 <= i < |w| ==> IsDigit(w[i]) || w[i] == ',' }

  function NoCommas(w: string): (r: string)
    ensures DigitsOrCommas(w) ==> AllDigits(r)
  {
    if w == [] then []
    else
      var rest := NoCommas(w[..|w| - 1]);
      if w[|w| - 1] == ',' then rest else rest + [w[|w| - 1]]
  }

  lemma WholeHasDigits(w: string)
    requires IsWhole(w)
    ensures DigitsOrCommas(w)
  {
    if IsGrouped(w) && |w| > 3 {
      WholeHasDigits(w[..|w| - 4]);
      forall i | 0 <= i < |w|
        ensures IsDigit(w[i]) || w[i] == ','
      {
        if i < |w| - 4 {
          assert w[..|w| - 4][i] == w[i];
        } else if i > |w| - 4 {
          assert w[|w| - 3..][i - (|w| - 3)] == w[i];
        }
      }
    }
  }

  /** The whole number of units nearest to `q` units and `r`, ties to the even one. */
  function Nearest(q: nat, r: nat, unit: nat): nat {
    if 2 * r > unit || (2 * r == unit && q % 2 == 1) then q + 1 else q
  }

  /** The multiple of `unit` nearest to `m`, ties to the even one. */
  function RoundTo(m: nat, unit: nat): nat
    requires unit > 0
  {
    Nearest(m / unit, m % unit, unit) * unit
  }

  /** Round to 28 significant digits, as decimal multiplication does. */
  function Round28(m: nat): nat {
    if |Digits(m)| <= 28 then m else RoundTo(m, Pow10(|Digits(m)| - 28))
  }

  /** `int(amount * 100)` where the amount has the given digits, the last two behind the point. */
  function MinorUnits(digits: nat): nat {
    Round28(100 * digits) / 100
  }

  function Unsigned(s: string): string {
    if s != "" && s[0] == '$' then s[1..] else s
  }

  function ParseUnsigned(t: string): Option<int> {
    var dot := FindFrom(t, ".", 0);
    if dot.None? || dot.value + 3 > |t| then None
    else
      var whole, cents, suffix := t[..dot.value], t[dot.value + 1..dot.value + 3], t[dot.value + 3..];
      if IsWhole(whole) && AllDigits(cents) && IsSuffix(suffix)
      then WholeHasDigits(whole); Some(MinorUnits(Value(NoCommas(whole) + cents)))
      else None
  }

  function ParseMoney(s: string): Option<int> {
    ParseUnsigned(Unsigned(s))
  }

  /** `s` is some text on one line, up to `k`, and then whitespace only. */
  predicate SpaceFrom(s: string, k: nat)
    requires k <= |s|
  {
    (forall i :: 0 <= i < k ==> s[i] != '\n') && AllSpace(s[k..])
  }

  predicate LineThenSpace(s: string) {
    exists k | 1 <= k < |s| :: SpaceFrom(s, k)
  }

  function ParseCurrencyCode(s: string): Option<string> {
    if IsCode(s) then Some(s)
    else if |s| >= 5 && IsCode(s[|s| - 3..]) && LineThenSpace(s[..|s| - 3])
    then Some(s[|s| - 3..])
    else None
  }

  // ---- The parser reads exactly the declared texts -----------------------------------

  /** The texts of the money pattern: sign, whole units, two cents, and an optional code. */
  predicate IsMoney(dollar: string, whole: string, cents: string, suffix: string) {
    (dollar == "" || dollar == "$") && IsWhole(whole) && |cents| == 2 && AllDigits(cents) && IsSuffix(suffix)
  }

  function MoneyText(dollar: string, whole: string, cents: string, suffix: string): string {
    dollar + (whole + "." + cents + suffix)
  }

  lemma ParseMoneyIsComplete(dollar: string, whole: string, cents: string, suffix: string)
    requires IsMoney(dollar, whole, cents, suffix)
    ensures DigitsOrCommas(whole)
    ensures ParseMoney(MoneyText(dollar, whole, cents, suffix)) == Some(MinorUnits(Value(NoCommas(whole) + cents)))
  {
    WholeHasDigits(whole);
    WholeBegins(whole);
    var t := whole + "." + cents + suffix;
    assert t[0] == whole[0];
    UnsignedKeeps(dollar, t);
    UnsignedIsRead(whole, cents, suffix, t);
  }

  lemma WholeBegins(whole: string)
    requires IsWhole(whole)
    ensures whole != "" && IsDigit(whole[0])
  {
    WholeHasDigits(whole);
    if IsGrouped(whole) && |whole| > 3 {
      WholeBegins(whole[..|whole| - 4]);
    }
  }

  lemma UnsignedKeeps(dollar: string, t: string)
    requires (dollar == "" || dollar == "$") && t != "" && t[0] != '$'
    ensures Unsigned(dollar + t) == t
  {
    assert "" + t == t && ("$" + t)[1..] == t;
  }

  lemma PointIsFirst(whole: string, rest: string)
    requires DigitsOrCommas(whole)
    ensures FindFrom(whole + "." + rest, ".", 0) == Some(|whole|)
  {
    var t := whole + "." + rest;
    assert t[|whole|..|whole| + 1] == "." && OccursAt(t, ".", |whole|);
    var dot := FindFrom(t, ".", 0).value;
    assert t[dot..dot + 1][0] == '.';
  }

  lemma UnsignedIsRead(whole: string, cents: string, suffix: string, t: string)
    requires IsMoney("", whole, cents, suffix) && DigitsOrCommas(whole) && t == whole + "." + cents + suffix
    ensures ParseUnsigned(t) == Some(MinorUnits(Value(NoCommas(whole) + cents)))
  {
    assert t == whole + "." + (cents + suffix);
    PointIsFirst(whole, cents + suffix);
    CutInThree(whole, cents, suffix, t);
  }

  lemma CutInThree(whole: string, cents: string, suffix: string, t: string)
    requires t == whole + "." + cents + suffix && |cents| == 2
    ensures t[..|whole|] == whole && t[|whole| + 1..|whole| + 3] == cents && t[|whole| + 3..] == suffix
  {
  }

  lemma ParseMoneyIsSound(s: string)
    requires ParseMoney(s).Some?
    ensures exists dollar, whole, cents, suffix ::
      IsMoney(dollar, whole, cents, suffix) && s == MoneyText(dollar, whole, cents, suffix)
  {
    var whole, cents, suffix := UnsignedIsSound(Unsigned(s));
    var dollar := if s != "" && s[0] == '$' then "$" else "";
    assert s == dollar + Unsigned(s) == MoneyText(dollar, whole, cents, suffix);
  }

  lemma UnsignedIsSound(t: string) returns (whole: string, cents: string, suffix: string)
    requires ParseUnsigned(t).Some?
    ensures IsMoney("", whole, cents, suffix) && t == whole + "." + cents + suffix
  {
    var dot := FindFrom(t, ".", 0).value;
    whole, cents, suffix := t[..dot], t[dot + 1..dot + 3], t[dot + 3..];
    assert t[dot..dot + 1] == ".";
    SplitInFour(t, dot);
  }

  lemma SplitInFour(t: string, dot: nat)
    requires dot + 3 <= |t|
    ensures t == t[..dot] + t[dot..dot + 1] + t[dot + 1..dot + 3] + t[dot + 3..]
  {
  }

  // ---- Numerals ------------------------------------------------------------------------

  lemma {:induction false} ValueOfDigits(n: nat)
    ensures Value(Digits(n)) == n
  {
    if n >= 10 {
      ValueOfDigits(n / 10);
      assert Digits(n)[..|Digits(n)| - 1] == Digits(n / 10);
    } else {
      assert Digits(n)[..0] == [];
    }
  }

  lemma ValueWithCents(s: string, cents: nat)
    requires AllDigits(s) && cents < 100
    ensures Value(s + TwoDigits(cents)) == 100 * Value(s) + cents
  {
    var t := s + [Digit(cents / 10)];
    assert t[..|t| - 1] == s;
    var u := s + TwoDigits(cents);
    assert u[..|u| - 1] == t;
  }

  lemma {:induction false} NoCommasOfConcat(a: string, b: string)
    ensures NoCommas(a + b) == NoCommas(a) + NoCommas(b)
  {
    if b == [] {
      assert a + b == a;
    } else {
      NoCommasOfConcat(a, b[..|b| - 1]);
      assert (a + b)[..|a + b| - 1] == a + b[..|b| - 1];
    }
  }

  lemma {:induction false} NoCommasOfDigits(s: string)
    requires AllDigits(s)
    ensures NoCommas(s) == s
  {
    if s != [] {
      NoCommasOfDigits(s[..|s| - 1]);
      assert s == s[..|s| - 1] + [s[|s| - 1]];
    }
  }

  lemma DigitsByTen(m: nat, d: nat)
    requires m > 0 && d < 10
    ensures Digits(10 * m + d) == Digits(m) + [Digit(d)]
  {
    assert (10 * m + d) / 10 == m && (10 * m + d) % 10 == d;
  }

  lemma DigitsByHundreds(q: nat, a: nat, b: nat, c: nat)
    requires q > 0 && a < 10 && b < 10 && c < 10
    ensures Digits(1000 * q + 100 * a + 10 * b + c) == Digits(q) + [Digit(a), Digit(b), Digit(c)]
  {
    var l, m := 10 * q + a, 10 * (10 * q + a) + b;
    DigitsByTen(q, a);
    DigitsByTen(l, b);
    DigitsByTen(m, c);
    assert 10 * m + c == 1000 * q + 100 * a + 10 * b + c;
    assert Digits(q) + [Digit(a)] + [Digit(b)] + [Digit(c)] == Digits(q) + [Digit(a), Digit(b), Digit(c)];
  }

  lemma ThreeParts(r: nat)
    requires r < 1000
    ensures r / 100 < 10 && r == 100 * (r / 100) + 10 * (r / 10 % 10) + r % 10
  {
  }

  lemma DigitsByThousand(n: nat)
    requires n >= 1000
    ensures Digits(n) == Digits(n / 1000) + ThreeDigits(n % 1000)
  {
    var q, r := n / 1000, n % 1000;
    ThreeParts(r);
    DigitsByHundreds(q, r / 100, r / 10 % 10, r % 10);
  }

  /** Grouping changes the spelling only: without its commas the numeral is the plain one. */
  lemma {:induction false} GroupingIsSpelling(n: nat)
    ensures NoCommas(Grouped(n)) == Digits(n)
  {
    if n < 1000 {
      NoCommasOfDigits(Digits(n));
    } else {
      GroupingIsSpelling(n / 1000);
      DigitsByThousand(n);
      NoCommasOfConcat(Grouped(n / 1000) + ",", ThreeDigits(n % 1000));
      NoCommasOfConcat(Grouped(n / 1000), ",");
      NoCommasOfDigits(ThreeDigits(n % 1000));
      assert NoCommas(",") == "" by {
        assert ","[..0] == "";
      }
    }
  }

  lemma {:induction false} DigitsAreWhole(n: nat)
    ensures n > 0 ==> IsPlain(Digits(n)) && (n < 1000 ==> |Digits(n)| <= 3)
    ensures IsWhole(Digits(n))
  {
    if n >= 10 {
      DigitsAreWhole(n / 10);
      if n < 1000 {
        assert n / 10 < 100;
        if n / 10 >= 10 {
          assert |Digits(n / 10 / 10)| == 1;
        }
      }
    }
  }

  lemma {:induction false} GroupedIsWhole(n: nat)
    ensures n > 0 ==> IsGrouped(Grouped(n))
    ensures IsWhole(Grouped(n))
  {
    DigitsAreWhole(n);
    if n >= 1000 {
      GroupedIsWhole(n / 1000);
      var g := Grouped(n);
      assert g[..|g| - 4] == Grouped(n / 1000);
      assert g[|g| - 3..] == ThreeDigits(n % 1000);
    }
  }

  // ---- Where 28 digits are enough --------------------------------------------------------

  lemma {:induction false} LengthIsMagnitude(n: nat, k: nat)
    requires k >= 1
    ensures |Digits(n)| <= k <==> n < Pow10(k)
  {
    if k > 1 && n >= 10 {
      LengthIsMagnitude(n / 10, k - 1);
    } else if n >= 10 {
      assert |Digits(n / 10)| >= 1;
      assert Pow10(1) == 10 * Pow10(0);
    } else {
      Pow10Grows(1, k);
      assert Pow10(1) == 10 * Pow10(0);
    }
  }

  lemma {:induction false} Pow10Grows(i: nat, j: nat)
    requires i <= j
    ensures Pow10(i) <= Pow10(j)
  {
    if i < j {
      Pow10Grows(i, j - 1);
    }
  }

  /** The number of trailing digits of `n` beyond the 28 that the decimal keeps. */
  function Excess(n: nat): nat {
    if |Digits(n)| > 28 then |Digits(n)| - 28 else 0
  }

  /** The decimal loses nothing exactly when every digit it drops is a zero. */
  predicate FitsDecimal(n: nat) { n % Pow10(Excess(n)) == 0 }

  lemma HundredTimes(n: nat)
    requires n > 0
    ensures |Digits(100 * n)| == |Digits(n)| + 2
  {
    assert 100 * n / 10 == 10 * n && 10 * n / 10 == n;
  }

  lemma RoundingUnit(n: nat, p: nat)
    requires p > 0
    ensures 100 * n % (100 * p) == 100 * (n % p)
    ensures 100 * n / (100 * p) == n / p
  {
    var q, r := n / p, n % p;
    assert n == p * q + r;
    Regroup(q, p);
    UniqueDivision(100 * n, 100 * p, q, 100 * r);
  }

  lemma UniqueDivision(m: nat, d: nat, q: nat, r: nat)
    requires d > 0 && m == d * q + r && r < d
    ensures m / d == q && m % d == r
  {
    var q', r' := m / d, m % d;
    assert m == d * q' + r' && 0 <= r' < d;
    if q > q' {
      MultipleGap(d, q, q');
      assert false;
    } else if q < q' {
      MultipleGap(d, q', q);
      assert false;
    }
  }

  lemma {:induction false} MultipleGap(d: nat, a: nat, b: nat)
    requires a > b
    ensures d * a >= d * b + d
    decreases a
  {
    if a > b + 1 {
      MultipleGap(d, a - 1, b);
    }
  }

  /** The exact bound of the money parser, for every amount. */
  lemma MinorUnitsAreExact(n: nat)
    ensures MinorUnits(n) == n <==> FitsDecimal(n)
    ensures n < Pow10(28) ==> FitsDecimal(n)
  {
    LengthIsMagnitude(n, 28);
    assert Pow10(0) == 1;
    if n > 0 {
      HundredTimes(n);
    }
    if |Digits(100 * n)| == 29 {
      OneDigitDropped(n);
    } else if |Digits(100 * n)| > 29 {
      DigitsDropped(n, Excess(n));
    }
  }

  /**
   * The decimal keeps 28 digits: the amount read is the multiple of the first unit it cannot drop that lies nearest,
   * and of two equally near ones the even multiple.
   */
  lemma MinorUnitsAreNearest(n: nat)
    ensures var unit, m := Pow10(Excess(n)), MinorUnits(n);
      m % unit == 0 && 2 * Distance(m, n) <= unit && (2 * Distance(m, n) == unit ==> m / unit % 2 == 0)
  {
    var p := Pow10(Excess(n));
    assert Pow10(0) == 1;
    if |Digits(n)| <= 28 {
      LengthIsMagnitude(n, 28);
      MinorUnitsAreExact(n);
    } else {
      HundredTimes(n);
      assert Pow10(Excess(n) + 2) == 10 * Pow10(Excess(n) + 1) == 100 * p;
      var up := RoundedIsNearest(n, p);
      UniqueDivision(p * up, p, up, 0);
    }
  }

  function Distance(a: nat, b: nat): nat { if a <= b then b - a else a - b }

  lemma RoundedIsNearest(n: nat, p: nat) returns (up: nat)
    requires p > 0
    ensures RoundTo(100 * n, 100 * p) / 100 == p * up
    ensures 2 * Distance(p * up, n) <= p && (2 * Distance(p * up, n) == p ==> up % 2 == 0)
  {
    RoundingUnit(n, p);
    var q, r := n / p, n % p;
    up := Nearest(q, 100 * r, 100 * p);
    Regroup(up, p);
    OneMore(p, q);
    NearestMultiple(n, p, p * q, r, up == q + 1);
  }

  lemma OneMore(p: nat, q: nat)
    ensures p * (q + 1) == p * q + p
  {
  }

  lemma NearestMultiple(n: nat, p: nat, below: nat, r: nat, up: bool)
    requires n == below + r && r < p && (up ==> 2 * r >= p) && (!up ==> 2 * r <= p)
    ensures 2 * Distance(if up then below + p else below, n) <= p
    ensures 2 * Distance(if up then below + p else below, n) == p <==> 2 * r == p
  {
  }

  lemma OneDigitDropped(n: nat)
    requires |Digits(100 * n)| == 29
    ensures MinorUnits(n) == n
  {
    assert Pow10(1) == 10 by { assert Pow10(0) == 1; }
    assert 100 * n % 10 == 0 && 100 * n / 10 == 10 * n;
    assert RoundTo(100 * n, 10) == 100 * n;
  }

  lemma DigitsDropped(n: nat, e: nat)
    requires |Digits(100 * n)| == 28 + e + 2
    ensures MinorUnits(n) == n <==> n % Pow10(e) == 0
  {
    var p := Pow10(e);
    assert Pow10(e + 2) == 10 * Pow10(e + 1) == 100 * p;
    assert Round28(100 * n) == RoundTo(100 * n, 100 * p);
    RoundedMultiple(n, p);
  }

  /** Rounding to a hundredfold unit is exact for the multiples of the unit only. */
  lemma RoundedMultiple(n: nat, p: nat)
    requires p > 0
    ensures RoundTo(100 * n, 100 * p) / 100 == n <==> n % p == 0
  {
    RoundingUnit(n, p);
    var q, r := n / p, n % p;
    assert n == p * q + r;
    var up := Nearest(q, 100 * r, 100 * p);
    assert RoundTo(100 * n, 100 * p) == up * (100 * p);
    Regroup(up, p);
    if up != q {
      UniqueDivision(p * up, p, up, 0);
    }
  }

  lemma Regroup(q: nat, p: nat)
    ensures q * (100 * p) == (100 * p) * q == 100 * (p * q)
  {
  }

  // ---- The round trip -------------------------------------------------------------------

  /** Both spellings of an amount parse to the same minor units. */
  lemma SpellingsAgree(n: nat, suffix: string)
    requires IsSuffix(suffix)
    ensures ParseMoney(MoneyText("$", Grouped(n / 100), TwoDigits(n % 100), suffix)) == Some(MinorUnits(n))
    ensures ParseMoney(MoneyText("$", Digits(n / 100), TwoDigits(n % 100), suffix)) == Some(MinorUnits(n))
  {
    GroupedIsWhole(n / 100);
    DigitsAreWhole(n / 100);
    GroupingIsSpelling(n / 100);
    NoCommasOfDigits(Digits(n / 100));
    SpellingIsRead("$", Grouped(n / 100), n, suffix);
    SpellingIsRead("$", Digits(n / 100), n, suffix);
  }

  lemma SpellingIsRead(dollar: string, whole: string, n: nat, suffix: string)
    requires (dollar == "" || dollar == "$") && IsSuffix(suffix) && IsWhole(whole) && NoCommas(whole) == Digits(n / 100)
    ensures ParseMoney(MoneyText(dollar, whole, TwoDigits(n % 100), suffix)) == Some(MinorUnits(n))
  {
    AmountWithCents(n);
    ParseMoneyIsComplete(dollar, whole, TwoDigits(n % 100), suffix);
  }

  lemma AmountWithCents(n: nat)
    ensures Value(Digits(n / 100) + TwoDigits(n % 100)) == n
  {
    ValueOfDigits(n / 100);
    ValueWithCents(Digits(n / 100), n % 100);
  }

  function Shown(minorUnits: int, code: string): string {
    FormatBalance(minorUnits) + " " + code
  }

  /** A negative balance prints a text the parser refuses; any other is read back through the decimal. */
  lemma MoneyRoundTrip(n: int, code: string)
    requires IsCode(code)
    ensures n < 0 ==> ParseMoney(Shown(n, code)) == None
    ensures n >= 0 ==> ParseMoney(Shown(n, code)) == Some(MinorUnits(n))
    ensures ParseMoney(Shown(n, code)) == Some(n) <==> n >= 0 && FitsDecimal(n)
  {
    if n >= 0 {
      ShownIsMoney(n, code);
      SpellingsAgree(n, " " + code);
      MinorUnitsAreExact(n);
    } else {
      var s := Shown(n, code);
      assert s[0] == '$' && s[1] == '-';
      SignIsRefused(s);
    }
  }

  lemma ShownIsMoney(n: nat, code: string)
    requires IsCode(code)
    ensures IsSuffix(" " + code)
    ensures Shown(n, code) == MoneyText("$", Grouped(n / 100), TwoDigits(n % 100), " " + code)
  {
    var suffix := " " + code;
    assert suffix[..1] == " " && suffix[1..] == code;
  }

  lemma SignIsRefused(s: string)
    requires |s| >= 2 && s[0] == '$' && s[1] == '-'
    ensures ParseMoney(s) == None
  {
    if ParseMoney(s).Some? {
      ParseMoneyIsSound(s);
      var dollar, whole, cents, suffix :|
        IsMoney(dollar, whole, cents, suffix) && s == MoneyText(dollar, whole, cents, suffix);
      WholeHasDigits(whole);
    }
  }

  /** The code printed behind the balance is the code read back, whatever the balance. */
  lemma CodeRoundTrip(n: int, code: string)
    requires IsCode(code)
    ensures ParseCurrencyCode(Shown(n, code)) == Some(code)
    ensures Strip(Shown(n, code)) == Shown(n, code)
  {
    var s, balance := Shown(n, code), FormatBalance(n);
    assert s[|s| - 3..] == code;
    assert s[..|s| - 3] == balance + " ";
    GroupedHasNoNewline(if n / 100 < 0 then -(n / 100) else n / 100);
    assert forall i :: 0 <= i < |balance| ==> balance[i] != '\n';
    assert s[0] == '$' && s[|s| - 1] == code[2];
    assert SpaceFrom(s[..|s| - 3], |balance|);
  }

  // ---- What the parsers read, exactly --------------------------------------------------

  lemma {:induction false} PlainIsNumeral(w: string)
    requires IsPlain(w)
    ensures Value(w) > 0 && Digits(Value(w)) == w
  {
    var last := w[|w| - 1];
    if |w| > 1 {
      PlainIsNumeral(w[..|w| - 1]);
      assert Value(w) / 10 == Value(w[..|w| - 1]) && Digit(Value(w) % 10) == last;
    } else {
      assert w[..0] == "" && w == [last];
    }
  }

  lemma {:induction false} GroupedIsNumeral(w: string) returns (n: nat)
    requires IsGrouped(w)
    ensures n > 0 && Grouped(n) == w
  {
    if |w| <= 3 {
      PlainIsNumeral(w);
      n := Value(w);
      LengthIsMagnitude(n, 3);
      assert Pow10(3) == 1000 by { assert Pow10(2) == 100 by { assert Pow10(1) == 10 by { assert Pow10(0) == 1; } } }
    } else {
      var before := GroupedIsNumeral(w[..|w| - 4]);
      var k := ThreeAreDigits(w[|w| - 3..]);
      n := 1000 * before + k;
      assert n / 1000 == before && n % 1000 == k;
      assert w == w[..|w| - 4] + [w[|w| - 4]] + w[|w| - 3..];
    }
  }

  lemma ThreeAreDigits(s: string) returns (k: nat)
    requires |s| == 3 && AllDigits(s)
    ensures k < 1000 && ThreeDigits(k) == s
  {
    var a, b, c := s[0] as int - '0' as int, s[1] as int - '0' as int, s[2] as int - '0' as int;
    k := 100 * a + 10 * b + c;
    assert k / 100 == a && k / 10 % 10 == b && k % 10 == c;
  }

  lemma TwoAreDigits(s: string) returns (k: nat)
    requires |s| == 2 && AllDigits(s)
    ensures k < 100 && TwoDigits(k) == s
  {
    var a, b := s[0] as int - '0' as int, s[1] as int - '0' as int;
    k := 10 * a + b;
    assert k / 10 == a && k % 10 == b;
  }

  lemma WholeIsNumeral(w: string) returns (n: nat)
    requires IsWhole(w)
    ensures Spells(w, n)
  {
    if w == "0" {
      n := 0;
    } else if IsGrouped(w) {
      n := GroupedIsNumeral(w);
    } else {
      PlainIsNumeral(w);
      n := Value(w);
    }
  }

  /** The numeral of `n`, with its commas or without. */
  predicate Spells(w: string, n: nat) { w == Grouped(n) || w == Digits(n) }

  /** The text is an amount as the page shows it, perhaps without its commas, its dollar sign or its code. */
  ghost predicate ShowsAmount(s: string, n: nat) {
    exists dollar, whole, suffix ::
      (dollar == "" || dollar == "$") && Spells(whole, n / 100) && IsSuffix(suffix)
      && s == MoneyText(dollar, whole, TwoDigits(n % 100), suffix)
  }

  /** The money parser reads exactly the texts that show an amount, as that amount in 28 digits. */
  lemma MoneyIsRead(s: string, v: int)
    ensures ParseMoney(s) == Some(v) <==> exists n: nat :: ShowsAmount(s, n) && v == MinorUnits(n)
  {
    if ParseMoney(s).Some? {
      ParseMoneyIsSound(s);
      var dollar, whole, cents, suffix :|
        IsMoney(dollar, whole, cents, suffix) && s == MoneyText(dollar, whole, cents, suffix);
      var units := WholeIsNumeral(whole);
      var k := TwoAreDigits(cents);
      var n := 100 * units + k;
      assert n / 100 == units && n % 100 == k;
      AmountIsRead(dollar, whole, n, suffix);
      assert ShowsAmount(s, n);
    }
    forall n: nat | ShowsAmount(s, n)
      ensures ParseMoney(s) == Some(MinorUnits(n))
    {
      var dollar, whole, suffix :|
        (dollar == "" || dollar == "$") && Spells(whole, n / 100) && IsSuffix(suffix)
        && s == MoneyText(dollar, whole, TwoDigits(n % 100), suffix);
      AmountIsRead(dollar, whole, n, suffix);
    }
  }

  lemma AmountIsRead(dollar: string, whole: string, n: nat, suffix: string)
    requires (dollar == "" || dollar == "$") && Spells(whole, n / 100) && IsSuffix(suffix)
    ensures ParseMoney(MoneyText(dollar, whole, TwoDigits(n % 100), suffix)) == Some(MinorUnits(n))
  {
    GroupedIsWhole(n / 100);
    DigitsAreWhole(n / 100);
    GroupingIsSpelling(n / 100);
    NoCommasOfDigits(Digits(n / 100));
    SpellingIsRead(dollar, whole, n, suffix);
  }

  /** The text ends in a code, alone or behind whitespace on the line of something else. */
  ghost predicate ShowsCode(s: string, code: string) {
    IsCode(code) && (s == code || exists line, gap ::
      line != "" && '\n' !in line && gap != "" && AllSpace(gap) && s == line + gap + code)
  }

  /** The code parser reads exactly those. */
  lemma CodeIsRead(s: string, code: string)
    ensures ParseCurrencyCode(s) == Some(code) <==> ShowsCode(s, code)
  {
    if ParseCurrencyCode(s) == Some(code) && s != code {
      var head := s[..|s| - 3];
      var k :| 1 <= k < |head| && SpaceFrom(head, k);
      assert s == head[..k] + head[k..] + code;
      assert '\n' !in head[..k];
    }
    if ShowsCode(s, code) && s != code {
      var line, gap :| line != "" && '\n' !in line && gap != "" && AllSpace(gap) && s == line + gap + code;
      var head := s[..|s| - 3];
      assert head == line + gap && s[|s| - 3..] == code && head[|line|..] == gap;
      assert forall i :: 0 <= i < |line| ==> head[i] == line[i];
      assert SpaceFrom(head, |line|);
    }
  }

  lemma {:induction false} GroupedHasNoNewline(n: nat)
    ensures forall i :: 0 <= i < |Grouped(n)| ==> Grouped(n)[i] != '\n'
  {
    if n >= 1000 {
      GroupedHasNoNewline(n / 1000);
    }
  }
}
