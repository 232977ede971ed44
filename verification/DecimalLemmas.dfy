/** Printing and parsing undo each other; equal values print identically. */
module DecimalLemmas {
  import opened CreditModel
  import opened DecimalText

  // ---------------------------------------------------------------- numerals

  lemma {:induction false} NatOfAppend(a: string, b: string)
    requires AllDigits(a) && AllDigits(b)
    ensures AllDigits(a + b) && NatOf(a + b) == NatOf(a) * Pow10(|b|) + NatOf(b)
  {
    if b == "" {
      assert a + b == a;
    } else {
      var c := b[..|b| - 1];
      NatOfAppend(a, c);
      assert (a + b)[..|a + b| - 1] == a + c;
      OneDigitMore(NatOf(a), Pow10(|c|), NatOf(c), DigitValue(b[|b| - 1]));
    }
  }

  lemma OneDigitMore(x: int, p: int, y: int, d: int)
    ensures (x * p + y) * 10 + d == x * (10 * p) + (y * 10 + d)
  {
  }

  lemma {:induction false} NatOfDigits(n: nat)
    ensures NatOf(Digits(n)) == n
  {
    if n < 10 {
      assert Digits(n)[..0] == "";
    } else {
      NatOfDigits(n / 10);
      assert Digits(n)[..|Digits(n)| - 1] == Digits(n / 10);
    }
  }

  lemma {:induction false} NatOfZeros(n: nat, s: string)
    requires AllDigits(s)
    ensures NatOf(Zeros(n) + s) == NatOf(s)
  {
    NatOfAppend(Zeros(n), s);
    ZerosAreZero(n);
  }

  lemma {:induction false} ZerosAreZero(n: nat)
    ensures NatOf(Zeros(n)) == 0
  {
    if n > 0 {
      var s := Zeros(n);
      AllZeros(s);
    }
  }

  lemma {:induction false} AllZeros(s: string)
    requires AllDigits(s) && forall i | 0 <= i < |s| :: s[i] == '0'
    ensures NatOf(s) == 0
  {
    if s != "" {
      AllZeros(s[..|s| - 1]);
    }
  }

  /** A numeral is no longer than its value needs. */
  lemma {:induction false} DigitsLength(n: nat, k: nat)
    requires k >= 1 && n < Pow10(k)
    ensures |Digits(n)| <= k
  {
    if n >= 10 {
      assert Pow10(1) == 10 * Pow10(0);
      assert Pow10(k) == 10 * Pow10(k - 1);
      DigitsLength(n / 10, k - 1);
    }
  }

  lemma NatOfPadded(d: Decimal)
    ensures NatOf(Padded(d)) == d.coefficient
  {
    NatOfDigits(d.coefficient);
    if |Digits(d.coefficient)| <= d.scale {
      NatOfZeros(d.scale + 1 - |Digits(d.coefficient)|, Digits(d.coefficient));
    }
  }

  lemma Pow10Adds(a: nat, b: nat)
    ensures Pow10(a + b) == Pow10(a) * Pow10(b)
  {
    if a > 0 {
      Pow10Adds(a - 1, b);
    }
  }

  // ---------------------------------------------------------------- parsing a fixed-point numeral

  lemma {:induction false} IndexOfSplit(a: string, c: char, b: string)
    requires c !in a
    ensures IndexOf(a + [c] + b, c) == |a|
    ensures IndexOf(a, c) == |a|
  {
    if a == "" {
    } else {
      IndexOfSplit(a[1..], c, b);
      assert (a + [c] + b)[1..] == a[1..] + [c] + b;
    }
  }

  lemma PointIn(a: string, c: char)
    requires AllDigits(a) && !IsDigit(c)
    ensures c !in a
  {
  }

  function Body(whole: string, fraction: string): string {
    whole + (if fraction == "" then "" else "." + fraction)
  }

  lemma SplitBody(whole: string, fraction: string)
    requires AllDigits(whole) && AllDigits(fraction)
    ensures IndexOf(Body(whole, fraction), '.') == |whole|
    ensures Body(whole, fraction)[..|whole|] == whole
    ensures fraction != "" ==> Body(whole, fraction)[|whole| + 1..] == fraction
  {
    PointIn(whole, '.');
    IndexOfSplit(whole, '.', fraction);
    if fraction == "" {
      assert Body(whole, fraction) == whole;
    } else {
      assert Body(whole, fraction) == whole + ['.'] + fraction;
    }
  }

  function Signed(negative: bool, body: string): string {
    if negative then "-" + body else body
  }

  lemma SignedParts(negative: bool, body: string)
    requires body != "" && IsDigit(body[0])
    ensures Unsigned(Signed(negative, body)) == body
    ensures Signed(negative, body) != "" && (Signed(negative, body)[0] == '-') == negative
  {
  }

  /** A sign, a whole part and a fraction, put together, parse into their parts. */
  lemma ParseParts(negative: bool, whole: string, fraction: string)
    requires AllDigits(whole) && AllDigits(fraction) && 1 <= |whole| <= 40 && |fraction| <= 20
    ensures ParsePlain(Signed(negative, Body(whole, fraction))) == Some(Decimal(negative, NatOf(whole + fraction), |fraction|))
  {
    hide NatOf, IndexOf, Signed, Body, Unsigned, ParsePlain;
    SplitBody(whole, fraction);
    BodySize(whole, fraction);
    SignedParts(negative, Body(whole, fraction));
    ParseKnown(Signed(negative, Body(whole, fraction)), Body(whole, fraction), whole, fraction);
  }

  lemma ParseKnown(s: string, body: string, whole: string, fraction: string)
    requires AllDigits(whole) && AllDigits(fraction) && 1 <= |whole| <= 40 && |fraction| <= 20
    requires s != "" && Unsigned(s) == body && IndexOf(body, '.') == |whole|
    requires |body| == |whole| + (if fraction == "" then 0 else 1 + |fraction|)
    requires body[..|whole|] == whole && (fraction != "" ==> body[|whole| + 1..] == fraction)
    ensures ParsePlain(s) == Some(Decimal(s[0] == '-', NatOf(whole + fraction), |fraction|))
  {
    hide NatOf, IndexOf, Unsigned;
    assert PlainShape(s);
  }

  lemma BodySize(whole: string, fraction: string)
    requires whole != ""
    ensures Body(whole, fraction) != "" && Body(whole, fraction)[0] == whole[0]
    ensures |Body(whole, fraction)| == |whole| + (if fraction == "" then 0 else 1 + |fraction|)
  {
  }

  lemma FixedParts(d: Decimal)
    ensures var padded := Padded(d);
      Fixed(d) == Signed(d.negative, Body(padded[..|padded| - d.scale], padded[|padded| - d.scale..]))
  {
  }

  lemma ParseFixed(d: Decimal)
    requires d.scale <= 20 && d.coefficient < Pow10(40 + d.scale)
    ensures ParsePlain(Fixed(d)) == Some(d)
  {
    hide ParsePlain, Fixed, Signed, Body, NatOf, Pow10;
    var padded := Padded(d);
    var whole := padded[..|padded| - d.scale];
    var fraction := padded[|padded| - d.scale..];
    DigitsLength(d.coefficient, 40 + d.scale);
    ParseParts(d.negative, whole, fraction);
    assert whole + fraction == padded;
    NatOfPadded(d);
    FixedParts(d);
  }

  // ---------------------------------------------------------------- the canonical form

  function Shorter(d: Decimal): Decimal
    requires d.scale > 0
  {
    Decimal(d.negative, d.coefficient / 10, d.scale - 1)
  }

  /** No sign on zero and no trailing fraction zeros. */
  function Canonical(d: Decimal): Decimal
    decreases d.scale
  {
    if d.coefficient == 0 then Decimal(false, 0, 0)
    else if d.scale > 0 && d.coefficient % 10 == 0 then Canonical(Shorter(d))
    else d
  }

  lemma PaddedShorter(d: Decimal)
    requires d.coefficient > 0 && d.scale > 0 && d.coefficient % 10 == 0
    ensures Padded(d) == Padded(Shorter(d)) + "0"
  {
    var digits := Digits(d.coefficient);
    assert d.coefficient >= 10;
    assert DigitChar(0) == '0';
    assert digits == Digits(d.coefficient / 10) + "0";
    if |digits| <= d.scale {
      assert d.scale + 1 - |digits| == d.scale - 1 + 1 - |Digits(d.coefficient / 10)|;
    }
  }

  lemma LongerFraction(negative: bool, whole: string, fraction: string)
    ensures Signed(negative, Body(whole, fraction + "0"))
         == Signed(negative, Body(whole, fraction)) + (if fraction == "" then ".0" else "0")
  {
    if fraction == "" {
      assert fraction + "0" == "0";
      assert Body(whole, "0") == whole + ".0" && Body(whole, "") == whole;
    } else {
      assert Body(whole, fraction + "0") == Body(whole, fraction) + "0";
    }
  }

  lemma FixedShorter(d: Decimal)
    requires d.coefficient > 0 && d.scale > 0 && d.coefficient % 10 == 0
    ensures Fixed(d) == Fixed(Shorter(d)) + (if d.scale == 1 then ".0" else "0")
  {
    hide Fixed, Signed, Body, Padded;
    PaddedShorter(d);
    FixedParts(d);
    FixedParts(Shorter(d));
    var p := Padded(Shorter(d));
    var whole := p[..|p| - (d.scale - 1)];
    var fraction := p[|p| - (d.scale - 1)..];
    assert Padded(d)[..|p| + 1 - d.scale] == whole;
    assert Padded(d)[|p| + 1 - d.scale..] == fraction + "0";
    LongerFraction(d.negative, whole, fraction);
  }

  lemma FixedEnd(d: Decimal)
    ensures |Fixed(d)| >= 1 && ('.' in Fixed(d) <==> d.scale > 0)
    ensures d.scale == 0 ==> IsDigit(Fixed(d)[|Fixed(d)| - 1])
    ensures d.scale > 0 ==> Fixed(d)[|Fixed(d)| - 1] == Padded(d)[|Padded(d)| - 1]
  {
    var padded := Padded(d);
    var whole := padded[..|padded| - d.scale];
    PointIn(whole, '.');
    if d.scale > 0 {
      assert Fixed(d)[|(if d.negative then "-" else "") + whole|] == '.';
    }
  }

  lemma LastDigit(d: Decimal)
    ensures Padded(d)[|Padded(d)| - 1] == DigitChar(d.coefficient % 10)
  {
  }

  lemma DropOne(s: string, t: string, c: char)
    requires t == s + [c]
    ensures DropRight(t, c) == DropRight(s, c)
  {
    assert t[..|t| - 1] == s;
  }

  lemma DropNone(s: string, c: char)
    requires s == "" || s[|s| - 1] != c
    ensures DropRight(s, c) == s
  {
  }

  lemma PrintShorter(d: Decimal)
    requires d.coefficient > 0 && d.scale > 0 && d.coefficient % 10 == 0
    ensures Print(d) == Print(Shorter(d))
  {
    hide Fixed, DropRight, Padded;
    FixedShorter(d);
    FixedEnd(d);
    FixedEnd(Shorter(d));
    var short := Fixed(Shorter(d));
    if d.scale == 1 {
      DropOne(short + ".", Fixed(d), '0');
      DropNone(short + ".", '0');
      DropOne(short, short + ".", '.');
      DropNone(short, '.');
    } else {
      DropOne(short, Fixed(d), '0');
    }
  }

  lemma PrintCanonicalForm(d: Decimal)
    requires d.coefficient > 0 && (d.scale == 0 || d.coefficient % 10 != 0)
    ensures Print(d) == Fixed(d)
  {
    FixedEnd(d);
    LastDigit(d);
    NotMinusZero(d);
    if d.scale > 0 {
      assert Fixed(d)[|Fixed(d)| - 1] != '0' && Fixed(d)[|Fixed(d)| - 1] != '.';
    }
  }

  lemma NotMinusZero(d: Decimal)
    requires d.coefficient > 0
    ensures Fixed(d) != "-0"
  {
    hide Padded;
    FixedEnd(d);
    if d.scale > 0 {
      assert '.' !in "-0";
    } else {
      NatOfPadded(d);
      assert Padded(d) != "0" by { NatOfZero(); }
      assert Padded(d)[..|Padded(d)|] == Padded(d);
      assert d.negative ==> Fixed(d)[1..] == Padded(d);
      assert !d.negative ==> Fixed(d)[0] == Padded(d)[0];
    }
  }

  lemma NatOfZero()
    ensures NatOf("0") == 0
  {
    assert "0"[..0] == "";
  }

  /** Every value is printed as the fixed-point numeral of its canonical form. */
  lemma {:induction false} PrintIsCanonical(d: Decimal)
    ensures Print(d) == Fixed(Canonical(d))
    decreases d.scale
  {
    if d.coefficient == 0 {
      assert Fixed(Decimal(false, 0, 0)) == "0";
    } else if d.scale > 0 && d.coefficient % 10 == 0 {
      PrintShorter(d);
      PrintIsCanonical(Shorter(d));
    } else {
      PrintCanonicalForm(d);
    }
  }

  lemma {:induction false} CanonicalKeepsValue(d: Decimal)
    ensures SameValue(Canonical(d), d) && Canonical(d).scale <= d.scale
    ensures Canonical(d).scale > 0 ==> Canonical(d).coefficient % 10 != 0
    ensures Canonical(d).coefficient <= d.coefficient
    decreases d.scale
  {
    if d.coefficient > 0 && d.scale > 0 && d.coefficient % 10 == 0 {
      var short := Shorter(d);
      CanonicalKeepsValue(short);
      var c := Canonical(d);
      assert d.coefficient == 10 * short.coefficient;
      assert Pow10(d.scale) == 10 * Pow10(short.scale);
      TenTimes(c.coefficient, short.coefficient, Pow10(short.scale), Pow10(c.scale));
    }
  }

  lemma TenTimes(x: int, y: int, u: int, v: int)
    requires x * u == y * v
    ensures x * (10 * u) == (10 * y) * v
  {
  }

  /** A value has one canonical form. */
  lemma {:induction false} CanonicalUnique(a: Decimal, b: Decimal)
    requires SameValue(a, b)
    ensures Canonical(a) == Canonical(b)
    decreases a.scale + b.scale
  {
    ZeroTogether(a, b);
    if a.coefficient == 0 {
    } else if a.scale == b.scale {
      SameScale(a, b);
    } else if a.scale > b.scale {
      ShorterSame(a, b);
      CanonicalUnique(Shorter(a), b);
    } else {
      ShorterSame(b, a);
      CanonicalUnique(a, Shorter(b));
    }
  }

  lemma ZeroTogether(a: Decimal, b: Decimal)
    requires SameValue(a, b)
    ensures a.coefficient == 0 <==> b.coefficient == 0
  {
    if a.coefficient == 0 {
      Positive(b.coefficient, Pow10(a.scale));
    } else if b.coefficient == 0 {
      Positive(a.coefficient, Pow10(b.scale));
    }
  }

  lemma Positive(x: nat, y: nat)
    requires y >= 1
    ensures x * y == 0 ==> x == 0
  {
  }

  lemma SameScale(a: Decimal, b: Decimal)
    requires SameValue(a, b) && a.scale == b.scale && a.coefficient > 0
    ensures a == b
  {
    Cancel(a.coefficient, b.coefficient, Pow10(a.scale));
  }

  lemma Grows(x: nat, y: nat, z: nat)
    requires z >= 1 && x < y
    ensures x * z < y * z
  {
  }

  lemma Cancel(x: nat, y: nat, z: nat)
    requires z >= 1 && x * z == y * z
    ensures x == y
  {
    if x < y {
      Grows(x, y, z);
    } else if y < x {
      Grows(y, x, z);
    }
  }

  /** With more decimals than an equal value, the last decimal is a zero. */
  lemma ShorterSame(a: Decimal, b: Decimal)
    requires SameValue(a, b) && a.scale > b.scale && a.coefficient > 0 && b.coefficient > 0
    ensures a.coefficient % 10 == 0 && SameValue(Shorter(a), b)
  {
    hide Pow10;
    var k := a.scale - 1 - b.scale;
    Pow10Adds(b.scale, k + 1);
    Pow10Adds(b.scale, k);
    PowTen(k);
    Regroup(b.coefficient, Pow10(b.scale), Pow10(k + 1));
    Cancel(a.coefficient, b.coefficient * Pow10(k + 1), Pow10(b.scale));
    Regroup(b.coefficient, 10, Pow10(k));
    Regroup(b.coefficient, Pow10(b.scale), Pow10(k));
    assert a.coefficient == 10 * (b.coefficient * Pow10(k));
    assert Shorter(a).coefficient == b.coefficient * Pow10(k);
  }

  lemma PowTen(k: nat)
    ensures Pow10(k + 1) == 10 * Pow10(k)
  {
  }

  lemma Regroup(x: int, y: int, z: int)
    ensures x * (y * z) == (x * z) * y
  {
  }

  // ---------------------------------------------------------------- the strict parser on printed text

  /** Text made of the characters a plain number can have. */
  predicate Clean(s: string) {
    forall i | 0 <= i < |s| :: IsDigit(s[i]) || s[i] == '.' || s[i] == '+' || s[i] == '-'
  }

  lemma {:induction false} ReplaceAbsent(s: string, target: char, substitute: Option<char>)
    requires target !in s
    ensures Replace(s, target, substitute) == s
  {
    if s != "" {
      assert s[0] in s;
      ReplaceAbsent(s[1..], target, substitute);
      assert s == [s[0]] + s[1..];
    }
  }

  lemma StripTrimmed(s: string)
    requires s == "" || (!IsSpace(s[0]) && !IsSpace(s[|s| - 1]))
    ensures Strip(s) == s
  {
  }

  /** The rewriting steps leave an undecorated number alone. */
  lemma StrictOnClean(s: string, allowCurrency: bool, allowPercent: bool)
    requires Clean(s)
    ensures StrictDecimal(s, allowCurrency, allowPercent) == ParsePlain(s)
    ensures SnapshotDecimal(s) == ParsePlain(s)
  {
    hide ParsePlain, Strip, Replace;
    StripTrimmed(s);
    ReplaceAbsent(s, MINUS_SIGN, Some('-'));
    ReplaceAbsent(s, ' ', None);
    assert ',' !in s;
  }

  lemma PlainIsClean(s: string)
    requires PlainShape(s)
    ensures Clean(s)
  {
    var body := Unsigned(s);
    var point := IndexOf(body, '.');
    forall i | 0 <= i < |body| ensures IsDigit(body[i]) || body[i] == '.' {
      if i < point {
        assert body[..point][i] == body[i];
      } else if i > point {
        assert body[point + 1..][i - point - 1] == body[i];
      }
    }
  }

  /** The accumulator's parser accepts every text the snapshot statistics accept, with the same value. */
  lemma StrictExtendsSnapshot(text: string, allowCurrency: bool, allowPercent: bool)
    requires SnapshotDecimal(text).Some?
    ensures StrictDecimal(text, allowCurrency, allowPercent) == SnapshotDecimal(text)
  {
    hide ParsePlain, Strip, Replace;
    assert PlainShape(Strip(text)) by { ParsedShape(Strip(text)); }
    PlainIsClean(Strip(text));
    StrictOnClean(Strip(text), allowCurrency, allowPercent);
    StripTwice(text);
  }

  lemma ParsedShape(s: string)
    ensures ParsePlain(s).Some? <==> PlainShape(s)
  {
  }

  lemma StripTwice(s: string)
    ensures Strip(Strip(s)) == Strip(s)
  {
    StripEnds(s);
    StripTrimmed(Strip(s));
  }

  lemma StripEnds(s: string)
    ensures Strip(s) == "" || (!IsSpace(Strip(s)[0]) && !IsSpace(Strip(s)[|Strip(s)| - 1]))
  {
    LeftTrimmed(s);
    RightTrimmed(StripLeft(s));
  }

  lemma {:induction false} LeftTrimmed(s: string)
    ensures StripLeft(s) == "" || !IsSpace(StripLeft(s)[0])
  {
    if s != "" && IsSpace(s[0]) {
      LeftTrimmed(s[1..]);
    }
  }

  lemma {:induction false} RightTrimmed(s: string)
    ensures StripRight(s) == "" || !IsSpace(StripRight(s)[|StripRight(s)| - 1])
    ensures StripRight(s) <= s
  {
    if s != "" && IsSpace(s[|s| - 1]) {
      RightTrimmed(s[..|s| - 1]);
    }
  }

  // ---------------------------------------------------------------- round trips

  /** At most forty digits before the point and twenty after it. */
  predicate InDomain(d: Decimal) {
    d.scale <= 20 && d.coefficient < Pow10(40 + d.scale)
  }

  lemma CanonicalInDomain(d: Decimal)
    requires InDomain(d)
    ensures InDomain(Canonical(d))
    decreases d.scale
  {
    if d.coefficient == 0 {
      assert Pow10(40) >= 1;
    } else if d.scale > 0 && d.coefficient % 10 == 0 {
      PowTen(40 + d.scale - 1);
      CanonicalInDomain(Shorter(d));
    }
  }

  /** Both parsers read the printed text back as the same value. */
  lemma PrintThenParse(d: Decimal, allowCurrency: bool, allowPercent: bool)
    requires InDomain(d)
    ensures StrictDecimal(Print(d), allowCurrency, allowPercent).Some?
    ensures SameValue(StrictDecimal(Print(d), allowCurrency, allowPercent).value, d)
    ensures SnapshotDecimal(Print(d)) == StrictDecimal(Print(d), allowCurrency, allowPercent)
  {
    hide ParsePlain, Print, Fixed, Pow10, StrictDecimal, SnapshotDecimal, Canonical;
    PrintIsCanonical(d);
    CanonicalInDomain(d);
    CanonicalKeepsValue(d);
    ParseFixed(Canonical(d));
    ParsedShape(Print(d));
    PlainIsClean(Print(d));
    StrictOnClean(Print(d), allowCurrency, allowPercent);
  }

  /** Two values print identically exactly when they are equal. */
  lemma PrintIdentifiesValues(a: Decimal, b: Decimal)
    requires InDomain(a) && InDomain(b)
    ensures Print(a) == Print(b) <==> SameValue(a, b)
  {
    hide ParsePlain, Print, Fixed, Pow10, SameValue, Canonical;
    PrintIsCanonical(a);
    PrintIsCanonical(b);
    CanonicalInDomain(a);
    CanonicalInDomain(b);
    if SameValue(a, b) {
      CanonicalUnique(a, b);
    }
    if Print(a) == Print(b) {
      ParseFixed(Canonical(a));
      ParseFixed(Canonical(b));
      SameThroughCanonical(a, b);
    }
  }

  lemma SameThroughCanonical(a: Decimal, b: Decimal)
    requires Canonical(a) == Canonical(b)
    ensures SameValue(a, b)
  {
    hide Pow10;
    CanonicalKeepsValue(a);
    CanonicalKeepsValue(b);
    ZeroTogether(Canonical(a), a);
    ZeroTogether(Canonical(b), b);
    var c := Canonical(a);
    CrossMultiply(c.coefficient, Pow10(c.scale), a.coefficient, Pow10(a.scale), b.coefficient, Pow10(b.scale));
  }

  lemma CrossMultiply(x: nat, px: nat, a: nat, pa: nat, b: nat, pb: nat)
    requires px >= 1 && pa >= 1 && pb >= 1
    requires x * pa == a * px && x * pb == b * px
    ensures a * pb == b * pa
  {
    calc {
      (a * pb) * px;
      (a * px) * pb;
      (x * pa) * pb;
      (x * pb) * pa;
      (b * px) * pa;
      (b * pa) * px;
    }
    Cancel(a * pb, b * pa, px);
  }

  /** Printed text has no trailing fraction zeros, no dangling point and no negative zero. */
  lemma PrintIsTidy(d: Decimal)
    ensures Print(d) != "" && Print(d) != "-0"
    ensures '.' in Print(d) ==> IsDigit(Print(d)[|Print(d)| - 1]) && Print(d)[|Print(d)| - 1] != '0'
  {
    hide Print, Fixed, Canonical;
    PrintIsCanonical(d);
    CanonicalKeepsValue(d);
    FixedEnd(Canonical(d));
    LastDigit(Canonical(d));
    if d.coefficient == 0 {
      assert Canonical(d) == Decimal(false, 0, 0) by { CanonicalZero(d); }
      assert Fixed(Decimal(false, 0, 0)) == "0" by { FixedZero(); }
    } else {
      ZeroTogether(Canonical(d), d);
      NotMinusZero(Canonical(d));
    }
  }

  lemma CanonicalZero(d: Decimal)
    requires d.coefficient == 0
    ensures Canonical(d) == Decimal(false, 0, 0)
  {
  }

  lemma FixedZero()
    ensures Fixed(Decimal(false, 0, 0)) == "0"
  {
  }

  /** Parentheses around an unsigned number negate it. */
  lemma ParenthesesNegate(u: string, allowCurrency: bool, allowPercent: bool)
    requires PlainShape(u) && IsDigit(u[0])
    ensures StrictDecimal("(" + u + ")", allowCurrency, allowPercent) == Some(PlainValue(u).(negative := true))
  {
    assert u != "";
    hide StrictDecimal, PlainShape, PlainValue, Clean;
    PlainIsClean(u);
    Unwrapped(u, allowCurrency, allowPercent);
    NegatedNumber(u);
  }

  lemma Unwrapped(u: string, allowCurrency: bool, allowPercent: bool)
    requires Clean(u) && u != ""
    ensures StrictDecimal("(" + u + ")", allowCurrency, allowPercent) == StrictNumber(u, true)
  {
    hide Replace, Strip, StrictNumber;
    var text := "(" + u + ")";
    StripTrimmed(text);
    StripTrimmed(u);
    assert text[1..|text| - 1] == u;
    ReplaceAbsent(text, MINUS_SIGN, Some('-'));
    ReplaceAbsent(u, ' ', None);
  }

  lemma NegatedNumber(u: string)
    requires PlainShape(u) && Clean(u) && IsDigit(u[0])
    ensures StrictNumber(u, true) == Some(PlainValue(u).(negative := true))
  {
    hide Replace, IndexOf, NatOf;
    assert Unsigned(u) == u && Unsigned("-" + u) == u;
    assert ',' !in u;
  }
}
