/** Thousands separators: a grouped number parses to the value of the plain one. */
module DecimalGrouping {
  import opened CreditModel
  import opened DecimalText
  import opened DecimalLemmas

  /** A whole part with a comma before every third digit from the right. */
  function Group(w: string): string {
    if |w| <= 3 then w else Group(w[..|w| - 3]) + "," + w[|w| - 3..]
  }

  lemma {:induction false} GroupsAppend(a: string, three: string)
    requires Groups(a) && |three| == 3 && AllDigits(three)
    ensures Groups(a + "," + three)
  {
    if a == "" {
      assert (a + "," + three)[1..4] == three && (a + "," + three)[4..] == "";
    } else {
      GroupsAppend(a[4..], three);
      assert (a + "," + three)[4..] == a[4..] + "," + three;
      assert (a + "," + three)[1..4] == a[1..4];
    }
  }

  /** The leading digits of a grouped whole part. */
  function Lead(w: string): string {
    if |w| <= 3 then w else Lead(w[..|w| - 3])
  }

  lemma {:induction false} GroupShape(w: string)
    requires AllDigits(w) && |w| >= 1
    ensures 1 <= |Lead(w)| <= 3 && AllDigits(Lead(w)) && |Lead(w)| <= |Group(w)|
    ensures Group(w)[..|Lead(w)|] == Lead(w) && Groups(Group(w)[|Lead(w)|..])
    ensures |w| > 3 ==> |Lead(w)| < |Group(w)|
    ensures |w| <= |Group(w)|
  {
    if |w| <= 3 {
      assert Group(w)[|w|..] == "";
    } else {
      var shorter, three := w[..|w| - 3], w[|w| - 3..];
      GroupShape(shorter);
      GroupsAppend(Group(shorter)[|Lead(w)|..], three);
      hide Groups;
      SliceAppend(Group(shorter), "," + three, |Lead(w)|);
      Associate(Group(shorter), ",", three);
      Associate(Group(shorter)[|Lead(w)|..], ",", three);
    }
  }

  lemma SliceAppend(a: string, b: string, k: nat)
    requires k <= |a|
    ensures (a + b)[..k] == a[..k] && (a + b)[k..] == a[k..] + b
  {
  }

  lemma ReplaceHead(s: string, target: char, substitute: Option<char>, head: string)
    requires s != "" && head == (if s[0] == target then (if substitute.Some? then [substitute.value] else "") else [s[0]])
    ensures Replace(s, target, substitute) == head + Replace(s[1..], target, substitute)
  {
  }

  lemma Associate(a: string, b: string, c: string)
    ensures a + (b + c) == (a + b) + c
  {
  }

  lemma {:induction false} ReplaceAppend(a: string, b: string, target: char, substitute: Option<char>)
    ensures Replace(a + b, target, substitute) == Replace(a, target, substitute) + Replace(b, target, substitute)
  {
    hide Replace;
    if a == "" {
      assert a + b == b;
      ReplaceAbsent(a, target, substitute);
    } else {
      ReplaceAppend(a[1..], b, target, substitute);
      assert (a + b)[1..] == a[1..] + b && (a + b)[0] == a[0];
      var head := if a[0] == target then (if substitute.Some? then [substitute.value] else "") else [a[0]];
      ReplaceHead(a + b, target, substitute, head);
      ReplaceHead(a, target, substitute, head);
      Associate(head, Replace(a[1..], target, substitute), Replace(b, target, substitute));
    }
  }

  lemma DigitsHaveNo(s: string, c: char)
    requires AllDigits(s) && !IsDigit(c)
    ensures c !in s
  {
  }

  lemma {:induction false} UngroupWhole(w: string)
    requires AllDigits(w)
    ensures Replace(Group(w), ',', None) == w
  {
    if |w| <= 3 {
      DigitsHaveNo(w, ',');
      ReplaceAbsent(w, ',', None);
    } else {
      var shorter := w[..|w| - 3];
      var three := w[|w| - 3..];
      UngroupWhole(shorter);
      DigitsHaveNo(three, ',');
      ReplaceAbsent(three, ',', None);
      ReplaceAppend(Group(shorter) + ",", three, ',', None);
      ReplaceAppend(Group(shorter), ",", ',', None);
      assert Replace(",", ',', None) == "" by { assert ","[1..] == ""; }
      assert w == shorter + three;
    }
  }

  lemma {:induction false} GroupCharacters(w: string)
    requires AllDigits(w)
    ensures forall i | 0 <= i < |Group(w)| :: IsDigit(Group(w)[i]) || Group(w)[i] == ','
  {
    if |w| > 3 {
      GroupCharacters(w[..|w| - 3]);
    }
  }

  lemma {:induction false} IndexOfFirst(s: string, c: char, i: nat)
    requires i < |s| && s[i] == c && c !in s[..i]
    ensures IndexOf(s, c) == i
  {
    if i > 0 {
      assert s[0] in s[..i];
      assert s[..i] == [s[0]] + s[1..][..i - 1];
      IndexOfFirst(s[1..], c, i - 1);
    }
  }

  lemma IndexOfNone(s: string, c: char)
    requires c !in s
    ensures IndexOf(s, c) == |s|
  {
  }

  /** The text of a sign, a whole part (grouped or not) and a fraction. */
  function Numeral(sign: string, whole: string, fraction: string): string {
    sign + Body(whole, fraction)
  }

  predicate SignText(sign: string) { sign == "" || sign == "-" || sign == "+" }

  lemma GroupedNumeralShape(sign: string, w: string, fraction: string)
    requires SignText(sign) && AllDigits(w) && |w| > 3 && AllDigits(fraction) && |fraction| <= 20
    ensures GroupedShape(Numeral(sign, Group(w), fraction))
  {
    hide Numeral, Body, Group, Lead, Groups, IndexOf, Unsigned;
    GroupShape(w);
    GroupCharacters(w);
    var g := Group(w);
    var k := |Lead(w)|;
    FirstComma(w);
    DigitsHaveNo(Lead(w), ',');
    IndexOfFirst(g, ',', k);
    UnsignedNumeral(sign, g, fraction);
    PointOf(g, fraction);
    BodySize(g, fraction);
  }

  lemma FirstComma(w: string)
    requires AllDigits(w) && |w| > 3
    ensures |Lead(w)| < |Group(w)| && Group(w)[|Lead(w)|] == ','
    ensures Group(w) != "" && IsDigit(Group(w)[0])
    ensures '.' !in Group(w)
  {
    GroupShape(w);
    GroupCharacters(w);
    assert Group(w)[|Lead(w)|..] != "";
    assert Group(w)[..|Lead(w)|][0] == Lead(w)[0];
  }

  lemma UnsignedNumeral(sign: string, whole: string, fraction: string)
    requires SignText(sign) && whole != "" && IsDigit(whole[0])
    ensures Unsigned(Numeral(sign, whole, fraction)) == Body(whole, fraction)
  {
  }

  lemma PointOf(whole: string, fraction: string)
    requires '.' !in whole
    ensures IndexOf(Body(whole, fraction), '.') == |whole| && Body(whole, fraction)[..|whole|] == whole
    ensures fraction != "" ==> Body(whole, fraction)[|whole| + 1..] == fraction
  {
    if fraction == "" {
      assert Body(whole, fraction) == whole;
      IndexOfNone(whole, '.');
    } else {
      assert Body(whole, fraction)[..|whole|] == whole;
      IndexOfFirst(Body(whole, fraction), '.', |whole|);
    }
  }

  lemma UngroupNumeral(sign: string, w: string, fraction: string)
    requires SignText(sign) && AllDigits(w) && AllDigits(fraction)
    ensures Replace(Numeral(sign, Group(w), fraction), ',', None) == Numeral(sign, w, fraction)
  {
    hide Replace, Group;
    var tail := if fraction == "" then "" else "." + fraction;
    assert ',' !in sign && ',' !in tail;
    ReplaceAbsent(sign, ',', None);
    ReplaceAbsent(tail, ',', None);
    UngroupWhole(w);
    assert Numeral(sign, Group(w), fraction) == sign + (Group(w) + tail);
    ReplaceAppend(sign, Group(w) + tail, ',', None);
    ReplaceAppend(Group(w), tail, ',', None);
    assert Numeral(sign, w, fraction) == sign + (w + tail);
  }

  lemma NumeralCharacters(sign: string, w: string, fraction: string)
    requires SignText(sign) && AllDigits(w) && |w| > 3 && AllDigits(fraction)
    ensures forall i | 0 <= i < |Numeral(sign, Group(w), fraction)| ::
      var c := Numeral(sign, Group(w), fraction)[i]; IsDigit(c) || c == ',' || c == '.' || c == '+' || c == '-'
    ensures ',' in Numeral(sign, Group(w), fraction)
    ensures Numeral(sign, Group(w), fraction) != ""
  {
    GroupCharacters(w);
    GroupShape(w);
    var g := Group(w);
    assert g[|Lead(w)|] == ',';
    assert Numeral(sign, g, fraction)[|sign| + |Lead(w)|] == ',';
  }

  lemma StrictOnNumeralText(s: string, allowCurrency: bool, allowPercent: bool)
    requires s != "" && forall i | 0 <= i < |s| :: IsDigit(s[i]) || s[i] == ',' || s[i] == '.' || s[i] == '+' || s[i] == '-'
    ensures StrictDecimal(s, allowCurrency, allowPercent) == StrictNumber(s, false)
  {
    hide StrictNumber, Strip, Replace;
    StripTrimmed(s);
    ReplaceAbsent(s, MINUS_SIGN, Some('-'));
    ReplaceAbsent(s, ' ', None);
  }

  /** Commas before every third digit do not change the value; without them the text is parsed as it stands. */
  lemma GroupingKeepsValue(sign: string, w: string, fraction: string, allowCurrency: bool, allowPercent: bool)
    requires SignText(sign) && AllDigits(w) && 3 < |w| && AllDigits(fraction) && |fraction| <= 20
    ensures StrictDecimal(Numeral(sign, Group(w), fraction), allowCurrency, allowPercent) == ParsePlain(Numeral(sign, w, fraction))
    ensures |w| <= 40 ==> ParsePlain(Numeral(sign, w, fraction)) == Some(Decimal(sign == "-", NatOf(w + fraction), |fraction|))
  {
    hide StrictDecimal, ParsePlain, Replace, GroupedShape, Numeral, NatOf;
    NumeralCharacters(sign, w, fraction);
    StrictOnNumeralText(Numeral(sign, Group(w), fraction), allowCurrency, allowPercent);
    GroupedNumeralShape(sign, w, fraction);
    UngroupNumeral(sign, w, fraction);
    if |w| <= 40 {
      SignedNumeral(sign, w, fraction);
    }
  }

  lemma SignedNumeral(sign: string, w: string, fraction: string)
    requires SignText(sign) && AllDigits(w) && 1 <= |w| <= 40 && AllDigits(fraction) && |fraction| <= 20
    ensures ParsePlain(Numeral(sign, w, fraction)) == Some(Decimal(sign == "-", NatOf(w + fraction), |fraction|))
  {
    hide NatOf, IndexOf;
    ParseParts(sign == "-", w, fraction);
    UnsignedNumeral(sign, w, fraction);
    SignedParts(sign == "-", Body(w, fraction));
  }
}
