/** Which texts the strict parser accepts: numerals in currency symbols, percent signs, parentheses and white space. */
module DecimalDress {
  import opened CreditModel
  import opened DecimalText
  import opened DecimalLemmas
  import opened DecimalGrouping

  // ---------------------------------------------------------------- the texts

  /** What stands around a number: white space everywhere, and the marks, each present or not. */
  datatype Dress = Dress(
    before: string,
    parentheses: bool, opening: string,
    prefix: Option<char>, prefixGap: string,
    suffixGap: string, suffix: Option<char>,
    percentGap: string, percent: bool,
    closing: string,
    after: string)

  /** Dollar, pound, euro, yen, taka and rupee. */
  const SYMBOLS: set<char> := {'$', '\U{00A3}', '\U{20AC}', '\U{00A5}', '\U{09F3}', '\U{20B9}'}

  /** Space, the five control characters from tab to carriage return, and the four separators. */
  predicate White(c: char) {
    c == ' ' || 9 <= c as int <= 13 || 28 <= c as int <= 31
  }

  predicate Blanks(s: string) { forall i | 0 <= i < |s| :: White(s[i]) }

  predicate Worn(d: Dress) {
    && Blanks(d.before) && Blanks(d.opening) && Blanks(d.prefixGap) && Blanks(d.suffixGap)
    && Blanks(d.percentGap) && Blanks(d.closing) && Blanks(d.after)
    && (d.prefix.Some? ==> d.prefix.value in SYMBOLS)
    && (d.suffix.Some? ==> d.suffix.value in SYMBOLS)
  }

  function WithSuffix(d: Dress, core: string): string {
    if d.suffix.Some? then core + (d.suffixGap + [d.suffix.value]) else core
  }

  function WithPrefix(d: Dress, core: string): string {
    if d.prefix.Some? then [d.prefix.value] + (d.prefixGap + WithSuffix(d, core)) else WithSuffix(d, core)
  }

  function WithPercent(d: Dress, core: string): string {
    if d.percent then WithPrefix(d, core) + (d.percentGap + "%") else WithPrefix(d, core)
  }

  function WithParentheses(d: Dress, core: string): string {
    if d.parentheses then "(" + (d.opening + WithPercent(d, core) + d.closing) + ")" else WithPercent(d, core)
  }

  function Wear(d: Dress, core: string): string {
    d.before + WithParentheses(d, core) + d.after
  }

  /** The characters of a number as it is written: digits, separators, signs (U+2212 too) and spaces between them. */
  predicate NumberChar(c: char) {
    IsDigit(c) || c == '.' || c == ',' || c == '+' || c == '-' || c == MINUS_SIGN || c == ' '
  }

  predicate CoreText(core: string) {
    && core != "" && core[0] != ' ' && core[|core| - 1] != ' '
    && forall i | 0 <= i < |core| :: NumberChar(core[i])
  }

  function Signs(s: string): string { Replace(s, MINUS_SIGN, Some('-')) }

  /** The number with its minus sign unified and its spaces removed. */
  function Flatten(core: string): string { Replace(Signs(core), ' ', None) }

  // ---------------------------------------------------------------- the minus sign commutes with every step

  lemma {:induction false} SignsAt(s: string)
    ensures |Signs(s)| == |s|
    ensures forall i | 0 <= i < |s| :: Signs(s)[i] == if s[i] == MINUS_SIGN then '-' else s[i]
  {
    if s != "" {
      SignsAt(s[1..]);
    }
  }

  lemma SignsSlice(s: string, i: nat, j: nat)
    requires i <= j <= |s|
    ensures |Signs(s)| == |s| && Signs(s)[i..j] == Signs(s[i..j])
  {
    SignsAt(s);
    SignsAt(s[i..j]);
    hide Signs;
  }

  lemma {:induction false} SignsLeft(s: string)
    ensures StripLeft(Signs(s)) == Signs(StripLeft(s))
  {
    SignsAt(s);
    if s != "" && IsSpace(s[0]) {
      SignsLeft(s[1..]);
      SignsSlice(s, 1, |s|);
      hide Signs;
    }
  }

  lemma {:induction false} SignsRight(s: string)
    ensures StripRight(Signs(s)) == Signs(StripRight(s))
  {
    SignsAt(s);
    hide Signs;
    if s != "" && IsSpace(s[|s| - 1]) {
      SignsRight(s[..|s| - 1]);
      SignsSlice(s, 0, |s| - 1);
    }
  }

  lemma SignsStrip(s: string)
    ensures Strip(Signs(s)) == Signs(Strip(s))
  {
    hide Signs, StripLeft, StripRight;
    SignsLeft(s);
    SignsRight(StripLeft(s));
  }

  /** The text with its decorations taken off, before the minus sign is unified. */
  function Core(text: string): (string, bool, bool, bool, bool) {
    var (parentheses, a) := Unparenthesized(Strip(text));
    var (percent, b) := Unpercented(a);
    var (prefixed, c) := Unprefixed(b);
    var (suffixed, core) := Unsuffixed(c);
    (core, parentheses, percent, prefixed, suffixed)
  }

  lemma PeelsCommute(s: string)
    ensures Unparenthesized(Signs(s)) == (Unparenthesized(s).0, Signs(Unparenthesized(s).1))
    ensures Unpercented(Signs(s)) == (Unpercented(s).0, Signs(Unpercented(s).1))
    ensures Unprefixed(Signs(s)) == (Unprefixed(s).0, Signs(Unprefixed(s).1))
    ensures Unsuffixed(Signs(s)) == (Unsuffixed(s).0, Signs(Unsuffixed(s).1))
  {
    hide Signs, Strip;
    SignsAt(s);
    if s != "" {
      SignsSlice(s, 1, |s|);
      assert s[1..|s|] == s[1..] && Signs(s)[1..|s|] == Signs(s)[1..];
      SignsStrip(s[1..]);
      SignsSlice(s, 0, |s| - 1);
      SignsStrip(s[..|s| - 1]);
      if |s| > 1 {
        SignsSlice(s, 1, |s| - 1);
        SignsStrip(s[1..|s| - 1]);
      }
    }
  }

  lemma ParsedByCore(text: string, allowCurrency: bool, allowPercent: bool)
    ensures var (core, parentheses, percent, prefixed, suffixed) := Core(text);
      StrictDecimal(text, allowCurrency, allowPercent)
      == if (percent && !allowPercent) || ((prefixed || suffixed) && !allowCurrency) then None
         else StrictNumber(Flatten(core), parentheses)
  {
    hide Strip, StrictNumber, Unparenthesized, Unpercented, Unprefixed, Unsuffixed;
    var a := Unparenthesized(Strip(text)).1;
    var b := Unpercented(a).1;
    var c := Unprefixed(b).1;
    PeelsCommute(Strip(text));
    PeelsCommute(a);
    PeelsCommute(b);
    PeelsCommute(c);
  }

  // ---------------------------------------------------------------- taking the decorations off

  predicate Trimmed(s: string) { s != "" && !IsSpace(s[0]) && !IsSpace(s[|s| - 1]) }

  lemma {:induction false} StripLeftBlanks(a: string, s: string)
    requires Blanks(a) && s != "" && !IsSpace(s[0])
    ensures StripLeft(a + s) == s
  {
    if a == "" {
      assert a + s == s;
    } else {
      assert (a + s)[1..] == a[1..] + s;
      StripLeftBlanks(a[1..], s);
    }
  }

  lemma {:induction false} StripRightBlanks(s: string, b: string)
    requires Blanks(b) && s != "" && !IsSpace(s[|s| - 1])
    ensures StripRight(s + b) == s
  {
    if b == "" {
      assert s + b == s;
    } else {
      assert (s + b)[..|s + b| - 1] == s + b[..|b| - 1];
      StripRightBlanks(s, b[..|b| - 1]);
    }
  }

  lemma StripAround(a: string, s: string, b: string)
    requires Blanks(a) && Blanks(b) && Trimmed(s)
    ensures Strip(a + s + b) == s && Strip(a + s) == s && Strip(s + b) == s
  {
    hide StripLeft, StripRight;
    assert a + s + b == a + (s + b);
    StripLeftBlanks(a, s + b);
    StripLeftBlanks(a, s);
    StripLeftBlanks("", s + b);
    assert "" + (s + b) == s + b && s + "" == s;
    StripRightBlanks(s, b);
    StripRightBlanks(s, "");
  }

  lemma CoreTrimmed(core: string)
    requires CoreText(core)
    ensures Trimmed(core) && !IsCurrency(core[0]) && !IsCurrency(core[|core| - 1])
    ensures core[0] != '(' && core[|core| - 1] != '%' && core[|core| - 1] != ')'
  {
    assert NumberChar(core[0]) && NumberChar(core[|core| - 1]);
  }

  lemma SuffixOff(d: Dress, core: string)
    requires Worn(d) && CoreText(core)
    ensures Unsuffixed(WithSuffix(d, core)) == (d.suffix.Some?, core)
    ensures var s := WithSuffix(d, core);
      Trimmed(s) && s[0] == core[0] && !IsCurrency(s[0]) && s[|s| - 1] != '%' && s[|s| - 1] != ')'
  {
    hide Strip;
    CoreTrimmed(core);
    var s := WithSuffix(d, core);
    if d.suffix.Some? {
      assert s[..|s| - 1] == core + d.suffixGap;
      StripAround("", core, d.suffixGap);
    }
  }

  lemma PrefixOff(d: Dress, core: string)
    requires Worn(d) && CoreText(core)
    ensures Unprefixed(WithPrefix(d, core)) == (d.prefix.Some?, WithSuffix(d, core))
    ensures var s := WithPrefix(d, core); Trimmed(s) && s[0] != '(' && s[|s| - 1] != '%' && s[|s| - 1] != ')'
  {
    hide Strip, WithSuffix;
    CoreTrimmed(core);
    SuffixOff(d, core);
    var inner := WithSuffix(d, core);
    if d.prefix.Some? {
      assert WithPrefix(d, core)[1..] == d.prefixGap + inner;
      StripAround(d.prefixGap, inner, "");
    }
  }

  lemma PercentOff(d: Dress, core: string)
    requires Worn(d) && CoreText(core)
    ensures Unpercented(WithPercent(d, core)) == (d.percent, WithPrefix(d, core))
    ensures var s := WithPercent(d, core); Trimmed(s) && s[0] != '(' && s[|s| - 1] != ')'
  {
    hide Strip, WithPrefix;
    PrefixOff(d, core);
    var inner := WithPrefix(d, core);
    if d.percent {
      var s := WithPercent(d, core);
      assert s[..|s| - 1] == inner + d.percentGap;
      StripAround("", inner, d.percentGap);
    }
  }

  lemma ParenthesesOff(d: Dress, core: string)
    requires Worn(d) && CoreText(core)
    ensures Unparenthesized(WithParentheses(d, core)) == (d.parentheses, WithPercent(d, core))
    ensures Trimmed(WithParentheses(d, core))
  {
    hide Strip, WithPercent;
    PercentOff(d, core);
    var inner := WithPercent(d, core);
    if d.parentheses {
      var s := WithParentheses(d, core);
      assert s[1..|s| - 1] == d.opening + inner + d.closing;
      StripAround(d.opening, inner, d.closing);
    }
  }

  /** The decorations decide only whether the text is allowed, and parentheses the sign. */
  lemma DressedParses(d: Dress, core: string, allowCurrency: bool, allowPercent: bool)
    requires Worn(d) && CoreText(core)
    ensures StrictDecimal(Wear(d, core), allowCurrency, allowPercent)
         == if (d.percent && !allowPercent) || ((d.prefix.Some? || d.suffix.Some?) && !allowCurrency) then None
            else StrictNumber(Flatten(core), d.parentheses)
  {
    hide Strip, StrictNumber, Flatten, StrictDecimal, WithParentheses, WithPercent, WithPrefix, WithSuffix;
    ParenthesesOff(d, core);
    PercentOff(d, core);
    PrefixOff(d, core);
    SuffixOff(d, core);
    StripAround(d.before, WithParentheses(d, core), d.after);
    hide Unparenthesized, Unpercented, Unprefixed, Unsuffixed;
    ParsedByCore(Wear(d, core), allowCurrency, allowPercent);
  }

  // ---------------------------------------------------------------- the values

  /** A numeral as people write it: a sign, a whole part plain or grouped, a fraction. */
  predicate WellWritten(sign: string, w: string, fraction: string) {
    SignText(sign) && AllDigits(w) && 1 <= |w| <= 40 && AllDigits(fraction) && |fraction| <= 20
  }

  function Written(sign: string, w: string, fraction: string, grouped: bool): string {
    Numeral(sign, if grouped then Group(w) else w, fraction)
  }

  lemma NumberUngrouped(sign: string, w: string, fraction: string, grouped: bool)
    requires WellWritten(sign, w, fraction)
    ensures StrictNumber(Written(sign, w, fraction, grouped), false) == Some(Decimal(sign == "-", NatOf(w + fraction), |fraction|))
    ensures StrictNumber(Written(sign, w, fraction, grouped), true)
         == if sign == "" then Some(Decimal(true, NatOf(w + fraction), |fraction|)) else None
  {
    hide ParsePlain, Replace, GroupedShape, NatOf, Body, Group;
    var plain, text := Numeral(sign, w, fraction), Written(sign, w, fraction, grouped);
    SignedNumeral(sign, w, fraction);
    SignedNumeral("-", w, fraction);
    if grouped && |w| > 3 {
      NumeralCharacters(sign, w, fraction);
      GroupedNumeralShape(sign, w, fraction);
      UngroupNumeral(sign, w, fraction);
    } else {
      ShortGroup(w);
      PlainHasNoComma(sign, w, fraction);
    }
    NumeralHead(sign, w, fraction);
    assert sign == "" ==> "-" + plain == Numeral("-", w, fraction);
  }

  lemma ShortGroup(w: string)
    ensures |w| <= 3 ==> Group(w) == w
  {
  }

  lemma PlainHasNoComma(sign: string, w: string, fraction: string)
    requires WellWritten(sign, w, fraction)
    ensures ',' !in Numeral(sign, w, fraction)
  {
  }

  lemma NumeralHead(sign: string, w: string, fraction: string)
    requires WellWritten(sign, w, fraction)
    ensures var s := Numeral(sign, w, fraction); s != "" && (s[0] == '+' || s[0] == '-' <==> sign != "")
    ensures sign == "" ==> "-" + Numeral(sign, w, fraction) == Numeral("-", w, fraction)
  {
    assert IsDigit(w[0]);
  }

  predicate MayWear(d: Dress, allowCurrency: bool, allowPercent: bool) {
    (d.percent ==> allowPercent) && (d.prefix.Some? || d.suffix.Some? ==> allowCurrency)
  }

  /**
    Every numeral, plain or grouped, signed or not, in any decoration the field allows, has its own value, negated by
    parentheses; a decoration the field does not allow, or a sign inside parentheses, makes the text unreadable.
    */
  lemma DressedValue(d: Dress, core: string, sign: string, w: string, fraction: string, grouped: bool, allowCurrency: bool, allowPercent: bool)
    requires Worn(d) && CoreText(core) && WellWritten(sign, w, fraction) && Flatten(core) == Written(sign, w, fraction, grouped)
    ensures StrictDecimal(Wear(d, core), allowCurrency, allowPercent)
         == if !MayWear(d, allowCurrency, allowPercent) || (d.parentheses && sign != "") then None
            else Some(Decimal(d.parentheses || sign == "-", NatOf(w + fraction), |fraction|))
  {
    hide StrictDecimal, StrictNumber, Flatten, Wear, Written, NatOf;
    DressedParses(d, core, allowCurrency, allowPercent);
    NumberUngrouped(sign, w, fraction, grouped);
  }

  /** Flattening works piece by piece: it drops spaces, turns U+2212 into '-', and keeps everything else. */
  lemma FlattenPieces(a: string, b: string)
    ensures Flatten(a + b) == Flatten(a) + Flatten(b)
    ensures Flatten(" ") == "" && Flatten([MINUS_SIGN]) == "-"
    ensures ' ' !in a && MINUS_SIGN !in a ==> Flatten(a) == a
  {
    ReplaceAppend(a, b, MINUS_SIGN, Some('-'));
    ReplaceAppend(Signs(a), Signs(b), ' ', None);
    assert " "[1..] == "" && [MINUS_SIGN][1..] == "" && "-"[1..] == "";
    if ' ' !in a && MINUS_SIGN !in a {
      ReplaceAbsent(a, MINUS_SIGN, Some('-'));
      ReplaceAbsent(a, ' ', None);
    }
  }

  // ---------------------------------------------------------------- nothing else is accepted

  lemma {:induction false} LeftParts(s: string) returns (a: string)
    ensures s == a + StripLeft(s) && Blanks(a)
  {
    a := "";
    if s != "" && IsSpace(s[0]) {
      var rest := LeftParts(s[1..]);
      a := [s[0]] + rest;
      assert s == [s[0]] + s[1..];
    }
  }

  lemma {:induction false} RightParts(s: string) returns (b: string)
    ensures s == StripRight(s) + b && Blanks(b)
  {
    b := "";
    if s != "" && IsSpace(s[|s| - 1]) {
      var rest := RightParts(s[..|s| - 1]);
      b := rest + [s[|s| - 1]];
      assert s == s[..|s| - 1] + [s[|s| - 1]];
    }
  }

  lemma StripParts(s: string) returns (a: string, b: string)
    ensures s == a + Strip(s) + b && Blanks(a) && Blanks(b)
    ensures Strip(s) == "" || Trimmed(Strip(s))
  {
    hide StripLeft, StripRight;
    a := LeftParts(s);
    b := RightParts(StripLeft(s));
    assert a + (Strip(s) + b) == a + Strip(s) + b;
    StripEnds(s);
  }

  /** A trimmed text loses no white space on the side where a mark is taken off only on the other. */
  lemma TrimmedInit(s: string) returns (b: string)
    requires Trimmed(s) && Strip(s[..|s| - 1]) != ""
    ensures s == Strip(s[..|s| - 1]) + (b + [s[|s| - 1]]) && Blanks(b)
  {
    var a, rest := StripParts(s[..|s| - 1]);
    b := rest;
    assert s == s[..|s| - 1] + [s[|s| - 1]];
  }

  lemma TrimmedTail(s: string) returns (a: string)
    requires Trimmed(s) && Strip(s[1..]) != ""
    ensures s == [s[0]] + (a + Strip(s[1..])) && Blanks(a)
  {
    var head, rest := StripParts(s[1..]);
    a := head;
    assert s == [s[0]] + s[1..];
  }

  lemma SuffixOn(c: string) returns (gap: string, mark: Option<char>)
    requires Trimmed(c) && Unsuffixed(c).1 != ""
    ensures var (suffixed, core) := Unsuffixed(c);
      && Blanks(gap) && mark.Some? == suffixed && Trimmed(core)
      && if mark.Some? then IsCurrency(mark.value) && c == core + (gap + [mark.value]) else c == core
  {
    hide Strip;
    gap, mark := "", None;
    if Unsuffixed(c).0 {
      gap := TrimmedInit(c);
      mark := Some(c[|c| - 1]);
      StripEnds(c[..|c| - 1]);
    }
  }

  lemma PrefixOn(b: string) returns (gap: string, mark: Option<char>)
    requires Trimmed(b) && Unprefixed(b).1 != ""
    ensures var (prefixed, c) := Unprefixed(b);
      && Blanks(gap) && mark.Some? == prefixed && Trimmed(c)
      && if mark.Some? then IsCurrency(mark.value) && b == [mark.value] + (gap + c) else b == c
  {
    hide Strip;
    gap, mark := "", None;
    if Unprefixed(b).0 {
      gap := TrimmedTail(b);
      mark := Some(b[0]);
      StripEnds(b[1..]);
    }
  }

  lemma PercentOn(a: string) returns (gap: string)
    requires Trimmed(a) && Unpercented(a).1 != ""
    ensures var (percent, b) := Unpercented(a);
      Blanks(gap) && Trimmed(b) && if percent then a == b + (gap + "%") else a == b
  {
    hide Strip;
    gap := "";
    if Unpercented(a).0 {
      gap := TrimmedInit(a);
      StripEnds(a[..|a| - 1]);
    }
  }

  lemma ParenthesesOn(t: string) returns (opening: string, closing: string)
    requires Trimmed(t) && Unparenthesized(t).1 != ""
    ensures var (parentheses, a) := Unparenthesized(t);
      && Blanks(opening) && Blanks(closing) && Trimmed(a)
      && if parentheses then t == "(" + (opening + a + closing) + ")" else t == a
  {
    hide Strip;
    opening, closing := "", "";
    if Unparenthesized(t).0 {
      opening, closing := StripParts(t[1..|t| - 1]);
      assert |t| > 1;
      assert t == "(" + t[1..|t| - 1] + ")";
    }
  }

  /** Every text is its core in decorations, as long as something is left. */
  lemma TextIsDressed(text: string) returns (d: Dress)
    requires Core(text).0 != ""
    ensures var (core, parentheses, percent, prefixed, suffixed) := Core(text);
      && Worn(d) && text == Wear(d, core) && Trimmed(core)
      && d.parentheses == parentheses && d.percent == percent && d.prefix.Some? == prefixed && d.suffix.Some? == suffixed
  {
    EmptyStays();
    hide Strip, Unparenthesized, Unpercented, Unprefixed, Unsuffixed;
    var t := Strip(text);
    var (parentheses, a) := Unparenthesized(t);
    var (percent, b) := Unpercented(a);
    var before, after := StripParts(text);
    var opening, closing := ParenthesesOn(t);
    var percentGap := PercentOn(a);
    var prefixGap, prefix := PrefixOn(b);
    var suffixGap, suffix := SuffixOn(Unprefixed(b).1);
    d := Dress(before, parentheses, opening, prefix, prefixGap, suffixGap, suffix, percentGap, percent, closing, after);
  }

  lemma EmptyStays()
    ensures Unparenthesized("").1 == "" && Unpercented("").1 == "" && Unprefixed("").1 == "" && Unsuffixed("").1 == ""
  {
  }

  lemma {:induction false} GroupsLast(g: string) returns (front: string, three: string)
    requires Groups(g) && g != ""
    ensures g == front + "," + three && Groups(front) && |three| == 3 && AllDigits(three)
  {
    if g[4..] == "" {
      front, three := "", g[1..4];
    } else {
      var f, t := GroupsLast(g[4..]);
      front, three := g[..4] + f, t;
      assert front[1..4] == g[1..4] && front[4..] == f;
      assert g == g[..4] + g[4..];
    }
  }

  /** A whole part of the grouped shape is the grouping of its own digits. */
  lemma {:induction false} GroupedWhole(lead: string, g: string) returns (w: string)
    requires 1 <= |lead| <= 3 && AllDigits(lead) && Groups(g)
    ensures AllDigits(w) && Group(w) == lead + g && |w| >= |lead| && (g != "" ==> |w| > 3)
    decreases |g|
  {
    if g == "" {
      w := lead;
      assert lead + g == lead;
    } else {
      var front, three := GroupsLast(g);
      var v := GroupedWhole(lead, front);
      w := v + three;
      assert w[..|w| - 3] == v && w[|w| - 3..] == three;
      assert lead + g == lead + front + "," + three;
    }
  }

  function SignOf(s: string): string {
    if s != "" && (s[0] == '+' || s[0] == '-') then s[..1] else ""
  }

  lemma SignSplit(s: string)
    ensures s == SignOf(s) + Unsigned(s) && SignText(SignOf(s))
  {
  }

  function FractionOf(body: string): string {
    var point := IndexOf(body, '.');
    if point < |body| then body[point + 1..] else ""
  }

  lemma SplitAt(s: string, k: nat)
    requires k <= |s|
    ensures s == s[..k] + s[k..]
  {
  }

  lemma BodySplit(body: string)
    requires var point := IndexOf(body, '.'); point < |body| ==> point + 1 < |body|
    ensures body == Body(body[..IndexOf(body, '.')], FractionOf(body))
  {
    var point := IndexOf(body, '.');
    hide IndexOf;
    SplitAt(body, point);
    if point < |body| {
      HeadAndTail(body[point..]);
      assert body[point..][1..] == body[point + 1..];
    } else {
      assert body[point..] == "";
    }
  }

  lemma HeadAndTail(s: string)
    requires s != ""
    ensures s == [s[0]] + s[1..]
  {
  }

  lemma NumeralUnique(sign: string, w: string, fraction: string, sign': string, w': string, fraction': string)
    requires SignText(sign) && AllDigits(w) && w != "" && AllDigits(fraction)
    requires SignText(sign') && AllDigits(w') && w' != "" && AllDigits(fraction')
    requires Numeral(sign, w, fraction) == Numeral(sign', w', fraction')
    ensures sign == sign' && w == w' && fraction == fraction'
  {
    hide IndexOf;
    assert IsDigit(w[0]) && IsDigit(w'[0]);
    UnsignedNumeral(sign, w, fraction);
    UnsignedNumeral(sign', w', fraction');
    DigitsHaveNo(w, '.');
    DigitsHaveNo(w', '.');
    PointOf(w, fraction);
    PointOf(w', fraction');
    assert Numeral(sign, w, fraction)[0] == if sign == "" then w[0] else sign[0];
    assert Numeral(sign', w', fraction')[0] == if sign' == "" then w'[0] else sign'[0];
  }

  lemma PlainParts(s: string) returns (w: string, fraction: string)
    requires PlainShape(s)
    ensures WellWritten(SignOf(s), w, fraction) && s == Numeral(SignOf(s), w, fraction)
  {
    var body := Unsigned(s);
    w, fraction := body[..IndexOf(body, '.')], FractionOf(body);
    hide IndexOf;
    SignSplit(s);
    BodySplit(body);
  }

  lemma GroupedParts(s: string) returns (w: string, fraction: string)
    requires GroupedShape(s)
    ensures SignText(SignOf(s)) && AllDigits(w) && |w| > 3 && AllDigits(fraction) && |fraction| <= 20
    ensures s == Numeral(SignOf(s), Group(w), fraction)
  {
    var body := Unsigned(s);
    var whole := body[..IndexOf(body, '.')];
    var comma := IndexOf(whole, ',');
    hide IndexOf, Group, Groups;
    SignSplit(s);
    BodySplit(body);
    w := GroupedWhole(whole[..comma], whole[comma..]);
    SplitAt(whole, comma);
    fraction := FractionOf(body);
  }

  lemma PlainNumberParts(plain: string, parentheses: bool) returns (w: string, fraction: string)
    requires plain != "" && (parentheses ==> plain[0] != '+' && plain[0] != '-')
    requires ParsePlain(if parentheses then "-" + plain else plain).Some?
    ensures WellWritten(SignOf(plain), w, fraction) && plain == Numeral(SignOf(plain), w, fraction)
    ensures parentheses ==> SignOf(plain) == ""
  {
    hide PlainShape, PlainValue, Body;
    var text := if parentheses then "-" + plain else plain;
    w, fraction := PlainParts(text);
    if parentheses {
      assert text[1..] == plain;
      assert Numeral("-", w, fraction)[1..] == Body(w, fraction);
      assert Numeral("", w, fraction) == Body(w, fraction);
    }
  }

  lemma NumberParts(s: string, parentheses: bool) returns (sign: string, w: string, fraction: string, grouped: bool)
    requires StrictNumber(s, parentheses).Some?
    ensures WellWritten(sign, w, fraction) && s == Written(sign, w, fraction, grouped) && (parentheses ==> sign == "")
  {
    hide PlainShape, GroupedShape, PlainValue, Replace, Group, Numeral;
    grouped := ',' in s;
    var plain := if grouped then Replace(s, ',', None) else s;
    if plain == "" {
      NothingParses(parentheses);
      assert false;
    }
    w, fraction := PlainNumberParts(plain, parentheses);
    sign := SignOf(plain);
    if grouped {
      var digits, part := GroupedParts(s);
      UngroupNumeral(SignOf(s), digits, part);
      NumeralUnique(SignOf(s), digits, part, sign, w, fraction);
    }
  }

  lemma NothingParses(parentheses: bool)
    ensures ParsePlain(if parentheses then "-" + "" else "").None?
  {
  }

  lemma {:induction false} ReplaceKeeps(s: string, target: char, substitute: Option<char>, c: char)
    requires c in s && c != target
    ensures c in Replace(s, target, substitute)
  {
    if s[0] != c {
      assert s == [s[0]] + s[1..];
      ReplaceKeeps(s[1..], target, substitute, c);
    }
  }

  lemma WrittenCharacters(sign: string, w: string, fraction: string, grouped: bool)
    requires WellWritten(sign, w, fraction)
    ensures forall c | c in Written(sign, w, fraction, grouped) :: IsDigit(c) || c == ',' || c == '.' || c == '+' || c == '-'
  {
    if grouped && |w| > 3 {
      NumeralCharacters(sign, w, fraction);
    } else {
      ShortGroup(w);
    }
  }

  lemma CoreCharacters(core: string, sign: string, w: string, fraction: string, grouped: bool)
    requires WellWritten(sign, w, fraction) && Flatten(core) == Written(sign, w, fraction, grouped) && Trimmed(core)
    ensures CoreText(core)
  {
    WrittenCharacters(sign, w, fraction, grouped);
    hide Written, Replace;
    forall i | 0 <= i < |core| ensures NumberChar(core[i]) {
      if core[i] != ' ' && core[i] != MINUS_SIGN {
        ReplaceKeeps(core, MINUS_SIGN, Some('-'), core[i]);
        ReplaceKeeps(Signs(core), ' ', None, core[i]);
      }
    }
  }

  /** The converse: whatever the parser accepts is a numeral in a decoration that the field allows. */
  lemma AcceptedIsDressed(text: string, allowCurrency: bool, allowPercent: bool)
    returns (d: Dress, core: string, sign: string, w: string, fraction: string, grouped: bool)
    requires StrictDecimal(text, allowCurrency, allowPercent).Some?
    ensures Worn(d) && CoreText(core) && text == Wear(d, core) && MayWear(d, allowCurrency, allowPercent)
    ensures WellWritten(sign, w, fraction) && Flatten(core) == Written(sign, w, fraction, grouped) && (d.parentheses ==> sign == "")
  {
    ParsedByCore(text, allowCurrency, allowPercent);
    var (rest, parentheses, percent, prefixed, suffixed) := Core(text);
    core := rest;
    hide StrictDecimal, Core, CoreText, Worn, Wear, Flatten, Written, WellWritten;
    sign, w, fraction, grouped := NumberParts(Flatten(core), parentheses);
    WrittenIsText(sign, w, fraction, grouped, core);
    d := TextIsDressed(text);
    CoreCharacters(core, sign, w, fraction, grouped);
  }

  lemma WrittenIsText(sign: string, w: string, fraction: string, grouped: bool, core: string)
    requires WellWritten(sign, w, fraction) && Flatten(core) == Written(sign, w, fraction, grouped)
    ensures core != ""
  {
    if |w| > 3 {
      NumeralCharacters(sign, w, fraction);
    }
    ShortGroup(w);
  }

  // ---------------------------------------------------------------- the snapshot parser

  /** The snapshot parser reads every plain numeral with white space around it. */
  lemma SnapshotReads(before: string, sign: string, w: string, fraction: string, after: string)
    requires Blanks(before) && Blanks(after) && WellWritten(sign, w, fraction)
    ensures SnapshotDecimal(before + Numeral(sign, w, fraction) + after) == Some(Decimal(sign == "-", NatOf(w + fraction), |fraction|))
  {
    hide ParsePlain, Strip, NatOf, Numeral;
    SignedNumeral(sign, w, fraction);
    NumeralTrimmed(sign, w, fraction);
    StripAround(before, Numeral(sign, w, fraction), after);
  }

  lemma NumeralTrimmed(sign: string, w: string, fraction: string)
    requires WellWritten(sign, w, fraction)
    ensures Trimmed(Numeral(sign, w, fraction))
  {
    var s := Numeral(sign, w, fraction);
    assert s[|s| - 1] == if fraction == "" then w[|w| - 1] else fraction[|fraction| - 1];
    assert s[0] == if sign == "" then w[0] else sign[0];
  }

  /** And it reads nothing else. */
  lemma SnapshotReadsOnly(text: string) returns (before: string, sign: string, w: string, fraction: string, after: string)
    requires SnapshotDecimal(text).Some?
    ensures Blanks(before) && Blanks(after) && WellWritten(sign, w, fraction) && text == before + Numeral(sign, w, fraction) + after
  {
    hide Strip, PlainShape, PlainValue, Numeral;
    before, after := StripParts(text);
    w, fraction := PlainParts(Strip(text));
    sign := SignOf(Strip(text));
  }
}
