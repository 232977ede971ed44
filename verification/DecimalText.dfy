/** Strict decimal parsing and canonical decimal printing. */
module DecimalText {
  import opened CreditModel

  /** The value is coefficient / 10^scale, negated when `negative`; zero has two signs. */
  datatype Decimal = Decimal(negative: bool, coefficient: nat, scale: nat)

  function Pow10(n: nat): (p: nat)
    ensures p >= 1
  {
    if n == 0 then 1 else 10 * Pow10(n - 1)
  }

  ghost predicate SameValue(a: Decimal, b: Decimal) {
    && a.coefficient * Pow10(b.scale) == b.coefficient * Pow10(a.scale)
    && (a.coefficient == 0 || a.negative == b.negative)
  }

  // ---------------------------------------------------------------- digits

  predicate IsDigit(c: char) { '0' <= c <= '9' }

  predicate AllDigits(s: string) { forall i | 0 <= i < |s| :: IsDigit(s[i]) }

  function DigitChar(d: nat): (c: char)
    requires d < 10
    ensures IsDigit(c) && DigitValue(c) == d
  {
    '0' + (d as char)
  }

  function DigitValue(c: char): nat
    requires IsDigit(c)
  {
    (c as int) - ('0' as int)
  }

  function Digits(n: nat): (s: string)
    ensures |s| >= 1 && AllDigits(s)
  {
    if n < 10 then [DigitChar(n)] else Digits(n / 10) + [DigitChar(n % 10)]
  }

  function NatOf(s: string): nat
    requires AllDigits(s)
  {
    if s == "" then 0 else NatOf(s[..|s| - 1]) * 10 + DigitValue(s[|s| - 1])
  }

  function Zeros(n: nat): (s: string)
    ensures |s| == n && AllDigits(s) && forall i | 0 <= i < n :: s[i] == '0'
  {
    if n == 0 then "" else "0" + Zeros(n - 1)
  }

  // ---------------------------------------------------------------- text tools

  predicate IsSpace(c: char) {
    c == ' ' || c == '\t' || c == '\n' || c == '\r' || c == 11 as char || c == 12 as char || 28 as char <= c <= 31 as char
  }

  function StripLeft(s: string): string {
    if s != "" && IsSpace(s[0]) then StripLeft(s[1..]) else s
  }

  function StripRight(s: string): string {
    if s != "" && IsSpace(s[|s| - 1]) then StripRight(s[..|s| - 1]) else s
  }

  function Strip(s: string): string { StripRight(StripLeft(s)) }

  /** Replaces one character everywhere; None removes it. */
  function Replace(s: string, target: char, substitute: Option<char>): string {
    if s == "" then ""
    else (if s[0] == target then (if substitute.Some? then [substitute.value] else "") else [s[0]]) + Replace(s[1..], target, substitute)
  }

  function DropRight(s: string, c: char): string {
    if s != "" && s[|s| - 1] == c then DropRight(s[..|s| - 1], c) else s
  }

  function IndexOf(s: string, c: char): (i: nat)
    ensures i <= |s| && c !in s[..i] && (i < |s| ==> s[i] == c)
  {
    if s == "" then 0 else if s[0] == c then 0 else
      var rest := IndexOf(s[1..], c);
      assert s[..rest + 1] == [s[0]] + s[1..][..rest];
      rest + 1
  }

  // ---------------------------------------------------------------- parsing

  const MINUS_SIGN: char := '\U{2212}'

  predicate IsCurrency(c: char) {
    c == '$' || c == '\U{00A3}' || c == '\U{20AC}' || c == '\U{00A5}' || c == '\U{09F3}' || c == '\U{20B9}'
  }

  function Unsigned(s: string): string {
    if s != "" && (s[0] == '+' || s[0] == '-') then s[1..] else s
  }

  /** The strict pattern: a sign, one to forty digits, and a point with one to twenty digits. */
  predicate PlainShape(s: string) {
    var body := Unsigned(s);
    var point := IndexOf(body, '.');
    && 1 <= point <= 40 && AllDigits(body[..point])
    && (point < |body| ==> 1 <= |body| - point - 1 <= 20 && AllDigits(body[point + 1..]))
  }

  function PlainValue(s: string): Decimal
    requires PlainShape(s)
  {
    var body := Unsigned(s);
    var point := IndexOf(body, '.');
    var fraction := if point < |body| then body[point + 1..] else "";
    Decimal(s[0] == '-', NatOf(body[..point] + fraction), |fraction|)
  }

  function ParsePlain(s: string): Option<Decimal> {
    if PlainShape(s) then Some(PlainValue(s)) else None
  }

  /** One to three digits, then groups of a comma and three digits, then perhaps a fraction. */
  predicate Groups(s: string) {
    s == "" || (|s| >= 4 && s[0] == ',' && AllDigits(s[1..4]) && Groups(s[4..]))
  }

  predicate GroupedShape(s: string) {
    var body := Unsigned(s);
    var point := IndexOf(body, '.');
    var whole := body[..point];
    var comma := IndexOf(whole, ',');
    && 1 <= comma <= 3 && AllDigits(whole[..comma])
    && comma < |whole| && Groups(whole[comma..])
    && (point < |body| ==> 1 <= |body| - point - 1 <= 20 && AllDigits(body[point + 1..]))
  }

  /** The text branch of the snapshot column statistics. */
  function SnapshotDecimal(text: string): Option<Decimal> {
    ParsePlain(Strip(text))
  }

  /** The content of parentheses around the whole candidate. */
  function Unparenthesized(s: string): (bool, string) {
    if s != "" && s[0] == '(' && s[|s| - 1] == ')' then (true, Strip(s[1..|s| - 1])) else (false, s)
  }

  function Unpercented(s: string): (bool, string) {
    if s != "" && s[|s| - 1] == '%' then (true, Strip(s[..|s| - 1])) else (false, s)
  }

  function Unprefixed(s: string): (bool, string) {
    if s != "" && IsCurrency(s[0]) then (true, Strip(s[1..])) else (false, s)
  }

  function Unsuffixed(s: string): (bool, string) {
    if s != "" && IsCurrency(s[|s| - 1]) then (true, Strip(s[..|s| - 1])) else (false, s)
  }

  /** The text branch of the insight accumulator, rewriting one candidate step by step. */
  function StrictDecimal(text: string, allowCurrency: bool, allowPercent: bool): Option<Decimal> {
    var (parentheses, candidate) := Unparenthesized(Replace(Strip(text), MINUS_SIGN, Some('-')));
    var (percent, candidate) := Unpercented(candidate);
    if percent && !allowPercent then None
    else
      var (prefixed, candidate) := Unprefixed(candidate);
      if prefixed && !allowCurrency then None
      else
        var (suffixed, candidate) := Unsuffixed(candidate);
        if suffixed && !allowCurrency then None
        else StrictNumber(Replace(candidate, ' ', None), parentheses)
  }

  /** The grouping, sign and pattern checks on an undecorated candidate. */
  function StrictNumber(candidate: string, parentheses: bool): Option<Decimal> {
    if ',' in candidate && !GroupedShape(candidate) then None
    else
      var plain := if ',' in candidate then Replace(candidate, ',', None) else candidate;
      if parentheses && plain != "" && (plain[0] == '+' || plain[0] == '-') then None
      else ParsePlain(if parentheses then "-" + plain else plain)
  }

  // ---------------------------------------------------------------- printing

  /** The coefficient's digits, padded so that at least one stands before the point. */
  function Padded(d: Decimal): (s: string)
    ensures AllDigits(s) && |s| > d.scale
  {
    var digits := Digits(d.coefficient);
    if |digits| <= d.scale then Zeros(d.scale + 1 - |digits|) + digits else digits
  }

  /** Fixed-point rendering: every digit of the scale is printed. */
  function Fixed(d: Decimal): string {
    var padded := Padded(d);
    (if d.negative then "-" else "") + padded[..|padded| - d.scale]
    + (if d.scale == 0 then "" else "." + padded[|padded| - d.scale..])
  }

  function Print(d: Decimal): string {
    if d.coefficient == 0 then "0"
    else
      var rendered := Fixed(d);
      var trimmed := if '.' in rendered then DropRight(DropRight(rendered, '0'), '.') else rendered;
      if trimmed == "-0" then "0" else trimmed
  }
}
