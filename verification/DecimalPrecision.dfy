/** Running totals at eighty digits of precision are never rounded. */
module DecimalPrecision {
  import opened DecimalText
  import opened DecimalLemmas

  const PRECISION: nat := 80

  /** A signed coefficient over a power of ten, as the decimal context adds them. */
  datatype Number = Number(coefficient: int, scale: int)

  function NumberOf(d: Decimal): Number {
    var c: int := d.coefficient;
    Number(if d.negative then -c else c, d.scale)
  }

  function Magnitude(x: int): nat { if x < 0 then -x else x }

  function AddExact(a: Number, b: Number): Number {
    if a.scale >= b.scale then Number(a.coefficient + b.coefficient * Pow10(a.scale - b.scale), a.scale)
    else Number(a.coefficient * Pow10(b.scale - a.scale) + b.coefficient, b.scale)
  }

  /** The quotient rounded to the nearest integer, to the even one of two. */
  function HalfEven(m: nat, unit: nat): nat
    requires unit > 0
  {
    var quotient := m / unit;
    var remainder := m % unit;
    if 2 * remainder > unit || (2 * remainder == unit && quotient % 2 == 1) then quotient + 1 else quotient
  }

  /** Rounding, when the coefficient has more digits than the context allows. */
  function Rounded(x: Number): Number {
    var digits := |Digits(Magnitude(x.coefficient))|;
    if digits <= PRECISION then x
    else
      var rounded: int := HalfEven(Magnitude(x.coefficient), Pow10(digits - PRECISION));
      Number(if x.coefficient < 0 then -rounded else rounded, x.scale - (digits - PRECISION))
  }

  function AddInContext(a: Number, b: Number): Number {
    Rounded(AddExact(a, b))
  }

  /** The accumulators' running total. */
  function RunningTotal(values: seq<Decimal>): Number {
    if values == [] then Number(0, 0)
    else AddInContext(RunningTotal(values[..|values| - 1]), NumberOf(values[|values| - 1]))
  }

  function ExactTotal(values: seq<Decimal>): Number {
    if values == [] then Number(0, 0)
    else AddExact(ExactTotal(values[..|values| - 1]), NumberOf(values[|values| - 1]))
  }

  function Distance(a: int, b: int): nat { if a < b then b - a else a - b }

  lemma HalfEvenIsNearest(m: nat, unit: nat)
    requires unit > 0
    ensures var c := HalfEven(m, unit); 2 * Distance(m, c * unit) <= unit && (2 * Distance(m, c * unit) == unit ==> c % 2 == 0)
  {
    var quotient := m / unit;
    assert m == quotient * unit + m % unit;
    assert (quotient + 1) * unit == quotient * unit + unit;
  }

  /** A result of more than eighty digits loses the digits past the eightieth: to the nearest value, to the even one of two. */
  lemma RoundsToNearest(x: Number)
    ensures var (m, n, r) := (Magnitude(x.coefficient), |Digits(Magnitude(x.coefficient))|, Rounded(x));
      if n <= 80 then r == x
      else
        var (unit, c) := (Pow10(n - 80), Magnitude(r.coefficient));
        && r.scale == x.scale - (n - 80) && (if x.coefficient < 0 then r.coefficient <= 0 else r.coefficient >= 0)
        && 2 * Distance(m, c * unit) <= unit && (2 * Distance(m, c * unit) == unit ==> c % 2 == 0)
  {
    hide HalfEven, Pow10, Digits, Distance;
    var (m, n) := (Magnitude(x.coefficient), |Digits(Magnitude(x.coefficient))|);
    if n > 80 {
      HalfEvenIsNearest(m, Pow10(n - 80));
    }
  }

  // ---------------------------------------------------------------- what the grammar admits

  lemma {:induction false} NatOfBound(s: string)
    requires AllDigits(s)
    ensures NatOf(s) < Pow10(|s|)
  {
    if s != "" {
      NatOfBound(s[..|s| - 1]);
      PowTen(|s| - 1);
    }
  }

  lemma {:induction false} Pow10Monotone(a: nat, b: nat)
    requires a <= b
    ensures Pow10(a) <= Pow10(b)
  {
    if a < b {
      Pow10Monotone(a, b - 1);
    }
  }

  lemma ParsedInDomain(s: string)
    requires PlainShape(s)
    ensures InDomain(PlainValue(s))
  {
    hide Pow10, NatOf, IndexOf;
    var body := Unsigned(s);
    var point := IndexOf(body, '.');
    var fraction := if point < |body| then body[point + 1..] else "";
    NatOfBound(body[..point] + fraction);
    Pow10Monotone(point + |fraction|, 40 + |fraction|);
  }

  /** Whatever text the accumulator accepts, its value is in the bounded domain. */
  lemma AcceptedInDomain(text: string, allowCurrency: bool, allowPercent: bool)
    requires StrictDecimal(text, allowCurrency, allowPercent).Some?
    ensures InDomain(StrictDecimal(text, allowCurrency, allowPercent).value)
  {
    hide InDomain, PlainValue, PlainShape, Strip, Replace, GroupedShape;
    forall s | PlainShape(s) ensures InDomain(PlainValue(s)) {
      ParsedInDomain(s);
    }
  }

  // ---------------------------------------------------------------- the bound

  ghost predicate Bounded(x: Number, terms: nat) {
    && 0 <= x.scale <= 20
    && Magnitude(x.coefficient) <= terms * Pow10(40 + x.scale)
  }

  lemma Rescale(x: int, terms: nat, scale: nat, up: nat)
    requires Magnitude(x) <= terms * Pow10(40 + scale)
    ensures Magnitude(x * Pow10(up)) <= terms * Pow10(40 + scale + up)
  {
    hide Pow10;
    Pow10Adds(40 + scale, up);
    ScaleMagnitude(x, terms, Pow10(40 + scale), Pow10(up));
  }

  lemma ScaleMagnitude(x: int, terms: nat, a: nat, b: nat)
    requires Magnitude(x) <= terms * a && b >= 1
    ensures Magnitude(x * b) <= terms * (a * b)
  {
    assert Magnitude(x * b) == Magnitude(x) * b;
    assert Magnitude(x) * b <= (terms * a) * b;
    assert (terms * a) * b == terms * (a * b);
  }

  lemma AddBounded(a: Number, b: Number, terms: nat)
    requires Bounded(a, terms) && Bounded(b, 1)
    ensures Bounded(AddExact(a, b), terms + 1)
  {
    hide Pow10;
    if a.scale >= b.scale {
      Rescale(b.coefficient, 1, b.scale, a.scale - b.scale);
      OneMore(terms, Pow10(40 + a.scale));
    } else {
      Rescale(a.coefficient, terms, a.scale, b.scale - a.scale);
      OneMore(terms, Pow10(40 + b.scale));
    }
  }

  lemma OneMore(terms: nat, p: nat)
    ensures (terms + 1) * p == terms * p + 1 * p
  {
  }

  /** Fewer than 10^20 bounded terms stay below 10^80, so the context leaves the sum alone. */
  lemma BoundedNotRounded(x: Number, terms: nat)
    requires Bounded(x, terms) && terms < Pow10(20)
    ensures Magnitude(x.coefficient) < Pow10(PRECISION)
    ensures Rounded(x) == x
  {
    hide Pow10;
    Pow10Adds(20, 60);
    Pow10Monotone(40 + x.scale, 60);
    StrictlyBelow(Magnitude(x.coefficient), terms, Pow10(40 + x.scale), Pow10(60), Pow10(20));
    DigitsLength(Magnitude(x.coefficient), PRECISION);
  }

  lemma StrictlyBelow(m: nat, terms: nat, p: nat, q: nat, r: nat)
    requires m <= terms * p && 1 <= p <= q && terms < r
    ensures m < r * q
  {
    assert terms * p <= terms * q;
    assert terms * q < r * q;
  }

  /** No running total over fewer than 10^20 accepted values, in any order, is ever rounded. */
  lemma {:induction false} TotalsAreExact(values: seq<Decimal>)
    requires forall i | 0 <= i < |values| :: InDomain(values[i])
    requires |values| < Pow10(20)
    ensures RunningTotal(values) == ExactTotal(values)
    ensures Bounded(ExactTotal(values), |values|)
    ensures Magnitude(ExactTotal(values).coefficient) < Pow10(PRECISION)
  {
    hide Pow10, Rounded;
    if values == [] {
      EmptyTotal();
    } else {
      var before := values[..|values| - 1];
      var last := values[|values| - 1];
      TotalsAreExact(before);
      TermBounded(last);
      AddBounded(ExactTotal(before), NumberOf(last), |before|);
      BoundedNotRounded(ExactTotal(values), |values|);
    }
  }

  lemma EmptyTotal()
    ensures Bounded(Number(0, 0), 0) && 0 < Pow10(PRECISION)
  {
  }

  lemma TermBounded(d: Decimal)
    requires InDomain(d)
    ensures Bounded(NumberOf(d), 1)
  {
  }
}
