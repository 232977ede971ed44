/** The eighty-digit running totals are the exact scaled sums that the tables hold. */
module InsightExactness {
  import opened DecimalText
  import opened DecimalLemmas
  import opened DecimalPrecision
  import opened InsightModel
  import opened Permutations

  /** A number of at most twenty fraction digits, in units of 10^-20. */
  function Units(x: Number): int
    requires 0 <= x.scale <= 20
  {
    x.coefficient * Pow10(20 - x.scale)
  }

  lemma Shifted(x: int, a: nat, b: nat)
    ensures x * Pow10(a + b) == x * Pow10(a) * Pow10(b)
  {
    Pow10Adds(a, b);
    hide Pow10;
    assert x * (Pow10(a) * Pow10(b)) == x * Pow10(a) * Pow10(b);
  }

  lemma Distributes(x: int, y: int, p: int)
    ensures (x + y) * p == x * p + y * p
  {
  }

  /** The coefficient brought to a finer scale. */
  function Finer(a: Number, scale: int): int
    requires 0 <= a.scale <= scale
  {
    a.coefficient * Pow10(scale - a.scale)
  }

  lemma FinerUnits(a: Number, scale: int)
    requires 0 <= a.scale <= scale <= 20
    ensures Finer(a, scale) * Pow10(20 - scale) == Units(a)
  {
    hide Pow10;
    Shifted(a.coefficient, scale - a.scale, 20 - scale);
  }

  lemma AddShape(a: Number, b: Number)
    requires 0 <= a.scale <= 20 && 0 <= b.scale <= 20
    ensures var scale := if a.scale >= b.scale then a.scale else b.scale;
      AddExact(a, b) == DecimalPrecision.Number.Number(Finer(a, scale) + Finer(b, scale), scale)
  {
    assert Pow10(0) == 1;
  }

  lemma UnitsAdd(a: Number, b: Number)
    requires 0 <= a.scale <= 20 && 0 <= b.scale <= 20
    ensures 0 <= AddExact(a, b).scale <= 20
    ensures Units(AddExact(a, b)) == Units(a) + Units(b)
  {
    hide Pow10, Finer, AddExact;
    var scale := if a.scale >= b.scale then a.scale else b.scale;
    AddShape(a, b);
    FinerUnits(a, scale);
    FinerUnits(b, scale);
    Distributes(Finer(a, scale), Finer(b, scale), Pow10(20 - scale));
  }

  lemma UnitsOfDecimal(d: Decimal)
    requires d.scale <= 20
    ensures Units(NumberOf(d)) == Scaled(d)
  {
    hide Pow10;
    var p := Pow10(20 - d.scale);
    var c: int := d.coefficient;
    assert (-c) * p == -(c * p);
  }

  lemma {:induction false} ExactUnits(values: seq<Decimal>)
    requires forall i | 0 <= i < |values| :: values[i].scale <= 20
    ensures 0 <= ExactTotal(values).scale <= 20
    ensures Units(ExactTotal(values)) == SumBy(Scaled, values)
  {
    hide AddExact, Units;
    if values == [] {
      NoUnits();
    } else {
      ExactUnits(values[..|values| - 1]);
      UnitsAdd(ExactTotal(values[..|values| - 1]), NumberOf(values[|values| - 1]));
      UnitsOfDecimal(values[|values| - 1]);
    }
  }

  lemma NoUnits()
    ensures Units(DecimalPrecision.Number.Number(0, 0)) == 0
  {
  }

  /**
    Adding accepted values one by one in the eighty-digit context gives, in any order and for fewer than 10^20 of
    them, exactly the sum of their scaled values.
    */
  lemma {:induction false} RunningTotalIsSum(values: seq<Decimal>, order: seq<Decimal>)
    requires forall d | d in values :: InDomain(d)
    requires |values| < Pow10(20) && multiset(order) == multiset(values)
    ensures 0 <= RunningTotal(order).scale <= 20
    ensures Units(RunningTotal(order)) == SumBy(Scaled, values)
  {
    hide Pow10, RunningTotal, ExactTotal, Units, Scaled;
    MembersPermute(order, values);
    forall i | 0 <= i < |order| ensures InDomain(order[i]) {
      assert order[i] in order;
    }
    TotalsAreExact(order);
    ExactUnits(order);
    SumByPermutes(Scaled, order, values);
  }
}
