/** The tables' values are what the eighty-digit running totals of the matching cells come to. */
module InsightRounding {
  import opened CreditModel
  import opened DecimalText
  import opened DecimalLemmas
  import opened DecimalPrecision
  import opened InsightModel
  import opened InsightSpec
  import opened InsightExactness
  import opened InsightTheorems
  import opened Permutations

  /** The decimal that a row's cell adds under a query, if it adds one. */
  function RowDecimal(kind: DashboardType, mappings: Mappings, row: Row, q: Query): Option<Decimal> {
    if row.dataset !in mappings || !ColumnsPresent(mappings[row.dataset], row) then None
    else
      var mapping := mappings[row.dataset];
      var period := LabelOf(mapping, row, Period);
      var dimensions := DimensionsOf(mapping, row, |DIMENSIONS|);
      if period == None || dimensions == None then None
      else CellDecimal(kind, CellOf(mapping, row, FieldOf(q)), row.dataset, period.value, dimensions.value, q)
  }

  function CellDecimal(kind: DashboardType, cell: Cell, dataset: Dataset, period: Option<string>,
                       dimensions: map<Field, string>, q: Query): Option<Decimal>
  {
    var f := FieldOf(q);
    var number := NumberOfCell(cell, f);
    if number == None || period == None then None
    else if Matches(Reading(f, period.value, Scaled(number.value), dataset, Places(kind, f, dimensions)), q) then number
    else None
  }

  /** The decimals added one after another under a query, in the order of the rows. */
  function Added(kind: DashboardType, mappings: Mappings, rows: seq<Row>, q: Query): (ds: seq<Decimal>)
    ensures |ds| <= |rows|
  {
    if rows == [] then []
    else
      Added(kind, mappings, rows[..|rows| - 1], q)
      + match RowDecimal(kind, mappings, rows[|rows| - 1], q) case None => [] case Some(d) => [d]
  }

  lemma RowAmountIsScaled(kind: DashboardType, mappings: Mappings, row: Row, q: Query)
    ensures RowAmount(kind, mappings, row, q)
         == match RowDecimal(kind, mappings, row, q) case None => 0 case Some(d) => Scaled(d)
  {
    hide Matches, NumberOfCell, Places, LabelOf, DimensionsOf, Scaled;
  }

  lemma {:induction false} AddedSum(kind: DashboardType, mappings: Mappings, rows: seq<Row>, q: Query)
    ensures SumBy(Scaled, Added(kind, mappings, rows, q)) == SumBy((row: Row) => RowAmount(kind, mappings, row, q), rows)
  {
    hide RowAmount, RowDecimal, Scaled;
    if rows != [] {
      var last := rows[|rows| - 1];
      AddedSum(kind, mappings, rows[..|rows| - 1], q);
      RowAmountIsScaled(kind, mappings, last, q);
      var before := Added(kind, mappings, rows[..|rows| - 1], q);
      match RowDecimal(kind, mappings, last, q)
      case None =>
        assert Added(kind, mappings, rows, q) == before + [] == before;
      case Some(d) =>
        assert (before + [d])[..|before + [d]| - 1] == before;
        assert SumBy(Scaled, before + [d]) == SumBy(Scaled, before) + Scaled(d);
    }
  }

  // ---------------------------------------------------------------- the exact decimal domain

  /** Integer cells have at most forty digits; texts are bounded by the grammar. */
  predicate CellInDomain(c: Cell) {
    c.Number? ==> Magnitude(c.n) < Pow10(40)
  }

  ghost predicate RowsInDomain(rows: seq<Row>) {
    forall row, name | row in rows && name in row.cells :: CellInDomain(row.cells[name])
  }

  lemma NumberInDomain(c: Cell, f: Field)
    requires CellInDomain(c) && NumberOfCell(c, f).Some?
    ensures InDomain(NumberOfCell(c, f).value)
  {
    hide StrictDecimal, Pow10;
    if c.Text? {
      AcceptedInDomain(c.text, f in CURRENCY, f in PERCENT);
    }
  }

  lemma RowDecimalInDomain(kind: DashboardType, mappings: Mappings, row: Row, q: Query)
    requires forall name | name in row.cells :: CellInDomain(row.cells[name])
    requires RowDecimal(kind, mappings, row, q).Some?
    ensures InDomain(RowDecimal(kind, mappings, row, q).value)
  {
    hide InDomain, NumberOfCell, Matches, Places, LabelOf, DimensionsOf, CellInDomain;
    var cell := CellOf(mappings[row.dataset], row, FieldOf(q));
    BlankInDomain();
    NumberInDomain(cell, FieldOf(q));
  }

  lemma BlankInDomain()
    ensures CellInDomain(Blank)
  {
  }

  lemma {:induction false} AddedInDomain(kind: DashboardType, mappings: Mappings, rows: seq<Row>, q: Query)
    requires RowsInDomain(rows)
    ensures forall d | d in Added(kind, mappings, rows, q) :: InDomain(d)
  {
    hide InDomain, RowDecimal, CellInDomain;
    if rows != [] {
      var last := rows[|rows| - 1];
      assert last in rows;
      AddedInDomain(kind, mappings, rows[..|rows| - 1], q);
      if RowDecimal(kind, mappings, last, q).Some? {
        RowDecimalInDomain(kind, mappings, last, q);
      }
    }
  }

  // ---------------------------------------------------------------- the tables

  /** The value under a query as the code keeps it: a running total in the eighty-digit context. */
  function Kept(kind: DashboardType, mappings: Mappings, rows: seq<Row>, q: Query): DecimalPrecision.Number {
    RunningTotal(Added(kind, mappings, rows, q))
  }

  lemma KeptIsSum(kind: DashboardType, mappings: Mappings, rows: seq<Row>, q: Query)
    requires RowsInDomain(rows) && |rows| < Pow10(20)
    ensures 0 <= Kept(kind, mappings, rows, q).scale <= 20
    ensures Units(Kept(kind, mappings, rows, q)) == SumBy((row: Row) => RowAmount(kind, mappings, row, q), rows)
  {
    hide Pow10, RunningTotal, Units, Scaled, InDomain, RowAmount;
    AddedInDomain(kind, mappings, rows, q);
    AddedSum(kind, mappings, rows, q);
    RunningTotalIsSum(Added(kind, mappings, rows, q), Added(kind, mappings, rows, q));
  }

  /**
    Rounding never shows: over cells of the exact domain and fewer than 10^20 rows, every per-period value of an
    additive measure, every per-label value and every value per period and label, kept as a running total at eighty
    digits, is the value the tables hold.
    */
  lemma {:induction false} TablesAreNotRounded(kind: DashboardType, mappings: Mappings, rows: seq<OrderedRow>)
    requires Orders(rows) && Pass(kind, mappings, rows).Some?
    requires RowsInDomain(Rows(rows)) && |Rows(rows)| < Pow10(20)
    ensures var t := Pass(kind, mappings, rows).value;
      && (forall f, p | f in NUMERIC - POINT_IN_TIME ::
            Holds(Kept(kind, mappings, Rows(rows), OfPeriod(f, p)), At(Under(t.byPeriod, f), p)))
      && (forall g: Group, v | g.0 in NUMERIC ::
            Holds(Kept(kind, mappings, Rows(rows), OfLabel(g, v)), At(Under(t.byDimension, g), v)))
      && (forall g: Group, p, v | g.0 in NUMERIC ::
            Holds(Kept(kind, mappings, Rows(rows), OfPoint(g, p, v)), At(Under(Under(t.byPoint, g), p), v)))
  {
    hide Pass, Rows, Orders, RowsInDomain, Kept, Units, RowAmount, Pow10, At, Under, SumBy;
    ValuesArePlainSums(kind, mappings, rows);
    forall q: Query
      ensures Holds(Kept(kind, mappings, Rows(rows), q), SumBy((row: Row) => RowAmount(kind, mappings, row, q), Rows(rows)))
    {
      KeptIsSum(kind, mappings, Rows(rows), q);
    }
  }

  /** The number denotes this many units of 10^-20. */
  predicate Holds(x: DecimalPrecision.Number, units: int) {
    0 <= x.scale <= 20 && Units(x) == units
  }
}
