/** The accumulator over report rows: it refines plain sums over the rows, in any order. */
module InsightTheorems {
  import opened CreditModel
  import opened InsightModel
  import opened InsightSpec
  import opened InsightSteps
  import opened InsightOrder
  import opened InsightConservation
  import opened Permutations

  type OrderedRow = (Row, seq<Field>)

  /** All events of a pass, or None when some row is refused on its own. */
  function LogOf(kind: DashboardType, mappings: Mappings, rows: seq<OrderedRow>): Option<seq<Event>> {
    if rows == [] then Some([])
    else
      var last := rows[|rows| - 1];
      match LogOf(kind, mappings, rows[..|rows| - 1])
      case None => None
      case Some(log) =>
        match RowEvents(kind, mappings, last.0, last.1)
        case None => None
        case Some(events) => Some(log + events)
  }

  // ---------------------------------------------------------------- the readings of a row

  lemma PlacesShape(kind: DashboardType, f: Field, dimensions: map<Field, string>)
    requires f == Outflow(kind) ==> RequiredDimensions(kind) <= dimensions.Keys
    ensures Places(kind, f, dimensions).Keys == if f == Outflow(kind) then RequiredDimensions(kind) else {}
  {
  }

  lemma {:induction false} ReadingsShaped(kind: DashboardType, mapping: map<Field, string>, row: Row, period: Option<string>,
                                          dimensions: map<Field, string>, order: seq<Field>)
    requires ColumnsPresent(mapping, row)
    requires ReadingsOf(kind, mapping, row, period, dimensions, order).Some?
    ensures Shaped(kind, ReadingsOf(kind, mapping, row, period, dimensions, order).value)
  {
    hide Places;
    if order != [] {
      ReadingsShaped(kind, mapping, row, period, dimensions, order[..|order| - 1]);
      var f := order[|order| - 1];
      if f == Outflow(kind) ==> RequiredDimensions(kind) <= dimensions.Keys {
        PlacesShape(kind, f, dimensions);
      }
    }
  }

  lemma {:induction false} SeenAreLabels(mapping: map<Field, string>, row: Row, n: nat)
    requires n <= |DIMENSIONS| && ColumnsPresent(mapping, row)
    ensures forall e | e in SeenEvents(mapping, row, n) :: e.Seen?
  {
    if n > 0 {
      SeenAreLabels(mapping, row, n - 1);
    }
  }

  lemma RowShaped(kind: DashboardType, mappings: Mappings, row: Row, order: seq<Field>)
    requires RowEvents(kind, mappings, row, order).Some?
    ensures Shaped(kind, RowEvents(kind, mappings, row, order).value)
  {
    if row.dataset in mappings {
      var mapping := mappings[row.dataset];
      var dimensions := DimensionsOf(mapping, row, |DIMENSIONS|).value;
      ReadingsShaped(kind, mapping, row, LabelOf(mapping, row, Period).value, dimensions, order);
      SeenAreLabels(mapping, row, |DIMENSIONS|);
      hide ReadingsOf, DimensionsOf, SeenEvents, LabelOf, RequiredDimensions, Outflow;
    }
  }

  lemma {:induction false} LogShaped(kind: DashboardType, mappings: Mappings, rows: seq<OrderedRow>)
    requires LogOf(kind, mappings, rows).Some?
    ensures Shaped(kind, LogOf(kind, mappings, rows).value)
  {
    hide RowEvents;
    if rows != [] {
      LogShaped(kind, mappings, rows[..|rows| - 1]);
      RowShaped(kind, mappings, rows[|rows| - 1].0, rows[|rows| - 1].1);
    }
  }

  // ---------------------------------------------------------------- a pass is one fold over its log

  lemma {:induction false} PassIsFold(kind: DashboardType, mappings: Mappings, rows: seq<OrderedRow>)
    ensures LogOf(kind, mappings, rows).Some? ==> Pass(kind, mappings, rows) == Fold(EMPTY, LogOf(kind, mappings, rows).value)
    ensures LogOf(kind, mappings, rows).None? ==> Pass(kind, mappings, rows).None?
  {
    hide RowEvents;
    if rows != [] {
      var last := rows[|rows| - 1];
      var before := LogOf(kind, mappings, rows[..|rows| - 1]);
      PassIsFold(kind, mappings, rows[..|rows| - 1]);
      var events := RowEvents(kind, mappings, last.0, last.1);
      if before.Some? && events.Some? {
        FoldAppend(EMPTY, before.value, events.value);
      }
    }
    hide Fold;
  }

  /**
    The one-pass accumulator refines the simple definition: it succeeds exactly when every row reads well and the
    log of all readings is admissible, and every table then holds what that log says.
    */
  lemma {:induction false} PassRefines(kind: DashboardType, mappings: Mappings, rows: seq<OrderedRow>)
    ensures Pass(kind, mappings, rows).Some? <==>
      LogOf(kind, mappings, rows).Some? && Admissible(LogOf(kind, mappings, rows).value)
    ensures Pass(kind, mappings, rows).Some? ==>
      Represents(Pass(kind, mappings, rows).value, LogOf(kind, mappings, rows).value)
  {
    hide Represents, Admissible, Pass, LogOf;
    PassIsFold(kind, mappings, rows);
    if LogOf(kind, mappings, rows).Some? {
      LogShaped(kind, mappings, rows);
      FoldRefines(kind, LogOf(kind, mappings, rows).value);
    }
  }

  // ---------------------------------------------------------------- the order of the numeric fields

  function Bag(events: Option<seq<Event>>, e: Event): int {
    match events case None => 0 case Some(log) => multiset(log)[e]
  }

  lemma {:induction false} ReadingsByField(kind: DashboardType, mapping: map<Field, string>, row: Row, period: Option<string>,
                                           dimensions: map<Field, string>, order: seq<Field>, e: Event)
    requires ColumnsPresent(mapping, row)
    ensures ReadingsOf(kind, mapping, row, period, dimensions, order).Some? <==>
      forall f | f in order :: ReadingOf(kind, mapping, row, period, dimensions, f).Some?
    ensures ReadingsOf(kind, mapping, row, period, dimensions, order).Some? ==>
      Bag(ReadingsOf(kind, mapping, row, period, dimensions, order), e)
        == SumBy((f: Field) => if ColumnsPresent(mapping, row) then Bag(ReadingOf(kind, mapping, row, period, dimensions, f), e) else 0, order)
  {
    hide ReadingOf;
    if order != [] {
      ReadingsByField(kind, mapping, row, period, dimensions, order[..|order| - 1], e);
      assert order == order[..|order| - 1] + [order[|order| - 1]];
    }
  }

  lemma ReadingsOrder(kind: DashboardType, mapping: map<Field, string>, row: Row, period: Option<string>,
                      dimensions: map<Field, string>, a: seq<Field>, b: seq<Field>)
    requires ColumnsPresent(mapping, row) && multiset(a) == multiset(b)
    ensures var (x, y) := (ReadingsOf(kind, mapping, row, period, dimensions, a), ReadingsOf(kind, mapping, row, period, dimensions, b));
      && x.Some? == y.Some?
      && (x.Some? ==> multiset(x.value) == multiset(y.value) && |x.value| == |y.value|)
  {
    hide ReadingsOf, ReadingOf;
    var x, y := ReadingsOf(kind, mapping, row, period, dimensions, a), ReadingsOf(kind, mapping, row, period, dimensions, b);
    MembersPermute(a, b);
    ReadingsByField(kind, mapping, row, period, dimensions, a, Counted);
    ReadingsByField(kind, mapping, row, period, dimensions, b, Counted);
    forall e ensures x.Some? == y.Some? && (x.Some? ==> multiset(x.value)[e] == multiset(y.value)[e]) {
      ReadingsByField(kind, mapping, row, period, dimensions, a, e);
      ReadingsByField(kind, mapping, row, period, dimensions, b, e);
      SumByPermutes((f: Field) => if ColumnsPresent(mapping, row) then Bag(ReadingOf(kind, mapping, row, period, dimensions, f), e) else 0, a, b);
    }
    if x.Some? {
      assert multiset(x.value) == multiset(y.value);
      assert |multiset(x.value)| == |multiset(y.value)|;
    }
  }

  lemma RowOrder(kind: DashboardType, mappings: Mappings, row: Row, a: seq<Field>, b: seq<Field>)
    requires multiset(a) == multiset(b)
    ensures var (x, y) := (RowEvents(kind, mappings, row, a), RowEvents(kind, mappings, row, b));
      x.Some? == y.Some? && (x.Some? ==> multiset(x.value) == multiset(y.value))
  {
    hide ReadingsOf, UpdateEvents, DimensionsOf, SeenEvents, LabelOf;
    if row.dataset in mappings && ColumnsPresent(mappings[row.dataset], row) {
      var mapping := mappings[row.dataset];
      var period := LabelOf(mapping, row, Period);
      var dimensions := DimensionsOf(mapping, row, |DIMENSIONS|);
      if period.Some? && dimensions.Some? {
        ReadingsOrder(kind, mapping, row, period.value, dimensions.value, a, b);
      }
    }
  }

  // ---------------------------------------------------------------- the order of the rows

  ghost predicate Orders(rows: seq<OrderedRow>) { forall r | r in rows :: IsOrder(r.1) }

  function Rows(rows: seq<OrderedRow>): seq<Row> {
    if rows == [] then [] else Rows(rows[..|rows| - 1]) + [rows[|rows| - 1].0]
  }

  const CANONICAL: seq<Field> := [Expenses, Revenue, NetCash, GrossMargin, Spend, CashBalance, Budget]

  function RowBag(kind: DashboardType, mappings: Mappings, e: Event): Row -> int {
    (row: Row) => Bag(RowEvents(kind, mappings, row, CANONICAL), e)
  }

  lemma CanonicalRow(kind: DashboardType, mappings: Mappings, r: OrderedRow)
    requires IsOrder(r.1)
    ensures RowEvents(kind, mappings, r.0, r.1).Some? == RowEvents(kind, mappings, r.0, CANONICAL).Some?
    ensures forall e :: Bag(RowEvents(kind, mappings, r.0, r.1), e) == RowBag(kind, mappings, e)(r.0)
  {
    hide RowEvents;
    assert multiset(CANONICAL) == multiset(NUMERIC);
    RowOrder(kind, mappings, r.0, r.1, CANONICAL);
  }

  lemma {:induction false} LogReads(kind: DashboardType, mappings: Mappings, rows: seq<OrderedRow>)
    requires Orders(rows)
    ensures LogOf(kind, mappings, rows).Some? <==> forall row | row in Rows(rows) :: RowEvents(kind, mappings, row, CANONICAL).Some?
  {
    hide RowEvents, IsOrder;
    if rows != [] {
      assert rows[|rows| - 1] in rows;
      LogReads(kind, mappings, rows[..|rows| - 1]);
      CanonicalRow(kind, mappings, rows[|rows| - 1]);
    }
  }

  lemma {:induction false} LogByRow(kind: DashboardType, mappings: Mappings, rows: seq<OrderedRow>, e: Event)
    requires Orders(rows) && LogOf(kind, mappings, rows).Some?
    ensures Bag(LogOf(kind, mappings, rows), e) == SumBy(RowBag(kind, mappings, e), Rows(rows))
  {
    hide RowEvents, IsOrder, RowBag;
    if rows != [] {
      var last := rows[|rows| - 1];
      assert last in rows;
      LogByRow(kind, mappings, rows[..|rows| - 1], e);
      CanonicalRow(kind, mappings, last);
    }
  }

  lemma LogPermutes(kind: DashboardType, mappings: Mappings, a: seq<OrderedRow>, b: seq<OrderedRow>)
    requires Orders(a) && Orders(b) && multiset(Rows(a)) == multiset(Rows(b))
    ensures LogOf(kind, mappings, a).Some? == LogOf(kind, mappings, b).Some?
    ensures LogOf(kind, mappings, a).Some? ==> multiset(LogOf(kind, mappings, a).value) == multiset(LogOf(kind, mappings, b).value)
  {
    hide LogOf, RowEvents, RowBag, Rows, Orders;
    MembersPermute(Rows(a), Rows(b));
    LogReads(kind, mappings, a);
    LogReads(kind, mappings, b);
    var x, y := LogOf(kind, mappings, a), LogOf(kind, mappings, b);
    if x.Some? {
      forall e ensures multiset(x.value)[e] == multiset(y.value)[e] {
        LogByRow(kind, mappings, a, e);
        LogByRow(kind, mappings, b, e);
        SumByPermutes(RowBag(kind, mappings, e), Rows(a), Rows(b));
      }
    }
  }

  /**
    Permuting the rows, and iterating the numeric fields of each in any order, changes neither whether the pass
    fails nor, on success, any table; only the status updates follow the order of the rows.
    */
  lemma {:induction false} RowOrderIrrelevant(kind: DashboardType, mappings: Mappings, a: seq<OrderedRow>, b: seq<OrderedRow>)
    requires Orders(a) && Orders(b) && multiset(Rows(a)) == multiset(Rows(b))
    ensures Pass(kind, mappings, a).Some? == Pass(kind, mappings, b).Some?
    ensures Pass(kind, mappings, a).Some? ==> SameTables(Pass(kind, mappings, a).value, Pass(kind, mappings, b).value)
  {
    hide Pass, LogOf, Represents, Admissible, Rows, Orders, SameTables;
    LogPermutes(kind, mappings, a, b);
    PassRefines(kind, mappings, a);
    PassRefines(kind, mappings, b);
    var x, y := LogOf(kind, mappings, a), LogOf(kind, mappings, b);
    if x.Some? {
      AdmissiblePermutes(x.value, y.value);
      if Admissible(x.value) {
        RepresentationUnique(Pass(kind, mappings, a).value, Pass(kind, mappings, b).value, x.value, y.value);
      }
    }
  }

  // ---------------------------------------------------------------- plain sums over the rows

  function FieldOf(q: Query): Field {
    match q case OfPeriod(f, _) => f case OfLabel(g, _) => g.0 case OfPoint(g, _, _) => g.0
  }

  /** What a row adds to one cell, read straight from its cells. */
  function RowAmount(kind: DashboardType, mappings: Mappings, row: Row, q: Query): int {
    if row.dataset !in mappings || !ColumnsPresent(mappings[row.dataset], row) then 0
    else
      var mapping := mappings[row.dataset];
      var period := LabelOf(mapping, row, Period);
      var dimensions := DimensionsOf(mapping, row, |DIMENSIONS|);
      if period == None || dimensions == None then 0
      else CellAmount(kind, CellOf(mapping, row, FieldOf(q)), row.dataset, period.value, dimensions.value, q)
  }

  /** The cell's value, when the cell holds a number and its labels are those asked for. */
  function CellAmount(kind: DashboardType, cell: Cell, dataset: Dataset, period: Option<string>,
                      dimensions: map<Field, string>, q: Query): int
  {
    var f := FieldOf(q);
    var number := NumberOfCell(cell, f);
    if number == None || period == None then 0
    else if Matches(Reading(f, period.value, Scaled(number.value), dataset, Places(kind, f, dimensions)), q)
    then Scaled(number.value)
    else 0
  }

  lemma {:induction false} SumConcat(a: seq<Event>, b: seq<Event>, q: Query)
    ensures Sum(a + b, q) == Sum(a, q) + Sum(b, q)
  {
    if b == [] {
      assert a + b == a;
    } else {
      assert (a + b)[..|a + b| - 1] == a + b[..|b| - 1];
      SumConcat(a, b[..|b| - 1], q);
    }
  }

  lemma {:induction false} SumNothing(log: seq<Event>, q: Query)
    requires forall e | e in log :: Amount(e, q) == 0
    ensures Sum(log, q) == 0
  {
    if log != [] {
      SumNothing(log[..|log| - 1], q);
    }
  }

  function FieldSum(kind: DashboardType, mapping: map<Field, string>, row: Row, period: Option<string>,
                    dimensions: map<Field, string>, f: Field, q: Query): int
    requires ColumnsPresent(mapping, row)
  {
    match ReadingOf(kind, mapping, row, period, dimensions, f) case None => 0 case Some(events) => Sum(events, q)
  }

  /** A field's reading contributes only to queries about that field. */
  lemma {:induction false} ReadingsSum(kind: DashboardType, mapping: map<Field, string>, row: Row, period: Option<string>,
                                       dimensions: map<Field, string>, order: seq<Field>, q: Query)
    requires ColumnsPresent(mapping, row)
    requires ReadingsOf(kind, mapping, row, period, dimensions, order).Some?
    ensures Sum(ReadingsOf(kind, mapping, row, period, dimensions, order).value, q)
         == multiset(order)[FieldOf(q)] * FieldSum(kind, mapping, row, period, dimensions, FieldOf(q), q)
  {
    hide ReadingOf, FieldOf, Sum, FieldSum;
    if order != [] {
      var before, f := order[..|order| - 1], order[|order| - 1];
      OneMoreField(before, f, order, FieldOf(q));
      ReadingsSum(kind, mapping, row, period, dimensions, before, q);
      SumConcat(ReadingsOf(kind, mapping, row, period, dimensions, before).value,
                ReadingOf(kind, mapping, row, period, dimensions, f).value, q);
      FieldSumNext(kind, mapping, row, period, dimensions, f, q);
      OneMoreTime(multiset(before)[FieldOf(q)], FieldSum(kind, mapping, row, period, dimensions, FieldOf(q), q));
    } else {
      SumNothing([], q);
    }
  }

  lemma OneMoreField(before: seq<Field>, f: Field, order: seq<Field>, g: Field)
    requires order != [] && before == order[..|order| - 1] && f == order[|order| - 1]
    ensures multiset(order)[g] == multiset(before)[g] + if f == g then 1 else 0
  {
    assert order == before + [f];
  }

  lemma FieldSumNext(kind: DashboardType, mapping: map<Field, string>, row: Row, period: Option<string>,
                     dimensions: map<Field, string>, f: Field, q: Query)
    requires ColumnsPresent(mapping, row) && ReadingOf(kind, mapping, row, period, dimensions, f).Some?
    ensures Sum(ReadingOf(kind, mapping, row, period, dimensions, f).value, q)
         == if f == FieldOf(q) then FieldSum(kind, mapping, row, period, dimensions, f, q) else 0
  {
    hide ReadingOf, FieldOf, Sum;
    ReadingOne(kind, mapping, row, period, dimensions, f, q);
  }

  lemma {:induction false} FieldReads(kind: DashboardType, mapping: map<Field, string>, row: Row, period: Option<string>,
                                      dimensions: map<Field, string>, order: seq<Field>, f: Field)
    requires ColumnsPresent(mapping, row) && f in order
    requires ReadingsOf(kind, mapping, row, period, dimensions, order).Some?
    ensures ReadingOf(kind, mapping, row, period, dimensions, f).Some?
  {
    hide ReadingOf;
    if order[|order| - 1] != f {
      FieldReads(kind, mapping, row, period, dimensions, order[..|order| - 1], f);
    }
  }

  lemma OneMoreTime(n: int, x: int)
    ensures n * x + x == (n + 1) * x
  {
  }

  lemma ReadingOne(kind: DashboardType, mapping: map<Field, string>, row: Row, period: Option<string>,
                   dimensions: map<Field, string>, f: Field, q: Query)
    requires ColumnsPresent(mapping, row)
    requires ReadingOf(kind, mapping, row, period, dimensions, f).Some?
    ensures var found := Sum(ReadingOf(kind, mapping, row, period, dimensions, f).value, q);
      found == if f == FieldOf(q) then CellAmount(kind, CellOf(mapping, row, f), row.dataset, period, dimensions, q) else 0
  {
    hide NumberOfCell, Scaled, Places, CellOf, Matches, FieldOf, Sum, Outflow, RequiredDimensions;
    var events := ReadingOf(kind, mapping, row, period, dimensions, f).value;
    if events != [] {
      assert |events| == 1;
      OneEvent(events, q);
      if f != FieldOf(q) {
        OtherField(events[0], q);
      }
    } else {
      BlankIsNoNumber(CellOf(mapping, row, f), f);
      SumNothing(events, q);
    }
  }

  lemma OneEvent(events: seq<Event>, q: Query)
    requires |events| == 1
    ensures Sum(events, q) == Amount(events[0], q)
  {
    assert events[..0] == [];
  }

  lemma OtherField(e: Event, q: Query)
    requires e.Measured? && e.reading.field != FieldOf(q)
    ensures Amount(e, q) == 0
  {
  }

  lemma BlankIsNoNumber(c: Cell, f: Field)
    ensures c == Blank ==> NumberOfCell(c, f) == None
  {
  }

  /** Only the readings among a row's events carry amounts. */
  lemma OnlyReadings(seen: seq<Event>, readings: seq<Event>, counted: seq<Event>, updates: seq<Event>, q: Query)
    requires forall e | e in seen || e in counted || e in updates :: !e.Measured?
    ensures Sum(seen + readings + counted + updates, q) == Sum(readings, q)
  {
    SumNothing(seen, q);
    SumNothing(counted, q);
    SumNothing(updates, q);
    hide Sum;
    SumConcat(seen, readings, q);
    SumConcat(seen + readings, counted, q);
    SumConcat(seen + readings + counted, updates, q);
  }

  lemma OnceInOrder(order: seq<Field>, f: Field)
    requires IsOrder(order) && f in NUMERIC
    ensures multiset(order)[f] == 1 && f in order
  {
    assert f in multiset(order);
  }

  lemma RowSum(kind: DashboardType, mappings: Mappings, row: Row, order: seq<Field>, q: Query)
    requires IsOrder(order) && FieldOf(q) in NUMERIC
    requires RowEvents(kind, mappings, row, order).Some?
    ensures Sum(RowEvents(kind, mappings, row, order).value, q) == RowAmount(kind, mappings, row, q)
  {
    hide ReadingsOf, DimensionsOf, SeenEvents, LabelOf, CellAmount, CellOf, UpdateEvents, IsOrder, Sum, ReadingOf, FieldOf, ColumnsPresent;
    OnceInOrder(order, FieldOf(q));
    if row.dataset in mappings {
      var mapping := mappings[row.dataset];
      var period := LabelOf(mapping, row, Period).value;
      var dimensions := DimensionsOf(mapping, row, |DIMENSIONS|).value;
      var readings := ReadingsOf(kind, mapping, row, period, dimensions, order).value;
      SeenAreLabels(mapping, row, |DIMENSIONS|);
      UpdatesMeasureNothing(mapping, row, period);
      OnlyReadings(SeenEvents(mapping, row, |DIMENSIONS|), readings, if readings == [] then [] else [Counted],
                   UpdateEvents(mapping, row, period).value, q);
      ReadingsSum(kind, mapping, row, period, dimensions, order, q);
      FieldReads(kind, mapping, row, period, dimensions, order, FieldOf(q));
      ReadingOne(kind, mapping, row, period, dimensions, FieldOf(q), q);
    } else {
      SumNothing([], q);
    }
  }

  lemma UpdatesMeasureNothing(mapping: map<Field, string>, row: Row, period: Option<string>)
    requires ColumnsPresent(mapping, row)
    ensures UpdateEvents(mapping, row, period).Some? ==> forall e | e in UpdateEvents(mapping, row, period).value :: e.Updated?
  {
  }

  lemma {:induction false} LogSum(kind: DashboardType, mappings: Mappings, rows: seq<OrderedRow>, q: Query)
    requires Orders(rows) && FieldOf(q) in NUMERIC && LogOf(kind, mappings, rows).Some?
    ensures Sum(LogOf(kind, mappings, rows).value, q) == SumBy((row: Row) => RowAmount(kind, mappings, row, q), Rows(rows))
  {
    hide RowEvents, RowAmount;
    if rows != [] {
      var last := rows[|rows| - 1];
      assert last in rows;
      LogSum(kind, mappings, rows[..|rows| - 1], q);
      RowSum(kind, mappings, last.0, last.1, q);
      SumConcat(LogOf(kind, mappings, rows[..|rows| - 1]).value, RowEvents(kind, mappings, last.0, last.1).value, q);
    }
  }

  /**
    After a successful pass every per-period value of an additive measure, every per-label value and every value per
    period and label is the plain sum of what each row's own cells say.
    */
  lemma {:induction false} ValuesArePlainSums(kind: DashboardType, mappings: Mappings, rows: seq<OrderedRow>)
    requires Orders(rows) && Pass(kind, mappings, rows).Some?
    ensures var t := Pass(kind, mappings, rows).value;
      && (forall f, p | f in NUMERIC - POINT_IN_TIME :: At(Under(t.byPeriod, f), p)
            == SumBy((row: Row) => RowAmount(kind, mappings, row, OfPeriod(f, p)), Rows(rows)))
      && (forall g: Group, v | g.0 in NUMERIC :: At(Under(t.byDimension, g), v)
            == SumBy((row: Row) => RowAmount(kind, mappings, row, OfLabel(g, v)), Rows(rows)))
      && (forall g: Group, p, v | g.0 in NUMERIC :: At(Under(Under(t.byPoint, g), p), v)
            == SumBy((row: Row) => RowAmount(kind, mappings, row, OfPoint(g, p, v)), Rows(rows)))
  {
    hide Pass, LogOf, RowAmount, Sum, At, Under;
    PassRefines(kind, mappings, rows);
    forall q | FieldOf(q) in NUMERIC
      ensures Sum(LogOf(kind, mappings, rows).value, q) == SumBy((row: Row) => RowAmount(kind, mappings, row, q), Rows(rows)) {
      LogSum(kind, mappings, rows, q);
    }
    hide Orders, PointsExact, LabelsExact, PeriodsExact, StatsExact;
    ExactSums(Pass(kind, mappings, rows).value, LogOf(kind, mappings, rows).value);
  }

  lemma ExactSums(t: Tables, log: seq<Event>)
    requires Represents(t, log)
    ensures forall f, p | f !in POINT_IN_TIME :: At(Under(t.byPeriod, f), p) == Sum(log, OfPeriod(f, p))
    ensures forall g, v :: At(Under(t.byDimension, g), v) == Sum(log, OfLabel(g, v))
    ensures forall g, p, v :: At(Under(Under(t.byPoint, g), p), v) == Sum(log, OfPoint(g, p, v))
  {
  }

  // ---------------------------------------------------------------- what a reader of the tables may rely on

  /** The outflow aggregates of a finished pass add up in every direction. */
  lemma {:induction false} PassConserved(kind: DashboardType, mappings: Mappings, rows: seq<OrderedRow>, d: Field)
    requires Pass(kind, mappings, rows).Some? && d in RequiredDimensions(kind)
    ensures Conserved(Pass(kind, mappings, rows).value, (Outflow(kind), d))
  {
    hide Pass, LogOf, Represents, Conserved, Shaped, Admissible;
    PassRefines(kind, mappings, rows);
    LogShaped(kind, mappings, rows);
    OutflowConserved(kind, Pass(kind, mappings, rows).value, LogOf(kind, mappings, rows).value, d);
  }

  /** The row has a filled cell for the measure and names the period. */
  predicate RowMeasures(mappings: Mappings, row: Row, f: Field, p: string) {
    && row.dataset in mappings
    && ColumnsPresent(mappings[row.dataset], row)
    && CellOf(mappings[row.dataset], row, f) != Blank
    && LabelOf(mappings[row.dataset], row, Period) == Some(Some(p))
  }

  lemma {:induction false} ReadingInRow(kind: DashboardType, mapping: map<Field, string>, row: Row, period: Option<string>,
                                        dimensions: map<Field, string>, order: seq<Field>, f: Field)
    requires ColumnsPresent(mapping, row) && f in order && CellOf(mapping, row, f) != Blank
    requires ReadingsOf(kind, mapping, row, period, dimensions, order).Some?
    ensures period.Some? && NumberOfCell(CellOf(mapping, row, f), f).Some?
    ensures Measured(Reading(f, period.value, Scaled(NumberOfCell(CellOf(mapping, row, f), f).value), row.dataset,
                             Places(kind, f, dimensions)))
            in ReadingsOf(kind, mapping, row, period, dimensions, order).value
  {
    hide CellOf, NumberOfCell, Scaled, Places, Outflow, RequiredDimensions;
    if order[|order| - 1] != f {
      ReadingInRow(kind, mapping, row, period, dimensions, order[..|order| - 1], f);
    }
  }

  lemma {:induction false} ReadingInLog(kind: DashboardType, mappings: Mappings, rows: seq<OrderedRow>, row: Row, f: Field, p: string)
    returns (e: Event)
    requires Orders(rows) && LogOf(kind, mappings, rows).Some? && f in NUMERIC
    requires row in Rows(rows) && RowMeasures(mappings, row, f, p)
    ensures e in LogOf(kind, mappings, rows).value && e.Measured?
    ensures e.reading.field == f && e.reading.period == p && e.reading.dataset == row.dataset
    ensures NumberOfCell(CellOf(mappings[row.dataset], row, f), f).Some?
    ensures e.reading.value == Scaled(NumberOfCell(CellOf(mappings[row.dataset], row, f), f).value)
  {
    hide ReadingsOf, DimensionsOf, SeenEvents, LabelOf, CellOf, UpdateEvents, NumberOfCell, Scaled, Places;
    var last := rows[|rows| - 1];
    assert last in rows;
    if last.0 == row {
      var mapping := mappings[row.dataset];
      var dimensions := DimensionsOf(mapping, row, |DIMENSIONS|).value;
      InOrder(last.1, f);
      ReadingInRow(kind, mapping, row, Some(p), dimensions, last.1, f);
      e := Measured(Reading(f, p, Scaled(NumberOfCell(CellOf(mapping, row, f), f).value), row.dataset, Places(kind, f, dimensions)));
    } else {
      e := ReadingInLog(kind, mappings, rows[..|rows| - 1], row, f, p);
    }
  }

  lemma InOrder(order: seq<Field>, f: Field)
    requires IsOrder(order) && f in NUMERIC
    ensures f in order
  {
    assert f in multiset(order);
  }

  /**
    After a successful pass, rows that fill the same measure for the same period come from one dataset; for a
    point-in-time measure they agree on the value, and that value is the one reported.
    */
  lemma {:induction false} OneSourcePerMeasure(kind: DashboardType, mappings: Mappings, rows: seq<OrderedRow>, a: Row, b: Row, f: Field, p: string)
    requires Orders(rows) && Pass(kind, mappings, rows).Some? && f in NUMERIC
    requires a in Rows(rows) && RowMeasures(mappings, a, f, p)
    requires b in Rows(rows) && RowMeasures(mappings, b, f, p)
    ensures a.dataset == b.dataset
    ensures f in POINT_IN_TIME ==>
      var (x, y) := (NumberOfCell(CellOf(mappings[a.dataset], a, f), f), NumberOfCell(CellOf(mappings[b.dataset], b, f), f));
      && x.Some? && y.Some? && Scaled(x.value) == Scaled(y.value)
      && At(Under(Pass(kind, mappings, rows).value.byPeriod, f), p) == Scaled(x.value)
  {
    hide Pass, LogOf, Rows, Orders, RowMeasures, NumberOfCell, Scaled, CellOf;
    PassRefines(kind, mappings, rows);
    var log := LogOf(kind, mappings, rows).value;
    var x := ReadingInLog(kind, mappings, rows, a, f, p);
    var y := ReadingInLog(kind, mappings, rows, b, f, p);
    hide At, Under, Sum, PeriodsOf, StatsExact, LabelsExact, PointsExact;
    assert Agree(x, y);
    if f in POINT_IN_TIME {
      InstantValue(Pass(kind, mappings, rows).value, log, x);
    }
  }

  lemma InstantValue(t: Tables, log: seq<Event>, e: Event)
    requires Represents(t, log) && e in log && e.Measured? && e.reading.field in POINT_IN_TIME
    ensures At(Under(t.byPeriod, e.reading.field), e.reading.period) == e.reading.value
  {
    hide LabelsExact, PointsExact, StatsExact, SourcesExact, InstantsExact, UniqueExact, PeriodKeys, PeriodSums, NoneEmpty;
  }
}
