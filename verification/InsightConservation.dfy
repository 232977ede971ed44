/** The outflow measure is conserved: its grand total, its periods, its labels and its points all add up. */
module InsightConservation {
  import opened InsightModel
  import opened InsightSpec
  import opened InsightLemmas

  /** The ways in which the aggregates split one amount into parts. */
  datatype Split =
    | LabelsOfPeriod(group: Group, period: string)
    | PeriodsOfLabel(group: Group, text: string)

  function Whole(s: Split): Query {
    match s
    case LabelsOfPeriod(g, p) => OfPeriod(g.0, p)
    case PeriodsOfLabel(g, v) => OfLabel(g, v)
  }

  function Part(s: Split, key: string): Query {
    match s
    case LabelsOfPeriod(g, p) => OfPoint(g, p, key)
    case PeriodsOfLabel(g, v) => OfPoint(g, key, v)
  }

  /** The part that a matching reading belongs to. */
  function KeyIn(s: Split, r: Reading): string {
    match s
    case LabelsOfPeriod(g, _) => if g.1 in r.places then r.places[g.1] else ""
    case PeriodsOfLabel(_, _) => r.period
  }

  ghost predicate Covers(keys: set<string>, s: Split, log: seq<Event>) {
    forall e | e in log && e.Measured? && Matches(e.reading, Whole(s)) :: KeyIn(s, e.reading) in keys
  }

  /** Every reading of the group's measure carries the group's label. */
  ghost predicate Labelled(log: seq<Event>, g: Group) {
    forall e | e in log && e.Measured? && e.reading.field == g.0 :: g.1 in e.reading.places
  }

  ghost function Spread(keys: set<string>, s: Split, log: seq<Event>): map<string, int> {
    map k | k in keys :: Sum(log, Part(s, k))
  }

  lemma {:induction false} ZeroTotal(m: map<string, int>)
    requires forall k | k in m :: m[k] == 0
    ensures Total(m) == 0
    decreases |m|
  {
    if m != map[] {
      var k :| k in m;
      TotalMinus(m, k);
      ZeroTotal(m - {k});
    }
  }

  lemma OnePart(s: Split, e: Event, k: string)
    requires e.Measured? ==> e.reading.field == s.group.0 ==> s.group.1 in e.reading.places
    ensures Amount(e, Part(s, k)) == if e.Measured? && Matches(e.reading, Whole(s)) && KeyIn(s, e.reading) == k then e.reading.value else 0
  {
  }

  /** The parts of an amount add up to the whole. */
  lemma {:induction false} PartsAddUp(keys: set<string>, s: Split, log: seq<Event>)
    requires Covers(keys, s, log) && Labelled(log, s.group)
    ensures Total(Spread(keys, s, log)) == Sum(log, Whole(s))
  {
    if log == [] {
      ZeroTotal(Spread(keys, s, log));
    } else {
      var before, e := log[..|log| - 1], log[|log| - 1];
      assert log == before + [e];
      PartsAddUp(keys, s, before);
      forall k ensures Sum(log, Part(s, k)) == Sum(before, Part(s, k)) + Amount(e, Part(s, k)) {
        SumAppend(before, e, Part(s, k));
        OnePart(s, e, k);
      }
      forall k ensures Amount(e, Part(s, k)) ==
        if e.Measured? && Matches(e.reading, Whole(s)) && KeyIn(s, e.reading) == k then e.reading.value else 0 {
        OnePart(s, e, k);
      }
      SumAppend(before, e, Whole(s));
      SpreadStep(keys, s, before, e);
    }
  }

  lemma SpreadStep(keys: set<string>, s: Split, log: seq<Event>, e: Event)
    requires e.Measured? ==> e.reading.field == s.group.0 ==> s.group.1 in e.reading.places
    requires e.Measured? && Matches(e.reading, Whole(s)) ==> KeyIn(s, e.reading) in keys
    ensures Total(Spread(keys, s, log + [e])) == Total(Spread(keys, s, log)) + Amount(e, Whole(s))
  {
    hide Sum, Matches, Part, KeyIn, Whole, Total;
    var a, b := Spread(keys, s, log), Spread(keys, s, log + [e]);
    forall k ensures Sum(log + [e], Part(s, k)) == Sum(log, Part(s, k)) + Amount(e, Part(s, k)) {
      SumAppend(log, e, Part(s, k));
    }
    forall k ensures Amount(e, Part(s, k))
        == if e.Measured? && Matches(e.reading, Whole(s)) && KeyIn(s, e.reading) == k then e.reading.value else 0 {
      OnePart(s, e, k);
    }
    if e.Measured? && Matches(e.reading, Whole(s)) {
      var key, x := KeyIn(s, e.reading), e.reading.value;
      TotalPlus(a, key, x);
      assert b == Plus(a, key, x) by {
        forall k | k in keys ensures b[k] == if k == key then a[k] + x else a[k] {
        }
      }
    } else {
      assert b == a;
    }
  }

  /** Entries that are zero do not count. */
  lemma {:induction false} TotalOver(keys: set<string>, m: map<string, int>)
    requires m.Keys <= keys
    ensures Total(Filled(keys, m)) == Total(m)
    decreases |m|
  {
    if m == map[] {
      ZeroTotal(Filled(keys, m));
    } else {
      var k :| k in m;
      TotalMinus(m, k);
      TotalOver(keys, m - {k});
      TotalPlus(Filled(keys, m - {k}), k, m[k]);
      FilledPlus(keys, m, k);
    }
  }

  function Filled(keys: set<string>, m: map<string, int>): map<string, int> { map k | k in keys :: At(m, k) }

  lemma FilledPlus(keys: set<string>, m: map<string, int>, k: string)
    requires k in m && m.Keys <= keys
    ensures Plus(Filled(keys, m - {k}), k, m[k]) == Filled(keys, m)
  {
    forall j | j in keys ensures At(m, j) == if j == k then At(m - {k}, j) + m[k] else At(m - {k}, j) {
    }
    hide At;
    assert At(Filled(keys, m - {k}), k) == At(m - {k}, k) by {
      FilledAt(keys, m - {k}, k);
    }
  }

  lemma FilledAt(keys: set<string>, m: map<string, int>, k: string)
    requires k in keys
    ensures At(Filled(keys, m), k) == At(m, k)
  {
  }

  // ---------------------------------------------------------------- the tables

  /** The values under one label, by period. */
  function Column(points: map<string, map<string, int>>, text: string): map<string, int> {
    map p | p in points && text in points[p] :: points[p][text]
  }

  /** Each period's sum over its labels. */
  ghost function RowTotals(points: map<string, map<string, int>>): map<string, int> {
    map p | p in points :: Total(points[p])
  }

  ghost predicate Conserved(t: Tables, g: Group) {
    && (forall p :: Total(Under(Under(t.byPoint, g), p)) == At(Under(t.byPeriod, g.0), p))
    && (forall v :: Total(Column(Under(t.byPoint, g), v)) == At(Under(t.byDimension, g), v))
    && Total(RowTotals(Under(t.byPoint, g))) == Total(Under(t.byPeriod, g.0))
    && Total(Under(t.byDimension, g)) == Total(Under(t.byPeriod, g.0))
    && (g.0 in t.totals ==> t.totals[g.0].total == Total(Under(t.byDimension, g)))
  }

  lemma PointAt(t: Tables, log: seq<Event>, g: Group, p: string, v: string)
    requires Represents(t, log)
    ensures v in Under(Under(t.byPoint, g), p) <==> (g, p, v) in PointsOf(log)
    ensures At(Under(Under(t.byPoint, g), p), v) == Sum(log, OfPoint(g, p, v))
  {
  }

  lemma LabelAt(t: Tables, log: seq<Event>, g: Group, v: string)
    requires Represents(t, log)
    ensures v in Under(t.byDimension, g) <==> HasLabel(log, g, v)
    ensures At(Under(t.byDimension, g), v) == Sum(log, OfLabel(g, v))
  {
  }

  lemma PeriodAt(t: Tables, log: seq<Event>, f: Field, p: string)
    requires Represents(t, log)
    ensures p in Under(t.byPeriod, f) <==> MeasuredAt(log, f, p)
    ensures f !in POINT_IN_TIME ==> At(Under(t.byPeriod, f), p) == Sum(log, OfPeriod(f, p))
  {
    hide PeriodsExact, LabelsExact, PointsExact, StatsExact, SourcesExact, InstantsExact, UniqueExact, Under, At, MeasuredAt;
    PeriodFact(t.byPeriod, log, f, p);
  }

  lemma PeriodFact(byPeriod: map<Field, map<string, int>>, log: seq<Event>, f: Field, p: string)
    requires PeriodsExact(byPeriod, log)
    ensures p in Under(byPeriod, f) <==> MeasuredAt(log, f, p)
    ensures f !in POINT_IN_TIME ==> At(Under(byPeriod, f), p) == Sum(log, OfPeriod(f, p))
  {
    hide PeriodSums, PeriodInstants, Sum;
    assert Under(byPeriod, f).Keys == PeriodsOf(log, f);
    if f !in POINT_IN_TIME {
      SumFact(byPeriod, log, f, p);
    }
  }

  lemma SumFact(byPeriod: map<Field, map<string, int>>, log: seq<Event>, f: Field, p: string)
    requires PeriodSums(byPeriod, log) && f !in POINT_IN_TIME
    ensures At(Under(byPeriod, f), p) == Sum(log, OfPeriod(f, p))
  {
  }

  lemma PointsHeld(t: Tables, log: seq<Event>, g: Group, p: string)
    requires Represents(t, log)
    ensures p in Under(t.byPoint, g) ==> Under(t.byPoint, g)[p] != map[]
  {
    hide PeriodsExact, LabelsExact, StatsExact, SourcesExact, InstantsExact, UniqueExact, PointsOf, Sum;
  }

  lemma PointOfReading(log: seq<Event>, e: Event, d: Field)
    requires e in log && e.Measured? && d in e.reading.places
    ensures ((e.reading.field, d), e.reading.period, e.reading.places[d]) in PointsOf(log)
  {
  }

  lemma ReadingOfPoint(log: seq<Event>, point: Point) returns (e: Event)
    requires point in PointsOf(log)
    ensures e in log && e.Measured? && e.reading.field == point.0.0 && e.reading.period == point.1
    ensures point.0.1 in e.reading.places && e.reading.places[point.0.1] == point.2
  {
    e :| e in log && e.Measured? && point.0.1 in e.reading.places
      && ((e.reading.field, point.0.1), e.reading.period, e.reading.places[point.0.1]) == point;
  }

  lemma PeriodConserved(t: Tables, log: seq<Event>, g: Group, p: string)
    requires Represents(t, log) && Labelled(log, g) && g.0 !in POINT_IN_TIME
    ensures Total(Under(Under(t.byPoint, g), p)) == At(Under(t.byPeriod, g.0), p)
  {
    hide Represents, PointsOf, Sum, Total, Under;
    var s := LabelsOfPeriod(g, p);
    var labels := Under(Under(t.byPoint, g), p);
    forall e | e in log && e.Measured? && Matches(e.reading, Whole(s)) ensures KeyIn(s, e.reading) in labels.Keys {
      PointOfReading(log, e, g.1);
      PointAt(t, log, g, p, e.reading.places[g.1]);
    }
    PartsAddUp(labels.Keys, s, log);
    PeriodAt(t, log, g.0, p);
    forall k | k in labels ensures labels[k] == Sum(log, Part(s, k)) {
      PointAt(t, log, g, p, k);
    }
    assert Spread(labels.Keys, s, log) == labels;
  }

  lemma LabelConserved(t: Tables, log: seq<Event>, g: Group, v: string)
    requires Represents(t, log) && Labelled(log, g)
    ensures Total(Column(Under(t.byPoint, g), v)) == At(Under(t.byDimension, g), v)
  {
    hide Represents, PointsOf, Sum, Total;
    var s := PeriodsOfLabel(g, v);
    var column := Column(Under(t.byPoint, g), v);
    forall e | e in log && e.Measured? && Matches(e.reading, Whole(s)) ensures KeyIn(s, e.reading) in column.Keys {
      PointOfReading(log, e, g.1);
      PointAt(t, log, g, e.reading.period, v);
    }
    PartsAddUp(column.Keys, s, log);
    LabelAt(t, log, g, v);
    forall k | k in column ensures column[k] == Sum(log, Part(s, k)) {
      PointAt(t, log, g, k, v);
    }
    assert Spread(column.Keys, s, log) == column;
  }

  // ---------------------------------------------------------------- summing a table both ways

  ghost function ColumnTotals(points: map<string, map<string, int>>, labels: set<string>): map<string, int> {
    map v | v in labels :: Total(Column(points, v))
  }

  lemma ColumnMinus(points: map<string, map<string, int>>, p: string, v: string)
    requires p in points
    ensures Total(Column(points, v)) == Total(Column(points - {p}, v)) + At(points[p], v)
  {
    var c := Column(points, v);
    if v in points[p] {
      TotalMinus(c, p);
      assert c - {p} == Column(points - {p}, v);
    } else {
      assert c == Column(points - {p}, v);
    }
  }

  /** Adding two dictionaries entry by entry adds their totals. */
  lemma {:induction false} TotalAdds(keys: set<string>, a: map<string, int>, b: map<string, int>, c: map<string, int>)
    requires a.Keys == keys && b.Keys == keys && c.Keys == keys
    requires forall k | k in keys :: c[k] == a[k] + b[k]
    ensures Total(c) == Total(a) + Total(b)
    decreases |keys|
  {
    if keys != {} {
      var k :| k in keys;
      TotalMinus(a, k);
      TotalMinus(b, k);
      TotalMinus(c, k);
      TotalAdds(keys - {k}, a - {k}, b - {k}, c - {k});
    } else {
      assert a == map[] && b == map[] && c == map[];
    }
  }

  /** Summing by row and by column gives the same. */
  lemma {:induction false} RowsAndColumns(points: map<string, map<string, int>>, labels: set<string>)
    requires forall p | p in points :: points[p].Keys <= labels
    ensures Total(RowTotals(points)) == Total(ColumnTotals(points, labels))
    decreases |points|
  {
    if points == map[] {
      assert RowTotals(points) == map[];
      forall v | v in labels ensures Total(Column(points, v)) == 0 {
        assert Column(points, v) == map[];
      }
      ZeroTotal(ColumnTotals(points, labels));
    } else {
      var p :| p in points;
      var rest := points - {p};
      RowsAndColumns(rest, labels);
      TotalMinus(RowTotals(points), p);
      assert RowTotals(points) - {p} == RowTotals(rest);
      var row := Filled(labels, points[p]);
      TotalOver(labels, points[p]);
      forall v | v in labels ensures ColumnTotals(points, labels)[v] == ColumnTotals(rest, labels)[v] + row[v] {
        ColumnMinus(points, p, v);
      }
      TotalAdds(labels, ColumnTotals(rest, labels), row, ColumnTotals(points, labels));
    }
  }

  lemma RowTotalsArePeriods(t: Tables, log: seq<Event>, g: Group)
    requires Represents(t, log) && Labelled(log, g) && g.0 !in POINT_IN_TIME
    ensures Total(RowTotals(Under(t.byPoint, g))) == Total(Under(t.byPeriod, g.0))
  {
    hide Represents, Labelled, Total, Under;
    var points, periods := Under(t.byPoint, g), Under(t.byPeriod, g.0);
    forall p ensures p in points <==> p in periods {
      PeriodHasPoint(t, log, g, p);
    }
    forall p | p in points ensures RowTotals(points)[p] == periods[p] {
      PeriodConserved(t, log, g, p);
      UnderIn(points, p);
    }
    assert RowTotals(points) == periods;
  }

  lemma UnderIn<V>(m: map<string, map<string, V>>, p: string)
    ensures if p in m then Under(m, p) == m[p] else Under(m, p) == map[]
  {
  }

  lemma PeriodHasPoint(t: Tables, log: seq<Event>, g: Group, p: string)
    requires Represents(t, log) && Labelled(log, g)
    ensures p in Under(t.byPoint, g) <==> p in Under(t.byPeriod, g.0)
  {
    var points := Under(t.byPoint, g);
    hide Represents, PointsOf, Under;
    PointsHeld(t, log, g, p);
    UnderIn(points, p);
    PeriodAt(t, log, g.0, p);
    if MeasuredAt(log, g.0, p) {
      var e :| e in log && e.Measured? && e.reading.field == g.0 && e.reading.period == p;
      PointOfReading(log, e, g.1);
      PointAt(t, log, g, p, e.reading.places[g.1]);
    }
    if p in points {
      var v :| v in points[p];
      PointAt(t, log, g, p, v);
      var e := ReadingOfPoint(log, (g, p, v));
      assert MeasuredAt(log, g.0, p);
    }
  }

  lemma LabelTotals(t: Tables, log: seq<Event>, g: Group)
    requires Represents(t, log) && Labelled(log, g)
    ensures Total(RowTotals(Under(t.byPoint, g))) == Total(Under(t.byDimension, g))
  {
    hide Represents, Labelled, Total, Under, PointsOf, RowTotals, Column;
    var points, labels := Under(t.byPoint, g), Under(t.byDimension, g);
    forall p | p in points ensures points[p].Keys <= labels.Keys {
      UnderIn(points, p);
      forall v | v in points[p] ensures v in labels {
        PointAt(t, log, g, p, v);
        LabelAt(t, log, g, v);
      }
    }
    RowsAndColumns(points, labels.Keys);
    forall v | v in labels ensures ColumnTotals(points, labels.Keys)[v] == labels[v] {
      LabelConserved(t, log, g, v);
    }
    assert ColumnTotals(points, labels.Keys) == labels;
  }

  /**
    For the outflow measure and each required dimension: every period is the sum of its labels, every label the sum
    of its periods, and the grand total is the sum over periods, over labels, and over both.
    */
  lemma OutflowConserved(kind: DashboardType, t: Tables, log: seq<Event>, d: Field)
    requires Shaped(kind, log) && Represents(t, log) && d in RequiredDimensions(kind)
    ensures Conserved(t, (Outflow(kind), d))
  {
    var g := (Outflow(kind), d);
    assert Labelled(log, g);
    assert g.0 !in POINT_IN_TIME;
    assert g.0 in t.totals ==> t.totals[g.0].total == Total(Under(t.byPeriod, g.0));
    hide Represents, Shaped, Total, Labelled, RowTotals, Column;
    forall p ensures Total(Under(Under(t.byPoint, g), p)) == At(Under(t.byPeriod, g.0), p) {
      PeriodConserved(t, log, g, p);
    }
    forall v ensures Total(Column(Under(t.byPoint, g), v)) == At(Under(t.byDimension, g), v) {
      LabelConserved(t, log, g, v);
    }
    RowTotalsArePeriods(t, log, g);
    LabelTotals(t, log, g);
  }

  // ---------------------------------------------------------------- the variance table

  /** One row a label that occurs in any period: its current value minus its prior value. */
  function Variances(points: map<string, map<string, int>>, current: string, prior: string): map<string, int> {
    map v | v in LabelsIn(points) :: At(Under(points, current), v) - At(Under(points, prior), v)
  }

  function LabelsIn(points: map<string, map<string, int>>): set<string> {
    set p, v | p in points && v in points[p] :: v
  }

  /** The variance rows add up to the current period's total minus the prior period's. */
  lemma VariancesAddUp(kind: DashboardType, t: Tables, log: seq<Event>, d: Field, current: string, prior: string)
    requires Shaped(kind, log) && Represents(t, log) && d in RequiredDimensions(kind)
    ensures Total(Variances(Under(t.byPoint, (Outflow(kind), d)), current, prior))
         == At(Under(t.byPeriod, Outflow(kind)), current) - At(Under(t.byPeriod, Outflow(kind)), prior)
  {
    hide Represents, Shaped, Total, Under, Conserved, Variances, RequiredDimensions, Outflow;
    var g := (Outflow(kind), d);
    OutflowConserved(kind, t, log, d);
    ConservedAt(t, g, current);
    ConservedAt(t, g, prior);
    VariancesTotal(Under(t.byPoint, g), current, prior);
  }

  lemma ConservedAt(t: Tables, g: Group, p: string)
    requires Conserved(t, g)
    ensures Total(Under(Under(t.byPoint, g), p)) == At(Under(t.byPeriod, g.0), p)
  {
    hide Total;
  }

  lemma VariancesTotal(points: map<string, map<string, int>>, current: string, prior: string)
    ensures Total(Variances(points, current, prior)) == Total(Under(points, current)) - Total(Under(points, prior))
  {
    hide Total, Under;
    var labels := LabelsIn(points);
    SomeLabels(points, current);
    SomeLabels(points, prior);
    hide LabelsIn;
    TotalOver(labels, Under(points, current));
    TotalOver(labels, Under(points, prior));
    TotalAdds(labels, Variances(points, current, prior), Filled(labels, Under(points, prior)), Filled(labels, Under(points, current)));
  }

  lemma SomeLabels(points: map<string, map<string, int>>, p: string)
    ensures Under(points, p).Keys <= LabelsIn(points)
  {
  }

  // ---------------------------------------------------------------- period coverage

  /** The check before rendering: every required measure has values, and all over the same periods. */
  predicate CoverageHolds(kind: DashboardType, t: Tables) {
    && (forall f | f in RequiredNumeric(kind) :: Under(t.byPeriod, f) != map[])
    && (forall f, g | f in RequiredNumeric(kind) && g in RequiredNumeric(kind) ::
          Under(t.byPeriod, f).Keys == Under(t.byPeriod, g).Keys)
  }

  ghost predicate MeasuredAt(log: seq<Event>, f: Field, p: string) {
    exists e | e in log :: e.Measured? && e.reading.field == f && e.reading.period == p
  }

  /** The coverage check passes exactly when some period is measured, and each measured period is measured in full. */
  lemma CoverageExactlyWhen(kind: DashboardType, t: Tables, log: seq<Event>)
    requires Represents(t, log)
    ensures CoverageHolds(kind, t) <==>
      && (forall f | f in RequiredNumeric(kind) :: exists p :: MeasuredAt(log, f, p))
      && (forall f, g, p | f in RequiredNumeric(kind) && g in RequiredNumeric(kind) && MeasuredAt(log, f, p) :: MeasuredAt(log, g, p))
  {
    hide Represents, MeasuredAt, RequiredNumeric, Under;
    forall f, p ensures p in Under(t.byPeriod, f) <==> MeasuredAt(log, f, p) {
      PeriodAt(t, log, f, p);
    }
    forall f ensures Under(t.byPeriod, f) != map[] <==> exists p :: MeasuredAt(log, f, p) {
      if Under(t.byPeriod, f) != map[] {
        var p :| p in Under(t.byPeriod, f);
        assert MeasuredAt(log, f, p);
      }
    }
  }
}
