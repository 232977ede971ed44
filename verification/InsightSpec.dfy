/** What the tables should hold, said by membership and plain sums over the observed events. */
module InsightSpec {
  import opened InsightModel

  /** The reading has the labels that the aggregation needs and no others. */
  ghost predicate Shaped(kind: DashboardType, log: seq<Event>) {
    forall e | e in log && e.Measured? ::
      e.reading.places.Keys == (if e.reading.field == Outflow(kind) then RequiredDimensions(kind) else {})
  }

  // ---------------------------------------------------------------- queries

  /** One cell of the result: a measure's period, a label, or both. */
  datatype Query =
    | OfPeriod(field: Field, period: string)
    | OfLabel(group: Group, text: string)
    | OfPoint(group: Group, period: string, text: string)

  predicate Matches(r: Reading, q: Query) {
    match q
    case OfPeriod(f, p) => r.field == f && r.period == p
    case OfLabel(g, v) => r.field == g.0 && g.1 in r.places && r.places[g.1] == v
    case OfPoint(g, p, v) => r.field == g.0 && r.period == p && g.1 in r.places && r.places[g.1] == v
  }

  function Amount(e: Event, q: Query): int {
    if e.Measured? && Matches(e.reading, q) then e.reading.value else 0
  }

  /** The plain sum over every matching row. */
  function Sum(log: seq<Event>, q: Query): int {
    if log == [] then 0 else Sum(log[..|log| - 1], q) + Amount(log[|log| - 1], q)
  }

  function CountOf(log: seq<Event>, f: Field): nat {
    if log == [] then 0
    else
      var e := log[|log| - 1];
      CountOf(log[..|log| - 1], f) + (if e.Measured? && e.reading.field == f then 1 else 0)
  }

  function RowsOf(log: seq<Event>): nat {
    if log == [] then 0 else RowsOf(log[..|log| - 1]) + (if log[|log| - 1] == Counted then 1 else 0)
  }

  function UpdatesOf(log: seq<Event>): seq<Update> {
    if log == [] then []
    else UpdatesOf(log[..|log| - 1]) + (if log[|log| - 1].Updated? then [log[|log| - 1].update] else [])
  }

  // ---------------------------------------------------------------- distinct periods, labels and points

  ghost function PeriodsOf(log: seq<Event>, f: Field): set<string> {
    set e | e in log && e.Measured? && e.reading.field == f :: e.reading.period
  }

  ghost function LabelsOf(log: seq<Event>, d: Field): set<string> {
    set e | e in log && e.Seen? && e.dimension == d :: e.text
  }

  type Point = (Group, string, string)

  ghost function PointsOf(log: seq<Event>): set<Point> {
    set e, d | e in log && e.Measured? && d in e.reading.places :: ((e.reading.field, d), e.reading.period, e.reading.places[d])
  }

  // ---------------------------------------------------------------- when a pass succeeds

  ghost predicate Agree(a: Event, b: Event) {
    a.Measured? && b.Measured? && a.reading.field == b.reading.field && a.reading.period == b.reading.period ==>
      && a.reading.dataset == b.reading.dataset
      && (a.reading.field in POINT_IN_TIME ==> a.reading.value == b.reading.value)
  }

  /** One source for each measure and period, and one value where the measure is point-in-time. */
  ghost predicate Consistent(log: seq<Event>) {
    forall a, b | a in log && b in log :: Agree(a, b)
  }

  ghost predicate PeriodsFit(log: seq<Event>) { forall f :: |PeriodsOf(log, f)| <= MAX_PERIODS }

  ghost predicate LabelsFit(log: seq<Event>) { forall d :: |LabelsOf(log, d)| <= MAX_LABELS }

  ghost predicate Admissible(log: seq<Event>) {
    && Consistent(log)
    && PeriodsFit(log)
    && LabelsFit(log)
    && |PointsOf(log)| <= MAX_POINTS
    && |UpdatesOf(log)| <= MAX_UPDATES
  }

  // ---------------------------------------------------------------- what the tables hold

  ghost predicate SourcesExact(sources: map<(Field, string), Dataset>, log: seq<Event>) {
    && (forall f, p :: (f, p) in sources <==> p in PeriodsOf(log, f))
    && (forall e | e in log && e.Measured? ::
          (e.reading.field, e.reading.period) in sources && sources[(e.reading.field, e.reading.period)] == e.reading.dataset)
  }

  ghost predicate InstantsExact(instants: map<(Field, string), int>, log: seq<Event>) {
    && (forall f, p :: (f, p) in instants <==> f in POINT_IN_TIME && p in PeriodsOf(log, f))
    && (forall e | e in log && e.Measured? && e.reading.field in POINT_IN_TIME ::
          (e.reading.field, e.reading.period) in instants && instants[(e.reading.field, e.reading.period)] == e.reading.value)
  }

  ghost predicate NoneEmpty<K>(m: map<K, map<string, int>>) { forall k | k in m :: m[k] != map[] }

  ghost predicate PeriodKeys(byPeriod: map<Field, map<string, int>>, log: seq<Event>) {
    forall f :: Under(byPeriod, f).Keys == PeriodsOf(log, f)
  }

  ghost predicate PeriodSums(byPeriod: map<Field, map<string, int>>, log: seq<Event>) {
    forall f, p | f !in POINT_IN_TIME :: At(Under(byPeriod, f), p) == Sum(log, OfPeriod(f, p))
  }

  ghost predicate PeriodInstants(byPeriod: map<Field, map<string, int>>, log: seq<Event>) {
    forall e | e in log && e.Measured? && e.reading.field in POINT_IN_TIME ::
      At(Under(byPeriod, e.reading.field), e.reading.period) == e.reading.value
  }

  /** A period's value: the agreed value of a point-in-time measure, the sum of any other. */
  ghost predicate PeriodsExact(byPeriod: map<Field, map<string, int>>, log: seq<Event>) {
    && NoneEmpty(byPeriod)
    && PeriodKeys(byPeriod, log)
    && PeriodSums(byPeriod, log)
    && PeriodInstants(byPeriod, log)
  }

  ghost predicate HasLabel(log: seq<Event>, g: Group, v: string) {
    exists p :: (g, p, v) in PointsOf(log)
  }

  ghost predicate LabelsExact(byDimension: map<Group, map<string, int>>, log: seq<Event>) {
    && NoneEmpty(byDimension)
    && (forall g, v :: v in Under(byDimension, g) <==> HasLabel(log, g, v))
    && (forall g, v :: At(Under(byDimension, g), v) == Sum(log, OfLabel(g, v)))
  }

  ghost predicate PointsFilled(byPoint: map<Group, map<string, map<string, int>>>) {
    forall g | g in byPoint :: byPoint[g] != map[] && NoneEmpty(byPoint[g])
  }

  ghost predicate PointsExact(byPoint: map<Group, map<string, map<string, int>>>, log: seq<Event>) {
    && PointsFilled(byPoint)
    && (forall g, p, v :: v in Under(Under(byPoint, g), p) <==> (g, p, v) in PointsOf(log))
    && (forall g, p, v :: At(Under(Under(byPoint, g), p), v) == Sum(log, OfPoint(g, p, v)))
  }

  ghost predicate UniqueExact(unique: map<Field, set<string>>, log: seq<Event>) {
    && (forall d :: Labels(unique, d) == LabelsOf(log, d))
    && (forall d | d in unique :: unique[d] != {})
  }

  /** The sum of a dictionary's values, in any order. */
  ghost function Total(m: map<string, int>): int {
    if m == map[] then 0
    else
      var k :| k in m;
      m[k] + Total(m - {k})
  }

  ghost predicate TotalsExact(totals: map<Field, Stats>, byPeriod: map<Field, map<string, int>>) {
    && totals.Keys == byPeriod.Keys
    && (forall f | f in totals :: totals[f].total == Total(Under(byPeriod, f)))
  }

  ghost predicate CountsExact(totals: map<Field, Stats>, log: seq<Event>) {
    forall f | f in totals :: totals[f].count == if f in POINT_IN_TIME then |PeriodsOf(log, f)| else CountOf(log, f)
  }

  ghost predicate BoundsExact(totals: map<Field, Stats>, log: seq<Event>) {
    && (forall f | f in totals :: ValueSeen(log, f, totals[f].minimum) && ValueSeen(log, f, totals[f].maximum))
    && (forall f, x | ValueSeen(log, f, x) :: f in totals && totals[f].minimum <= x <= totals[f].maximum)
  }

  ghost predicate StatsExact(totals: map<Field, Stats>, byPeriod: map<Field, map<string, int>>, log: seq<Event>) {
    TotalsExact(totals, byPeriod) && CountsExact(totals, log) && BoundsExact(totals, log)
  }

  ghost predicate ValueSeen(log: seq<Event>, f: Field, x: int) {
    exists e | e in log :: e.Measured? && e.reading.field == f && e.reading.value == x
  }

  ghost predicate Aggregates(t: Tables, log: seq<Event>) {
    && PeriodsExact(t.byPeriod, log)
    && LabelsExact(t.byDimension, log)
    && PointsExact(t.byPoint, log)
    && t.points == |PointsOf(log)|
    && StatsExact(t.totals, t.byPeriod, log)
  }

  /** The whole meaning of the tables: a plain reading of the log, with no running state. */
  ghost predicate Represents(t: Tables, log: seq<Event>) {
    && SourcesExact(t.sources, log)
    && InstantsExact(t.pointInTime, log)
    && Aggregates(t, log)
    && UniqueExact(t.unique, log)
    && t.updates == UpdatesOf(log)
    && t.rows == RowsOf(log)
  }
}
