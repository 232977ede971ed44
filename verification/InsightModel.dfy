/** Fields, rows and the tables that the insight accumulator fills in one pass. */
module InsightModel {
  import opened CreditModel
  import opened DecimalText

  datatype DashboardType = ExecutiveSummary | FinancialPerformance | OperationalKpi

  datatype Field =
    | Period | Location | Expenses | Revenue | NetCash | Category | GrossMargin | Spend | CashBalance | Budget
    | Department | Vendor | StatusTitle | StatusDetail | Status | Progress

  const MAX_PERIODS: nat := 600
  const MAX_LABELS: nat := 1_000
  const MAX_POINTS: nat := 20_000
  const MAX_UPDATES: nat := 200
  const MAX_LABEL: nat := 255
  const MAX_DETAIL: nat := 2_000

  const NUMERIC: set<Field> := {Expenses, Revenue, NetCash, GrossMargin, Spend, CashBalance, Budget}
  const CURRENCY: set<Field> := {Expenses, Revenue, NetCash, Spend, CashBalance, Budget}
  const PERCENT: set<Field> := {GrossMargin, Progress}
  const POINT_IN_TIME: set<Field> := {NetCash, CashBalance, GrossMargin}
  const DIMENSIONS: seq<Field> := [Location, Category, Department, Vendor]

  function Outflow(kind: DashboardType): Field {
    match kind
    case ExecutiveSummary => Expenses
    case FinancialPerformance => Spend
    case OperationalKpi => Expenses
  }

  function RequiredDimensions(kind: DashboardType): set<Field> {
    match kind
    case ExecutiveSummary => {Category, Location}
    case FinancialPerformance => {Category, Location}
    case OperationalKpi => {Department, Vendor}
  }

  function Aggregations(kind: DashboardType): set<(Field, Field)> {
    match kind
    case ExecutiveSummary => {(Expenses, Category), (Expenses, Location)}
    case FinancialPerformance => {(Spend, Category), (Spend, Location)}
    case OperationalKpi => {(Expenses, Department), (Expenses, Vendor)}
  }

  function RequiredNumeric(kind: DashboardType): set<Field> {
    match kind
    case ExecutiveSummary => {Expenses, Revenue, NetCash, GrossMargin}
    case FinancialPerformance => {Revenue, Spend, CashBalance, Budget}
    case OperationalKpi => {Expenses}
  }

  // ---------------------------------------------------------------- rows

  /** A cell of a normalized report; floats are outside the exact decimal domain. */
  datatype Cell = Blank | Flag(on: bool) | Number(n: int) | Text(text: string)

  /** The sheet of an immutable processing job. */
  datatype Dataset = Dataset(job: Id, sheet: int, name: string)

  datatype Row = Row(dataset: Dataset, cells: map<string, Cell>)

  /** The configured mappings, from semantic field to source column. */
  type Mappings = map<Dataset, map<Field, string>>

  /** A measure read from one row, in units of 10^-20, and the labels it is aggregated under. */
  datatype Reading = Reading(field: Field, period: string, value: int, dataset: Dataset, places: map<Field, string>)

  datatype Update = Update(
    period: Option<string>,
    title: Option<string>,
    detail: Option<string>,
    status: Option<string>,
    progress: Option<string>)

  /** What one row contributes, piece by piece. */
  datatype Event =
    | Seen(dimension: Field, text: string)
    | Measured(reading: Reading)
    | Counted
    | Updated(update: Update)

  // ---------------------------------------------------------------- tables

  datatype Stats = Stats(count: nat, total: int, minimum: int, maximum: int)

  type Group = (Field, Field)

  datatype Tables = Tables(
    totals: map<Field, Stats>,
    byPeriod: map<Field, map<string, int>>,
    byDimension: map<Group, map<string, int>>,
    byPoint: map<Group, map<string, map<string, int>>>,
    unique: map<Field, set<string>>,
    updates: seq<Update>,
    pointInTime: map<(Field, string), int>,
    sources: map<(Field, string), Dataset>,
    points: nat,
    rows: nat)

  const EMPTY: Tables := Tables(map[], map[], map[], map[], map[], [], map[], map[], 0, 0)

  function Under<K, V>(m: map<K, map<string, V>>, k: K): map<string, V> {
    if k in m then m[k] else map[]
  }

  function At(m: map<string, int>, k: string): int { if k in m then m[k] else 0 }

  /** The dictionary update `m[k] = m.get(k, 0) + x`. */
  function Plus(m: map<string, int>, k: string, x: int): map<string, int> { m[k := At(m, k) + x] }

  /** The same update one dictionary further in, as `setdefault` reaches it. */
  function PlusUnder<K>(m: map<K, map<string, int>>, k: K, text: string, x: int): map<K, map<string, int>> {
    m[k := Plus(Under(m, k), text, x)]
  }

  function PlusPoint(m: map<Group, map<string, map<string, int>>>, g: Group, period: string, text: string, x: int)
    : map<Group, map<string, map<string, int>>>
  {
    m[g := PlusUnder(Under(m, g), period, text, x)]
  }

  function Labels(m: map<Field, set<string>>, d: Field): set<string> { if d in m then m[d] else {} }

  function Min(a: int, b: int): int { if b < a then b else a }

  function Max(a: int, b: int): int { if b > a then b else a }

  function Observed(m: map<Field, Stats>, f: Field, x: int): map<Field, Stats> {
    m[f := if f in m
           then Stats(m[f].count + 1, m[f].total + x, Min(m[f].minimum, x), Max(m[f].maximum, x))
           else Stats(1, x, x, x)]
  }

  // ---------------------------------------------------------------- one event

  function See(t: Tables, d: Field, text: string): Option<Tables> {
    var labels := Labels(t.unique, d) + {text};
    if |labels| > MAX_LABELS then None else Some(t.(unique := t.unique[d := labels]))
  }

  function AddPlace(t: Tables, g: Group, period: string, text: string, x: int): Option<Tables> {
    var added := text !in Under(Under(t.byPoint, g), period);
    if added && t.points + 1 > MAX_POINTS then None
    else Some(t.(
      byDimension := PlusUnder(t.byDimension, g, text, x),
      byPoint := PlusPoint(t.byPoint, g, period, text, x),
      points := if added then t.points + 1 else t.points))
  }

  /** The aggregation under the first n dimensions. */
  function AddPlaces(t: Tables, r: Reading, n: nat): Option<Tables>
    requires n <= |DIMENSIONS|
  {
    if n == 0 then Some(t)
    else
      var d := DIMENSIONS[n - 1];
      match AddPlaces(t, r, n - 1)
      case None => None
      case Some(u) => if d in r.places then AddPlace(u, (r.field, d), r.period, r.places[d], r.value) else Some(u)
  }

  function AddValue(t: Tables, r: Reading): Option<Tables> {
    var byPeriod := PlusUnder(t.byPeriod, r.field, r.period, r.value);
    if |Under(byPeriod, r.field)| > MAX_PERIODS then None
    else AddPlaces(t.(totals := Observed(t.totals, r.field, r.value), byPeriod := byPeriod), r, |DIMENSIONS|)
  }

  /** One numeric cell: overlap of sources, repeated point-in-time values, then every aggregate. */
  function Measure(t: Tables, r: Reading): Option<Tables> {
    var at := (r.field, r.period);
    if at in t.sources && t.sources[at] != r.dataset then None
    else
      var t := t.(sources := t.sources[at := r.dataset]);
      if r.field !in POINT_IN_TIME then AddValue(t, r)
      else if at !in t.pointInTime then AddValue(t.(pointInTime := t.pointInTime[at := r.value]), r)
      else if t.pointInTime[at] != r.value then None
      else Some(t)
  }

  function Step(t: Tables, e: Event): Option<Tables> {
    match e
    case Seen(d, text) => See(t, d, text)
    case Measured(r) => Measure(t, r)
    case Counted => Some(t.(rows := t.rows + 1))
    case Updated(u) => if |t.updates| >= MAX_UPDATES then None else Some(t.(updates := t.updates + [u]))
  }

  function Fold(t: Tables, log: seq<Event>): Option<Tables> {
    if log == [] then Some(t)
    else match Fold(t, log[..|log| - 1])
      case None => None
      case Some(u) => Step(u, log[|log| - 1])
  }

  lemma {:induction false} FoldAppend(t: Tables, a: seq<Event>, b: seq<Event>)
    ensures Fold(t, a + b) == (match Fold(t, a) case None => None case Some(u) => Fold(u, b))
  {
    hide Step;
    if b == [] {
      assert a + b == a;
    } else {
      var c := b[..|b| - 1];
      FoldAppend(t, a, c);
      assert (a + b)[..|a + b| - 1] == a + c;
    }
  }

  // ---------------------------------------------------------------- reading one row

  /** Runs of white space become one space; the ends are stripped. */
  function Squeeze(s: string): string
    decreases |s|
  {
    var t := StripLeft(s);
    if t == "" then ""
    else
      var n := WordEnd(t);
      StripLeftShorter(s);
      var rest := Squeeze(t[n..]);
      if rest == "" then t[..n] else t[..n] + " " + rest
  }

  function WordEnd(s: string): (n: nat)
    ensures n <= |s| && (s != "" && !IsSpace(s[0]) ==> n > 0)
  {
    if s == "" || IsSpace(s[0]) then 0 else 1 + WordEnd(s[1..])
  }

  lemma {:induction false} StripLeftShorter(s: string)
    ensures |StripLeft(s)| <= |s| && (StripLeft(s) != "" ==> !IsSpace(StripLeft(s)[0]))
  {
    if s != "" && IsSpace(s[0]) {
      StripLeftShorter(s[1..]);
    }
  }

  function Rendered(c: Cell): string {
    match c
    case Blank => ""
    case Flag(on) => if on then "true" else "false"
    case Number(n) => Squeeze(if n < 0 then "-" + Digits(-n) else Digits(n))
    case Text(text) => Squeeze(text)
  }

  /** The label of a cell; the outer None is the error for an overlong label. */
  function Label(c: Cell, maximum: nat): Option<Option<string>> {
    var text := Rendered(c);
    if text == "" then Some(None) else if |text| > maximum then None else Some(Some(text))
  }

  function NumberOfCell(c: Cell, field: Field): Option<Decimal> {
    match c
    case Blank => None
    case Flag(_) => None
    case Number(n) => Some(if n < 0 then Decimal(true, -n, 0) else Decimal(false, n, 0))
    case Text(text) => StrictDecimal(text, field in CURRENCY, field in PERCENT)
  }

  /** The value in units of 10^-20; every accepted text has at most twenty fraction digits. */
  function Scaled(d: Decimal): int {
    var unit: int := if d.scale <= 20 then d.coefficient * Pow10(20 - d.scale) else d.coefficient / Pow10(d.scale - 20);
    if d.negative then -unit else unit
  }

  /** A mapped field's cell; a field that is not mapped reads as blank. */
  function CellOf(mapping: map<Field, string>, row: Row, f: Field): Cell
    requires ColumnsPresent(mapping, row)
  {
    if f in mapping then row.cells[mapping[f]] else Blank
  }

  predicate ColumnsPresent(mapping: map<Field, string>, row: Row) {
    forall f | f in mapping :: mapping[f] in row.cells
  }

  function LabelOf(mapping: map<Field, string>, row: Row, f: Field): Option<Option<string>>
    requires ColumnsPresent(mapping, row)
  {
    Label(CellOf(mapping, row, f), if f == StatusDetail then MAX_DETAIL else MAX_LABEL)
  }

  /** The dimension labels of a row, over the first n dimensions. */
  function DimensionsOf(mapping: map<Field, string>, row: Row, n: nat): Option<map<Field, string>>
    requires n <= |DIMENSIONS| && ColumnsPresent(mapping, row)
  {
    if n == 0 then Some(map[])
    else
      var d := DIMENSIONS[n - 1];
      match DimensionsOf(mapping, row, n - 1)
      case None => None
      case Some(found) =>
        match LabelOf(mapping, row, d)
        case None => None
        case Some(None) => Some(found)
        case Some(Some(text)) => Some(found[d := text])
  }

  /** The labels seen, in the fixed order of the dimensions. */
  function SeenEvents(mapping: map<Field, string>, row: Row, n: nat): seq<Event>
    requires n <= |DIMENSIONS| && ColumnsPresent(mapping, row)
  {
    if n == 0 then []
    else SeenEvents(mapping, row, n - 1) + SeenAt(mapping, row, DIMENSIONS[n - 1])
  }

  function SeenAt(mapping: map<Field, string>, row: Row, d: Field): seq<Event>
    requires ColumnsPresent(mapping, row)
  {
    match LabelOf(mapping, row, d)
    case Some(Some(text)) => [Seen(d, text)]
    case _ => []
  }

  function Places(kind: DashboardType, f: Field, dimensions: map<Field, string>): map<Field, string> {
    map d | d in dimensions && (f, d) in Aggregations(kind) :: dimensions[d]
  }

  /** The reading of one numeric field: nothing for a blank cell, an error for a cell that cannot be used. */
  function ReadingOf(kind: DashboardType, mapping: map<Field, string>, row: Row, period: Option<string>,
                     dimensions: map<Field, string>, f: Field): Option<seq<Event>>
    requires ColumnsPresent(mapping, row)
  {
    var cell := CellOf(mapping, row, f);
    if cell == Blank then Some([])
    else
      match NumberOfCell(cell, f)
      case None => None
      case Some(number) =>
        if period == None || (f == Outflow(kind) && !(RequiredDimensions(kind) <= dimensions.Keys)) then None
        else Some([Measured(Reading(f, period.value, Scaled(number), row.dataset, Places(kind, f, dimensions)))])
  }

  /** The readings of a row in one iteration order of its numeric fields. */
  function ReadingsOf(kind: DashboardType, mapping: map<Field, string>, row: Row, period: Option<string>,
                      dimensions: map<Field, string>, order: seq<Field>): Option<seq<Event>>
    requires ColumnsPresent(mapping, row)
  {
    if order == [] then Some([])
    else
      match ReadingsOf(kind, mapping, row, period, dimensions, order[..|order| - 1])
      case None => None
      case Some(events) =>
        match ReadingOf(kind, mapping, row, period, dimensions, order[|order| - 1])
        case None => None
        case Some(more) => Some(events + more)
  }

  const STATUS_FIELDS: set<Field> := {StatusTitle, StatusDetail, Status, Progress}

  predicate HasUpdate(mapping: map<Field, string>, row: Row)
    requires ColumnsPresent(mapping, row)
  {
    exists f | f in STATUS_FIELDS :: CellOf(mapping, row, f) != Blank
  }

  function UpdateOf(mapping: map<Field, string>, row: Row, period: Option<string>): Option<Update>
    requires ColumnsPresent(mapping, row)
  {
    var progress := CellOf(mapping, row, Progress);
    var number := NumberOfCell(progress, Progress);
    var title := LabelOf(mapping, row, StatusTitle);
    var detail := LabelOf(mapping, row, StatusDetail);
    var status := LabelOf(mapping, row, Status);
    if (progress != Blank && number == None) || title == None || detail == None || status == None then None
    else Some(Update(period, title.value, detail.value, status.value,
                     if number == None then None else Some(Print(number.value))))
  }

  function UpdateEvents(mapping: map<Field, string>, row: Row, period: Option<string>): Option<seq<Event>>
    requires ColumnsPresent(mapping, row)
  {
    if !HasUpdate(mapping, row) then Some([])
    else match UpdateOf(mapping, row, period) case None => None case Some(u) => Some([Updated(u)])
  }

  /** Everything one row contributes, or None when the row itself is refused. */
  function RowEvents(kind: DashboardType, mappings: Mappings, row: Row, order: seq<Field>): Option<seq<Event>> {
    if row.dataset !in mappings then Some([])
    else
      var mapping := mappings[row.dataset];
      if !ColumnsPresent(mapping, row) then None
      else
        var period := LabelOf(mapping, row, Period);
        var dimensions := DimensionsOf(mapping, row, |DIMENSIONS|);
        if period == None || dimensions == None then None
        else
          var readings := ReadingsOf(kind, mapping, row, period.value, dimensions.value, order);
          var updates := UpdateEvents(mapping, row, period.value);
          if readings == None || updates == None then None
          else Some(SeenEvents(mapping, row, |DIMENSIONS|) + readings.value
                    + (if readings.value == [] then [] else [Counted]) + updates.value)
  }

  /** An iteration order of the numeric fields' frozenset. */
  ghost predicate IsOrder(order: seq<Field>) {
    multiset(order) == multiset(NUMERIC)
  }

  /** A pass over report rows, each with the iteration order its numeric fields happened to have. */
  function Pass(kind: DashboardType, mappings: Mappings, rows: seq<(Row, seq<Field>)>): Option<Tables> {
    if rows == [] then Some(EMPTY)
    else
      var last := rows[|rows| - 1];
      match Pass(kind, mappings, rows[..|rows| - 1])
      case None => None
      case Some(t) =>
        match RowEvents(kind, mappings, last.0, last.1)
        case None => None
        case Some(events) => Fold(t, events)
  }
}
