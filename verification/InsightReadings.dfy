/** What one report row contributes to the tables, cell by cell, and exactly when a row can be read. */
module InsightReadings {
  import opened CreditModel
  import opened DecimalText
  import opened InsightModel
  import opened InsightSpec
  import opened InsightTheorems
  import opened Permutations

  // ---------------------------------------------------------------- labels

  /** The maximal runs of characters that are not white space. */
  function Words(s: string): (words: seq<string>)
    ensures forall i | 0 <= i < |words| :: words[i] != ""
  {
    if s == "" then []
    else if IsSpace(s[0]) then Words(s[1..])
    else if |s| == 1 || IsSpace(s[1]) then [[s[0]]] + Words(s[1..])
    else
      var rest := Words(s[1..]);
      if rest == [] then [[s[0]]] else [[s[0]] + rest[0]] + rest[1..]
  }

  function Spaced(words: seq<string>): string {
    if words == [] then "" else if |words| == 1 then words[0] else words[0] + " " + Spaced(words[1..])
  }

  lemma {:induction false} WordsAfterSpace(s: string)
    ensures Words(s) == Words(StripLeft(s))
  {
    if s != "" && IsSpace(s[0]) {
      WordsAfterSpace(s[1..]);
    }
  }

  lemma {:induction false} FirstWord(s: string)
    requires s != "" && !IsSpace(s[0])
    ensures 0 < WordEnd(s) <= |s| && Words(s) == [s[..WordEnd(s)]] + Words(s[WordEnd(s)..])
  {
    if |s| == 1 || IsSpace(s[1]) {
      assert WordEnd(s) == 1 by { assert s[1..] == "" || IsSpace(s[1..][0]); }
      assert s[..1] == [s[0]];
    } else {
      var t := s[1..];
      FirstWord(t);
      assert s[..WordEnd(s)] == [s[0]] + t[..WordEnd(t)];
      assert s[WordEnd(s)..] == t[WordEnd(t)..];
    }
  }

  /** Squeezing white space keeps the words and puts one space between them. */
  lemma {:induction false} SqueezeIsWords(s: string)
    ensures Squeeze(s) == Spaced(Words(s))
    decreases |s|
  {
    var t := StripLeft(s);
    StripLeftShorter(s);
    WordsAfterSpace(s);
    if t != "" {
      var n := WordEnd(t);
      FirstWord(t);
      SqueezeIsWords(t[n..]);
      SpacedOne(t[..n], Words(t[n..]));
    }
  }

  lemma SpacedOne(word: string, rest: seq<string>)
    requires forall i | 0 <= i < |rest| :: rest[i] != ""
    ensures Spaced([word] + rest) == if rest == [] then word else word + " " + Spaced(rest)
    ensures Spaced(rest) == "" <==> rest == []
  {
    assert ([word] + rest)[1..] == rest;
  }

  /** The text a cell shows. */
  function Shown(c: Cell): string {
    match c
    case Blank => ""
    case Flag(on) => if on then "true" else "false"
    case Number(n) => if n < 0 then "-" + Digits(-n) else Digits(n)
    case Text(text) => Spaced(Words(text))
  }

  lemma {:induction false} OneWord(s: string)
    requires s != "" && forall i | 0 <= i < |s| :: !IsSpace(s[i])
    ensures Words(s) == [s]
  {
    if |s| > 1 {
      OneWord(s[1..]);
      assert s == [s[0]] + s[1..];
    } else {
      assert s == [s[0]] && s[1..] == "";
    }
  }

  lemma ShownIsRendered(c: Cell)
    ensures Rendered(c) == Shown(c)
  {
    match c
    case Number(n) =>
      var text := if n < 0 then "-" + Digits(-n) else Digits(n);
      SqueezeIsWords(text);
      OneWord(text);
    case Text(text) => SqueezeIsWords(text);
    case _ =>
  }

  /** The text shown in a field's column; a field that is not mapped shows nothing. */
  function Says(mapping: map<Field, string>, row: Row, f: Field): string
    requires ColumnsPresent(mapping, row)
  {
    if f in mapping then Shown(row.cells[mapping[f]]) else ""
  }

  function Filled(text: string): Option<string> { if text == "" then None else Some(text) }

  /** A label is what its column shows, refused when it is longer than 255 characters, or 2,000 for a status detail. */
  lemma LabelIsShown(mapping: map<Field, string>, row: Row, f: Field)
    requires ColumnsPresent(mapping, row)
    ensures LabelOf(mapping, row, f)
         == if |Says(mapping, row, f)| > (if f == StatusDetail then 2_000 else 255) then None else Some(Filled(Says(mapping, row, f)))
  {
    hide Rendered, Shown;
    ShownIsRendered(CellOf(mapping, row, f));
    ShownIsRendered(Blank);
    assert Rendered(Blank) == "" by { BlankShowsNothing(); }
  }

  lemma BlankShowsNothing()
    ensures Rendered(Blank) == "" && Shown(Blank) == ""
  {
  }

  // ---------------------------------------------------------------- numbers

  predicate TakesCurrency(f: Field) {
    f == Expenses || f == Revenue || f == NetCash || f == Spend || f == CashBalance || f == Budget
  }

  predicate TakesPercent(f: Field) { f == GrossMargin || f == Progress }

  /** The number in a cell: an integer as it stands, text by the strict grammar with the field's decorations. */
  predicate Holds(c: Cell, f: Field, d: Decimal) {
    match c
    case Number(n) => d == Decimal(n < 0, if n < 0 then 0 - n else n, 0)
    case Text(text) => StrictDecimal(text, TakesCurrency(f), TakesPercent(f)) == Some(d)
    case _ => false
  }

  lemma HeldNumber(c: Cell, f: Field, d: Decimal)
    ensures NumberOfCell(c, f) == Some(d) <==> Holds(c, f, d)
  {
    hide StrictDecimal;
  }

  predicate Numeric(f: Field) {
    f == Expenses || f == Revenue || f == NetCash || f == GrossMargin || f == Spend || f == CashBalance || f == Budget
  }

  predicate Dimension(d: Field) { d == Location || d == Category || d == Department || d == Vendor }

  /** The dimensions a measure is broken down by: only a dashboard's outflow, by two of them. */
  predicate Splits(kind: DashboardType, f: Field, d: Field) {
    match kind
    case ExecutiveSummary => f == Expenses && (d == Category || d == Location)
    case FinancialPerformance => f == Spend && (d == Category || d == Location)
    case OperationalKpi => f == Expenses && (d == Department || d == Vendor)
  }

  // ---------------------------------------------------------------- the reading of one cell

  predicate HasCell(mapping: map<Field, string>, row: Row, f: Field)
    requires ColumnsPresent(mapping, row)
  {
    f in mapping && row.cells[mapping[f]] != Blank
  }

  /** The reading that a numeric cell makes: its value, under the row's period and the labels its measure splits by. */
  ghost predicate Makes(kind: DashboardType, mapping: map<Field, string>, row: Row, f: Field, r: Reading)
    requires ColumnsPresent(mapping, row)
  {
    && HasCell(mapping, row, f) && r.field == f && r.dataset == row.dataset
    && r.period == Says(mapping, row, Period) && r.period != ""
    && (exists d :: Holds(row.cells[mapping[f]], f, d) && r.value == Scaled(d))
    && (forall d :: d in r.places <==> Dimension(d) && Splits(kind, f, d) && Says(mapping, row, d) != "")
    && (forall d | d in r.places :: r.places[d] == Says(mapping, row, d))
  }

  /** A numeric cell can be used: it holds a number, the row has a period, and an outflow both its labels. */
  ghost predicate CellReadable(kind: DashboardType, mapping: map<Field, string>, row: Row, f: Field)
    requires ColumnsPresent(mapping, row)
  {
    HasCell(mapping, row, f) ==>
      && (exists d :: Holds(row.cells[mapping[f]], f, d))
      && Says(mapping, row, Period) != ""
      && (forall d | Splits(kind, f, d) :: Says(mapping, row, d) != "")
  }

  /** The dimension labels a row shows. */
  ghost predicate Labelled(mapping: map<Field, string>, row: Row, dimensions: map<Field, string>)
    requires ColumnsPresent(mapping, row)
  {
    && (forall d :: d in dimensions <==> Dimension(d) && Says(mapping, row, d) != "")
    && (forall d | d in dimensions :: dimensions[d] == Says(mapping, row, d))
  }

  lemma SplitsAreRequired(kind: DashboardType, f: Field, d: Field)
    ensures Splits(kind, f, d) <==> (f, d) in Aggregations(kind)
    ensures Splits(kind, f, d) <==> f == Outflow(kind) && d in RequiredDimensions(kind)
    ensures Splits(kind, f, d) ==> Dimension(d)
  {
  }

  lemma PlacesAre(kind: DashboardType, mapping: map<Field, string>, row: Row, f: Field, dimensions: map<Field, string>)
    requires ColumnsPresent(mapping, row) && Labelled(mapping, row, dimensions)
    ensures var places := Places(kind, f, dimensions);
      && (forall d :: d in places <==> Dimension(d) && Splits(kind, f, d) && Says(mapping, row, d) != "")
      && (forall d | d in places :: places[d] == Says(mapping, row, d))
  {
    hide Says, Splits, Aggregations, Outflow, RequiredDimensions;
    forall d ensures Splits(kind, f, d) <==> (f, d) in Aggregations(kind) {
      SplitsAreRequired(kind, f, d);
    }
  }

  lemma NumberHeld(c: Cell, f: Field)
    ensures NumberOfCell(c, f).Some? <==> exists d :: Holds(c, f, d)
    ensures forall d :: NumberOfCell(c, f) == Some(d) <==> Holds(c, f, d)
  {
    forall d ensures NumberOfCell(c, f) == Some(d) <==> Holds(c, f, d) {
      HeldNumber(c, f, d);
    }
    hide NumberOfCell, Holds;
    if NumberOfCell(c, f).Some? {
      assert Holds(c, f, NumberOfCell(c, f).value);
    }
  }

  /** The outflow needs the labels it is split by; no other measure needs any. */
  lemma RequiredLabels(kind: DashboardType, mapping: map<Field, string>, row: Row, dimensions: map<Field, string>, f: Field)
    requires ColumnsPresent(mapping, row) && Labelled(mapping, row, dimensions)
    ensures (f == Outflow(kind) ==> RequiredDimensions(kind) <= dimensions.Keys)
       <==> forall d | Splits(kind, f, d) :: Says(mapping, row, d) != ""
  {
    hide Says, Splits, Outflow, RequiredDimensions, Aggregations, Dimension;
    forall d ensures Splits(kind, f, d) <==> f == Outflow(kind) && d in RequiredDimensions(kind) {
      SplitsAreRequired(kind, f, d);
    }
    forall d ensures Splits(kind, f, d) ==> Dimension(d) {
      SplitsAreRequired(kind, f, d);
    }
    if f == Outflow(kind) {
      forall d ensures Splits(kind, f, d) <==> d in RequiredDimensions(kind) {
        SplitsAreRequired(kind, f, d);
      }
    }
  }

  lemma ReadingSucceeds(kind: DashboardType, mapping: map<Field, string>, row: Row, dimensions: map<Field, string>, f: Field)
    requires ColumnsPresent(mapping, row) && Labelled(mapping, row, dimensions)
    ensures ReadingOf(kind, mapping, row, Filled(Says(mapping, row, Period)), dimensions, f).Some? <==> CellReadable(kind, mapping, row, f)
  {
    RequiredLabels(kind, mapping, row, dimensions, f);
    NumberHeld(CellOf(mapping, row, f), f);
    hide Says, Splits, Holds, Scaled, NumberOfCell, Outflow, RequiredDimensions, Places, Labelled;
  }

  lemma ReadingIs(kind: DashboardType, mapping: map<Field, string>, row: Row, dimensions: map<Field, string>, f: Field)
    requires ColumnsPresent(mapping, row)
    requires ReadingOf(kind, mapping, row, Filled(Says(mapping, row, Period)), dimensions, f).Some?
    ensures var found := ReadingOf(kind, mapping, row, Filled(Says(mapping, row, Period)), dimensions, f).value;
      if HasCell(mapping, row, f) then
        && Says(mapping, row, Period) != "" && NumberOfCell(row.cells[mapping[f]], f).Some?
        && found == [Measured(Reading(f, Says(mapping, row, Period), Scaled(NumberOfCell(row.cells[mapping[f]], f).value),
                                      row.dataset, Places(kind, f, dimensions)))]
      else found == []
  {
    hide Says, Scaled, NumberOfCell, Outflow, RequiredDimensions, Places;
  }

  lemma ReadingHolds(kind: DashboardType, mapping: map<Field, string>, row: Row, dimensions: map<Field, string>, f: Field, r: Reading)
    requires ColumnsPresent(mapping, row) && Labelled(mapping, row, dimensions)
    requires ReadingOf(kind, mapping, row, Filled(Says(mapping, row, Period)), dimensions, f).Some?
    ensures var found := ReadingOf(kind, mapping, row, Filled(Says(mapping, row, Period)), dimensions, f).value;
      && |found| == (if HasCell(mapping, row, f) then 1 else 0)
      && (forall e | e in found :: e.Measured? && e.reading.field == f)
      && (Measured(r) in found <==> Makes(kind, mapping, row, f, r))
  {
    ReadingIs(kind, mapping, row, dimensions, f);
    if HasCell(mapping, row, f) {
      MadeReading(kind, mapping, row, dimensions, f, r);
    }
    hide ReadingOf, Says, NumberOfCell, Places, Labelled, Scaled;
  }

  lemma MadeReading(kind: DashboardType, mapping: map<Field, string>, row: Row, dimensions: map<Field, string>, f: Field, r: Reading)
    requires ColumnsPresent(mapping, row) && Labelled(mapping, row, dimensions) && HasCell(mapping, row, f)
    requires Says(mapping, row, Period) != "" && NumberOfCell(row.cells[mapping[f]], f).Some?
    ensures Makes(kind, mapping, row, f, r) <==>
      r == Reading(f, Says(mapping, row, Period), Scaled(NumberOfCell(row.cells[mapping[f]], f).value), row.dataset, Places(kind, f, dimensions))
  {
    var cell := row.cells[mapping[f]];
    var number := NumberOfCell(cell, f).value;
    PlacesAre(kind, mapping, row, f, dimensions);
    SamePlaces(kind, mapping, row, f, Places(kind, f, dimensions), r);
    ValueMade(cell, f, number, r.value);
    hide Says, Splits, Scaled, NumberOfCell, Places, Labelled, Dimension, Holds;
  }

  lemma ValueMade(c: Cell, f: Field, number: Decimal, value: int)
    requires NumberOfCell(c, f) == Some(number)
    ensures (exists d :: Holds(c, f, d) && value == Scaled(d)) <==> value == Scaled(number)
  {
    NumberHeld(c, f);
    hide Scaled, NumberOfCell, Holds;
  }

  lemma SamePlaces(kind: DashboardType, mapping: map<Field, string>, row: Row, f: Field, places: map<Field, string>, r: Reading)
    requires ColumnsPresent(mapping, row)
    requires forall d :: d in places <==> Dimension(d) && Splits(kind, f, d) && Says(mapping, row, d) != ""
    requires forall d | d in places :: places[d] == Says(mapping, row, d)
    ensures r.places == places <==>
      && (forall d :: d in r.places <==> Dimension(d) && Splits(kind, f, d) && Says(mapping, row, d) != "")
      && (forall d | d in r.places :: r.places[d] == Says(mapping, row, d))
  {
    hide Says, Splits, Dimension;
  }

  // ---------------------------------------------------------------- dimensions and updates

  /** The labels among the first n dimensions. */
  ghost predicate LabelledUpTo(mapping: map<Field, string>, row: Row, n: nat, dimensions: map<Field, string>)
    requires n <= |DIMENSIONS| && ColumnsPresent(mapping, row)
  {
    && (forall d :: d in dimensions <==> d in DIMENSIONS[..n] && Says(mapping, row, d) != "")
    && (forall d | d in dimensions :: dimensions[d] == Says(mapping, row, d))
  }

  lemma {:induction false} DimensionsUpTo(mapping: map<Field, string>, row: Row, n: nat)
    requires n <= |DIMENSIONS| && ColumnsPresent(mapping, row)
    ensures DimensionsOf(mapping, row, n).Some? <==> forall d | d in DIMENSIONS[..n] :: |Says(mapping, row, d)| <= 255
    ensures DimensionsOf(mapping, row, n).Some? ==> LabelledUpTo(mapping, row, n, DimensionsOf(mapping, row, n).value)
  {
    hide Says, LabelOf;
    if n > 0 {
      var d := DIMENSIONS[n - 1];
      DimensionsUpTo(mapping, row, n - 1);
      LabelIsShown(mapping, row, d);
      assert DIMENSIONS[..n] == DIMENSIONS[..n - 1] + [d];
      assert d !in DIMENSIONS[..n - 1];
    }
  }

  lemma DimensionsExactlyWhen(mapping: map<Field, string>, row: Row)
    requires ColumnsPresent(mapping, row)
    ensures DimensionsOf(mapping, row, |DIMENSIONS|).Some? <==> forall d | Dimension(d) :: |Says(mapping, row, d)| <= 255
    ensures DimensionsOf(mapping, row, |DIMENSIONS|).Some? ==> Labelled(mapping, row, DimensionsOf(mapping, row, |DIMENSIONS|).value)
  {
    hide Says, DimensionsOf;
    DimensionsUpTo(mapping, row, |DIMENSIONS|);
    AllDimensions();
  }

  lemma AllDimensions()
    ensures forall d :: d in DIMENSIONS[..|DIMENSIONS|] <==> Dimension(d)
  {
    assert DIMENSIONS[..|DIMENSIONS|] == [Location, Category, Department, Vendor];
  }

  lemma {:induction false} SeenUpTo(mapping: map<Field, string>, row: Row, n: nat, e: Event)
    requires n <= |DIMENSIONS| && ColumnsPresent(mapping, row)
    requires forall d | Dimension(d) :: |Says(mapping, row, d)| <= 255
    ensures e in SeenEvents(mapping, row, n) <==>
      e.Seen? && e.dimension in DIMENSIONS[..n] && e.text == Says(mapping, row, e.dimension) && e.text != ""
  {
    hide Says, LabelOf;
    if n > 0 {
      var d := DIMENSIONS[n - 1];
      SeenUpTo(mapping, row, n - 1, e);
      LabelIsShown(mapping, row, d);
      assert DIMENSIONS[..n] == DIMENSIONS[..n - 1] + [d];
      assert Dimension(d);
    }
  }

  predicate ShowsUpdate(mapping: map<Field, string>, row: Row)
    requires ColumnsPresent(mapping, row)
  {
    HasCell(mapping, row, StatusTitle) || HasCell(mapping, row, StatusDetail) || HasCell(mapping, row, Status) || HasCell(mapping, row, Progress)
  }

  /** The status update of a row, field by field. */
  ghost predicate Tells(mapping: map<Field, string>, row: Row, u: Update)
    requires ColumnsPresent(mapping, row)
  {
    && u.period == Filled(Says(mapping, row, Period))
    && u.title == Filled(Says(mapping, row, StatusTitle))
    && u.detail == Filled(Says(mapping, row, StatusDetail))
    && u.status == Filled(Says(mapping, row, Status))
    && if HasCell(mapping, row, Progress) then exists d :: Holds(row.cells[mapping[Progress]], Progress, d) && u.progress == Some(Print(d))
       else u.progress == None
  }

  ghost predicate UpdateReadable(mapping: map<Field, string>, row: Row)
    requires ColumnsPresent(mapping, row)
  {
    && |Says(mapping, row, StatusTitle)| <= 255 && |Says(mapping, row, StatusDetail)| <= 2_000 && |Says(mapping, row, Status)| <= 255
    && (HasCell(mapping, row, Progress) ==> exists d :: Holds(row.cells[mapping[Progress]], Progress, d))
  }

  lemma UpdateExactlyWhen(mapping: map<Field, string>, row: Row, u: Update)
    requires ColumnsPresent(mapping, row)
    ensures var found := UpdateOf(mapping, row, Filled(Says(mapping, row, Period)));
      && (found.Some? <==> UpdateReadable(mapping, row))
      && (found.Some? ==> (found == Some(u) <==> Tells(mapping, row, u)))
  {
    LabelIsShown(mapping, row, StatusTitle);
    LabelIsShown(mapping, row, StatusDetail);
    LabelIsShown(mapping, row, Status);
    NumberHeld(CellOf(mapping, row, Progress), Progress);
    BlankHoldsNothing();
    hide Says, LabelOf, Holds, NumberOfCell, Print;
    var number := NumberOfCell(CellOf(mapping, row, Progress), Progress);
    if number.Some? {
      assert Holds(CellOf(mapping, row, Progress), Progress, number.value);
    }
  }

  lemma BlankHoldsNothing()
    ensures forall f, d :: !Holds(Blank, f, d)
  {
  }

  lemma UpdatesExactlyWhen(mapping: map<Field, string>, row: Row, e: Event)
    requires ColumnsPresent(mapping, row)
    ensures var found := UpdateEvents(mapping, row, Filled(Says(mapping, row, Period)));
      && (found.Some? <==> (ShowsUpdate(mapping, row) ==> UpdateReadable(mapping, row)))
      && (found.Some? ==> (e in found.value <==> e.Updated? && ShowsUpdate(mapping, row) && Tells(mapping, row, e.update)))
  {
    assert HasUpdate(mapping, row) <==> ShowsUpdate(mapping, row) by { UpdateShows(mapping, row); }
    if e.Updated? {
      UpdateExactlyWhen(mapping, row, e.update);
    } else {
      UpdateExactlyWhen(mapping, row, Update(None, None, None, None, None));
    }
    hide UpdateOf, Tells, UpdateReadable, HasUpdate, ShowsUpdate, Says;
  }

  lemma UpdateShows(mapping: map<Field, string>, row: Row)
    requires ColumnsPresent(mapping, row)
    ensures HasUpdate(mapping, row) <==> ShowsUpdate(mapping, row)
  {
    assert StatusTitle in STATUS_FIELDS && StatusDetail in STATUS_FIELDS && Status in STATUS_FIELDS && Progress in STATUS_FIELDS;
  }

  // ---------------------------------------------------------------- the whole row

  lemma {:induction false} ReadingsHold(kind: DashboardType, mapping: map<Field, string>, row: Row, dimensions: map<Field, string>,
                                        order: seq<Field>, e: Event)
    requires ColumnsPresent(mapping, row) && Labelled(mapping, row, dimensions)
    ensures var found := ReadingsOf(kind, mapping, row, Filled(Says(mapping, row, Period)), dimensions, order);
      && (found.Some? <==> forall f | f in order :: CellReadable(kind, mapping, row, f))
      && (found.Some? ==>
            && (e in found.value <==> e.Measured? && e.reading.field in order && Makes(kind, mapping, row, e.reading.field, e.reading))
            && (found.value == [] <==> forall f | f in order :: !HasCell(mapping, row, f)))
  {
    hide ReadingOf, Says, CellReadable, Makes, HasCell, Labelled;
    if order != [] {
      var f := order[|order| - 1];
      var before := order[..|order| - 1];
      ReadingsHold(kind, mapping, row, dimensions, before, e);
      ReadingSucceeds(kind, mapping, row, dimensions, f);
      if ReadingOf(kind, mapping, row, Filled(Says(mapping, row, Period)), dimensions, f).Some? {
        ReadingHolds(kind, mapping, row, dimensions, f, if e.Measured? then e.reading else Reading(f, "", 0, row.dataset, map[]));
      }
      assert order == before + [f];
    }
  }

  /** What makes a row readable, one condition a cell. */
  ghost predicate Readable(kind: DashboardType, mapping: map<Field, string>, row: Row)
    requires ColumnsPresent(mapping, row)
  {
    && |Says(mapping, row, Period)| <= 255
    && (forall d | Dimension(d) :: |Says(mapping, row, d)| <= 255)
    && (forall f | Numeric(f) :: CellReadable(kind, mapping, row, f))
    && (ShowsUpdate(mapping, row) ==> UpdateReadable(mapping, row))
  }

  /** What a readable row contributes: the labels, the readings, itself if it measures anything, and its update. */
  ghost predicate Contributes(kind: DashboardType, mapping: map<Field, string>, row: Row, e: Event)
    requires ColumnsPresent(mapping, row)
  {
    match e
    case Seen(d, text) => Dimension(d) && text == Says(mapping, row, d) && text != ""
    case Measured(r) => Numeric(r.field) && Makes(kind, mapping, row, r.field, r)
    case Counted => exists f :: Numeric(f) && HasCell(mapping, row, f)
    case Updated(u) => ShowsUpdate(mapping, row) && Tells(mapping, row, u)
  }

  lemma OrderIsNumeric(order: seq<Field>)
    requires IsOrder(order)
    ensures forall f :: f in order <==> Numeric(f)
  {
    forall f ensures f in order <==> Numeric(f) {
      assert f in order <==> f in multiset(order);
      assert f in multiset(NUMERIC) <==> f in NUMERIC;
    }
  }

  /**
    A mapped row is read exactly when all its columns are there and each cell is readable, and it contributes exactly
    the labels, readings, count and update that its cells show, in whatever order its numeric fields are visited.
    */
  lemma RowReadsExactlyWhen(kind: DashboardType, mappings: Mappings, row: Row, order: seq<Field>, e: Event)
    requires IsOrder(order) && row.dataset in mappings
    ensures var (mapping, found) := (mappings[row.dataset], RowEvents(kind, mappings, row, order));
      && (found.Some? <==> ColumnsPresent(mapping, row) && Readable(kind, mapping, row))
      && (found.Some? ==> (e in found.value <==> Contributes(kind, mapping, row, e)))
  {
    var mapping := mappings[row.dataset];
    OrderIsNumeric(order);
    if ColumnsPresent(mapping, row) {
      LabelIsShown(mapping, row, Period);
      DimensionsExactlyWhen(mapping, row);
      UpdatesExactlyWhen(mapping, row, e);
      var dimensions := DimensionsOf(mapping, row, |DIMENSIONS|);
      if dimensions.Some? {
        ReadingsHold(kind, mapping, row, dimensions.value, order, e);
        SeenHolds(mapping, row, e);
        JoinedMember(kind, mappings, row, order, Filled(Says(mapping, row, Period)), dimensions.value, e);
      }
      hide Says, LabelOf, DimensionsOf, UpdateEvents, ReadingsOf, SeenEvents, CellReadable, Makes, HasCell, UpdateReadable, ShowsUpdate,
        Tells, Dimension, Numeric, IsOrder, ColumnsPresent, Labelled, RowEvents, Filled;
      if dimensions.None? || |Says(mapping, row, Period)| > 255 {
        Unlabelled(kind, mappings, row, order);
      }
    }
  }

  lemma Unlabelled(kind: DashboardType, mappings: Mappings, row: Row, order: seq<Field>)
    requires row.dataset in mappings && ColumnsPresent(mappings[row.dataset], row)
    requires LabelOf(mappings[row.dataset], row, Period) == None || DimensionsOf(mappings[row.dataset], row, |DIMENSIONS|) == None
    ensures RowEvents(kind, mappings, row, order) == None
  {
  }

  /** A row's events are its labels, its readings, itself if there is a reading, and its update. */
  lemma JoinedEvents(kind: DashboardType, mappings: Mappings, row: Row, order: seq<Field>, period: Option<string>,
                     dimensions: map<Field, string>)
    requires row.dataset in mappings && ColumnsPresent(mappings[row.dataset], row)
    requires DimensionsOf(mappings[row.dataset], row, |DIMENSIONS|) == Some(dimensions)
    ensures LabelOf(mappings[row.dataset], row, Period) == Some(period) ==>
      var mapping := mappings[row.dataset];
      var (found, readings, updates) := (RowEvents(kind, mappings, row, order),
        ReadingsOf(kind, mapping, row, period, dimensions, order), UpdateEvents(mapping, row, period));
      && (found.Some? <==> readings.Some? && updates.Some?)
      && (found.Some? ==> found.value == SeenEvents(mapping, row, |DIMENSIONS|) + readings.value
                                         + (if readings.value == [] then [] else [Counted]) + updates.value)
  {
    hide LabelOf, DimensionsOf, UpdateEvents, ReadingsOf, SeenEvents, ColumnsPresent;
  }

  lemma JoinedMember(kind: DashboardType, mappings: Mappings, row: Row, order: seq<Field>, period: Option<string>,
                     dimensions: map<Field, string>, e: Event)
    requires row.dataset in mappings && ColumnsPresent(mappings[row.dataset], row)
    requires DimensionsOf(mappings[row.dataset], row, |DIMENSIONS|) == Some(dimensions)
    ensures LabelOf(mappings[row.dataset], row, Period) == Some(period) ==>
      var mapping := mappings[row.dataset];
      var (found, readings, updates) := (RowEvents(kind, mappings, row, order),
        ReadingsOf(kind, mapping, row, period, dimensions, order), UpdateEvents(mapping, row, period));
      && (found.Some? <==> readings.Some? && updates.Some?)
      && (found.Some? ==> (e in found.value <==>
            e in SeenEvents(mapping, row, |DIMENSIONS|) || e in readings.value || (e == Counted && readings.value != []) || e in updates.value))
  {
    JoinedEvents(kind, mappings, row, order, period, dimensions);
    hide LabelOf, DimensionsOf, UpdateEvents, ReadingsOf, SeenEvents, ColumnsPresent, RowEvents;
  }

  lemma SeenHolds(mapping: map<Field, string>, row: Row, e: Event)
    requires ColumnsPresent(mapping, row)
    requires forall d | Dimension(d) :: |Says(mapping, row, d)| <= 255
    ensures e in SeenEvents(mapping, row, |DIMENSIONS|) <==>
      e.Seen? && Dimension(e.dimension) && e.text == Says(mapping, row, e.dimension) && e.text != ""
  {
    hide Says, SeenEvents;
    SeenUpTo(mapping, row, |DIMENSIONS|, e);
    AllDimensions();
  }

  // ---------------------------------------------------------------- counting rows and updates

  lemma {:induction false} CountsConcat(a: seq<Event>, b: seq<Event>)
    ensures RowsOf(a + b) == RowsOf(a) + RowsOf(b) && UpdatesOf(a + b) == UpdatesOf(a) + UpdatesOf(b)
  {
    if b == [] {
      assert a + b == a;
    } else {
      assert (a + b)[..|a + b| - 1] == a + b[..|b| - 1];
      CountsConcat(a, b[..|b| - 1]);
    }
  }

  lemma {:induction false} CountsNothing(log: seq<Event>)
    requires forall e | e in log :: e.Seen? || e.Measured?
    ensures RowsOf(log) == 0 && UpdatesOf(log) == []
  {
    if log != [] {
      assert log[|log| - 1] in log;
      CountsNothing(log[..|log| - 1]);
    }
  }

  /** How often a row is counted: once if it has a numeric cell. */
  ghost function Measures(mappings: Mappings, row: Row): int {
    if row.dataset in mappings && ColumnsPresent(mappings[row.dataset], row)
       && exists f :: Numeric(f) && HasCell(mappings[row.dataset], row, f) then 1 else 0
  }

  /** How many updates a row adds: one if it has a status cell. */
  ghost function Reports(mappings: Mappings, row: Row): int {
    if row.dataset in mappings && ColumnsPresent(mappings[row.dataset], row) && ShowsUpdate(mappings[row.dataset], row) then 1 else 0
  }

  lemma RowCounts(kind: DashboardType, mappings: Mappings, row: Row, order: seq<Field>)
    requires IsOrder(order) && RowEvents(kind, mappings, row, order).Some?
    ensures RowsOf(RowEvents(kind, mappings, row, order).value) == Measures(mappings, row)
    ensures |UpdatesOf(RowEvents(kind, mappings, row, order).value)| == Reports(mappings, row)
  {
    if row.dataset in mappings {
      var mapping := mappings[row.dataset];
      OrderIsNumeric(order);
      LabelIsShown(mapping, row, Period);
      var period := Filled(Says(mapping, row, Period));
      DimensionsExactlyWhen(mapping, row);
      var dimensions := DimensionsOf(mapping, row, |DIMENSIONS|).value;
      JoinedEvents(kind, mappings, row, order, period, dimensions);
      var seen, readings := SeenEvents(mapping, row, |DIMENSIONS|), ReadingsOf(kind, mapping, row, period, dimensions, order).value;
      var counted: seq<Event> := if readings == [] then [] else [Counted];
      var updates := UpdateEvents(mapping, row, period).value;
      ReadingsHold(kind, mapping, row, dimensions, order, Counted);
      SeenAreLabels(mapping, row, |DIMENSIONS|);
      ReadingsMeasure(kind, mapping, row, dimensions, order);
      UpdateShows(mapping, row);
      JoinedCounts(seen, readings, counted, updates);
      OneCounted(readings);
      OneUpdate(mapping, row, period);
      hide Says, LabelOf, DimensionsOf, UpdateEvents, ReadingsOf, SeenEvents, CellReadable, Makes, HasCell, ShowsUpdate, HasUpdate,
        Numeric, IsOrder, Labelled, RowEvents, RowsOf, UpdatesOf, Filled;
    } else {
      CountsNothing([]);
    }
  }

  lemma JoinedCounts(seen: seq<Event>, readings: seq<Event>, counted: seq<Event>, updates: seq<Event>)
    requires (forall e | e in seen :: e.Seen?) && (forall e | e in readings :: e.Measured?)
    ensures RowsOf(seen + readings + counted + updates) == RowsOf(counted) + RowsOf(updates)
    ensures UpdatesOf(seen + readings + counted + updates) == UpdatesOf(counted) + UpdatesOf(updates)
  {
    hide RowsOf, UpdatesOf;
    CountsConcat(seen + readings + counted, updates);
    CountsConcat(seen + readings, counted);
    CountsNothing(seen + readings);
  }

  lemma OneCounted(readings: seq<Event>)
    ensures var counted: seq<Event> := if readings == [] then [] else [Counted];
      RowsOf(counted) == (if readings == [] then 0 else 1) && UpdatesOf(counted) == []
  {
    assert [Counted][..0] == [];
  }

  lemma OneUpdate(mapping: map<Field, string>, row: Row, period: Option<string>)
    requires ColumnsPresent(mapping, row) && UpdateEvents(mapping, row, period).Some?
    ensures var updates := UpdateEvents(mapping, row, period).value;
      RowsOf(updates) == 0 && |UpdatesOf(updates)| == if HasUpdate(mapping, row) then 1 else 0
  {
    hide HasUpdate, UpdateOf;
    var updates := UpdateEvents(mapping, row, period).value;
    if updates != [] {
      assert updates[..0] == [];
    }
  }

  lemma ReadingsMeasure(kind: DashboardType, mapping: map<Field, string>, row: Row, dimensions: map<Field, string>, order: seq<Field>)
    requires ColumnsPresent(mapping, row) && Labelled(mapping, row, dimensions)
    requires ReadingsOf(kind, mapping, row, Filled(Says(mapping, row, Period)), dimensions, order).Some?
    ensures forall e | e in ReadingsOf(kind, mapping, row, Filled(Says(mapping, row, Period)), dimensions, order).value :: e.Measured?
  {
    hide ReadingsOf, Says, Makes, Labelled, CellReadable, HasCell;
    forall e | e in ReadingsOf(kind, mapping, row, Filled(Says(mapping, row, Period)), dimensions, order).value ensures e.Measured? {
      ReadingsHold(kind, mapping, row, dimensions, order, e);
    }
  }

  /** After a pass the row counter is the number of rows with a numeric cell, and there is one update a row with a status cell. */
  lemma {:induction false} RowsAndUpdatesCounted(kind: DashboardType, mappings: Mappings, rows: seq<OrderedRow>)
    requires Orders(rows) && Pass(kind, mappings, rows).Some?
    ensures Pass(kind, mappings, rows).value.rows == SumBy((row: Row) => Measures(mappings, row), Rows(rows))
    ensures |Pass(kind, mappings, rows).value.updates| == SumBy((row: Row) => Reports(mappings, row), Rows(rows))
  {
    PassRefines(kind, mappings, rows);
    LogCounts(kind, mappings, rows);
    hide Pass, LogOf, SourcesExact, InstantsExact, Aggregates, UniqueExact, Admissible;
  }

  lemma {:induction false} LogCounts(kind: DashboardType, mappings: Mappings, rows: seq<OrderedRow>)
    requires Orders(rows) && LogOf(kind, mappings, rows).Some?
    ensures RowsOf(LogOf(kind, mappings, rows).value) == SumBy((row: Row) => Measures(mappings, row), Rows(rows))
    ensures |UpdatesOf(LogOf(kind, mappings, rows).value)| == SumBy((row: Row) => Reports(mappings, row), Rows(rows))
  {
    hide RowEvents, Measures, Reports;
    if rows != [] {
      var last := rows[|rows| - 1];
      assert last in rows;
      LogCounts(kind, mappings, rows[..|rows| - 1]);
      RowCounts(kind, mappings, last.0, last.1);
      CountsConcat(LogOf(kind, mappings, rows[..|rows| - 1]).value, RowEvents(kind, mappings, last.0, last.1).value);
    }
  }
}
