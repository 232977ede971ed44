/** The accumulator object: dictionaries, sets and counters updated in place, row by row. */
module InsightAccumulator {
  import opened CreditModel
  import opened InsightModel

  // ---------------------------------------------------------------- a failure anywhere fails the row

  lemma {:induction false} FoldFails(t: Tables, a: seq<Event>, log: seq<Event>)
    requires a <= log && Fold(t, a) == None
    ensures Fold(t, log) == None
  {
    assert log == a + log[|a|..];
    FoldAppend(t, a, log[|a|..]);
  }

  lemma FoldOne(t: Tables, a: seq<Event>, e: Event)
    requires Fold(t, a).Some?
    ensures Fold(t, a + [e]) == Step(Fold(t, a).value, e)
  {
    assert (a + [e])[..|a + [e]| - 1] == a;
  }

  lemma {:induction false} DimensionsFail(mapping: map<Field, string>, row: Row, i: nat, n: nat)
    requires ColumnsPresent(mapping, row) && i <= n <= |DIMENSIONS|
    requires DimensionsOf(mapping, row, i) == None
    ensures DimensionsOf(mapping, row, n) == None
  {
    if i < n {
      DimensionsFail(mapping, row, i, n - 1);
    }
  }

  lemma {:induction false} SeenPrefix(mapping: map<Field, string>, row: Row, i: nat, n: nat)
    requires ColumnsPresent(mapping, row) && i <= n <= |DIMENSIONS|
    ensures SeenEvents(mapping, row, i) <= SeenEvents(mapping, row, n)
  {
    if i < n {
      SeenPrefix(mapping, row, i, n - 1);
    }
  }

  /** The readings of the fields iterated so far, as a prefix of all of them. */
  lemma {:induction false} ReadingsPrefix(kind: DashboardType, mapping: map<Field, string>, row: Row, period: Option<string>,
                                          dimensions: map<Field, string>, order: seq<Field>, i: nat)
    requires ColumnsPresent(mapping, row) && i <= |order|
    ensures var (some, all) := (ReadingsOf(kind, mapping, row, period, dimensions, order[..i]),
                                ReadingsOf(kind, mapping, row, period, dimensions, order));
      && (some == None ==> all == None)
      && (some.Some? && all.Some? ==> some.value <= all.value)
    decreases |order|
  {
    if i == |order| {
      assert order[..i] == order;
    } else {
      var shorter := order[..|order| - 1];
      ReadingsPrefix(kind, mapping, row, period, dimensions, shorter, i);
      assert shorter[..i] == order[..i];
    }
  }

  lemma ReadingsNext(kind: DashboardType, mapping: map<Field, string>, row: Row, period: Option<string>,
                     dimensions: map<Field, string>, order: seq<Field>, i: nat)
    requires ColumnsPresent(mapping, row) && i < |order|
    requires ReadingsOf(kind, mapping, row, period, dimensions, order[..i]).Some?
    ensures var done := ReadingsOf(kind, mapping, row, period, dimensions, order[..i]).value;
      var (f, cell) := (order[i], CellOf(mapping, row, order[i]));
      var number := NumberOfCell(cell, f);
      ReadingsOf(kind, mapping, row, period, dimensions, order[..i + 1])
        == if cell == Blank then Some(done)
           else if number == None || period == None then None
           else if f == Outflow(kind) && !(RequiredDimensions(kind) <= dimensions.Keys) then None
           else Some(done + [Measured(Reading(f, period.value, Scaled(number.value), row.dataset, Places(kind, f, dimensions)))])
  {
    hide CellOf, NumberOfCell, Outflow, RequiredDimensions, Scaled, Places;
    assert order[..i + 1][..i] == order[..i];
    assert forall a: seq<Event> :: a + [] == a;
  }

  lemma DimensionsNext(mapping: map<Field, string>, row: Row, i: nat)
    requires ColumnsPresent(mapping, row) && i < |DIMENSIONS| && DimensionsOf(mapping, row, i).Some?
    ensures var (found, seen, rendered) :=
        (DimensionsOf(mapping, row, i).value, SeenEvents(mapping, row, i), LabelOf(mapping, row, DIMENSIONS[i]));
      match rendered
      case None => DimensionsOf(mapping, row, i + 1) == None
      case Some(None) => DimensionsOf(mapping, row, i + 1) == Some(found) && SeenEvents(mapping, row, i + 1) == seen
      case Some(Some(text)) =>
        && DimensionsOf(mapping, row, i + 1) == Some(found[DIMENSIONS[i] := text])
        && SeenEvents(mapping, row, i + 1) == seen + [Seen(DIMENSIONS[i], text)]
  {
    hide LabelOf;
  }

  lemma NoPlaces(t: Tables, r: Reading)
    ensures AddPlaces(t, r, 0) == Some(t)
  {
  }

  lemma NothingYet(t: Tables, kind: DashboardType, mapping: map<Field, string>, row: Row, period: Option<string>,
                   dimensions: map<Field, string>)
    requires ColumnsPresent(mapping, row)
    ensures Fold(t, []) == Some(t) && ReadingsOf(kind, mapping, row, period, dimensions, []) == Some([])
    ensures DimensionsOf(mapping, row, 0) == Some(map[]) && SeenEvents(mapping, row, 0) == []
  {
  }

  lemma PlacesNext(t: Tables, r: Reading, i: nat)
    requires i < |DIMENSIONS| && AddPlaces(t, r, i).Some?
    ensures AddPlaces(t, r, i + 1)
         == var d := DIMENSIONS[i];
            if d in r.places then AddPlace(AddPlaces(t, r, i).value, (r.field, d), r.period, r.places[d], r.value)
            else AddPlaces(t, r, i)
  {
  }

  lemma {:induction false} PlacesFail(t: Tables, r: Reading, i: nat, n: nat)
    requires i <= n <= |DIMENSIONS| && AddPlaces(t, r, i) == None
    ensures AddPlaces(t, r, n) == None
  {
    if i < n {
      PlacesFail(t, r, i, n - 1);
    }
  }

  /** The outcome of a row, part after part. */
  function RowOutcome(t: Tables, seen: seq<Event>, readings: seq<Event>, updates: seq<Event>): Option<Tables> {
    match Fold(t, seen)
    case None => None
    case Some(a) =>
      match Fold(a, readings)
      case None => None
      case Some(b) => Fold(if readings == [] then b else b.(rows := b.rows + 1), updates)
  }

  lemma RowParts(t: Tables, seen: seq<Event>, readings: seq<Event>, updates: seq<Event>)
    ensures Fold(t, seen + readings + (if readings == [] then [] else [Counted]) + updates) == RowOutcome(t, seen, readings, updates)
  {
    hide Step;
    var counted: seq<Event> := if readings == [] then [] else [Counted];
    FoldAppend(t, seen, readings);
    FoldAppend(t, seen + readings, counted);
    FoldAppend(t, seen + readings + counted, updates);
    if Fold(t, seen + readings).Some? {
      var b := Fold(t, seen + readings).value;
      assert Fold(b, []) == Some(b);
      FoldOne(b, [], Counted);
      assert [] + [Counted] == [Counted];
      CountedStep(b);
    }
  }

  lemma FoldNothing(t: Tables)
    ensures Fold(t, []) == Some(t)
  {
  }

  lemma RowFolds(t: Tables, kind: DashboardType, mappings: Mappings, row: Row, order: seq<Field>)
    requires row.dataset in mappings && ColumnsPresent(mappings[row.dataset], row)
    ensures RowEvents(kind, mappings, row, order).Some? ==>
      var mapping := mappings[row.dataset];
      var (period, dimensions) := (LabelOf(mapping, row, Period), DimensionsOf(mapping, row, |DIMENSIONS|));
      period.Some? && dimensions.Some? &&
      var readings := ReadingsOf(kind, mapping, row, period.value, dimensions.value, order);
      var updates := UpdateEvents(mapping, row, period.value);
      readings.Some? && updates.Some? &&
      Fold(t, RowEvents(kind, mappings, row, order).value)
        == RowOutcome(t, SeenEvents(mapping, row, |DIMENSIONS|), readings.value, updates.value)
  {
    hide LabelOf, DimensionsOf, SeenEvents, ReadingsOf, UpdateEvents, Fold, ColumnsPresent, RowOutcome;
    if RowEvents(kind, mappings, row, order).Some? {
      var mapping := mappings[row.dataset];
      var period := LabelOf(mapping, row, Period).value;
      var dimensions := DimensionsOf(mapping, row, |DIMENSIONS|).value;
      RowParts(t, SeenEvents(mapping, row, |DIMENSIONS|), ReadingsOf(kind, mapping, row, period, dimensions, order).value,
               UpdateEvents(mapping, row, period).value);
    }
  }

  lemma CountedStep(t: Tables)
    ensures Step(t, Counted) == Some(t.(rows := t.rows + 1))
  {
  }

  lemma {:induction false} PassFails(kind: DashboardType, mappings: Mappings, rows: seq<(Row, seq<Field>)>, i: nat)
    requires i <= |rows| && Pass(kind, mappings, rows[..i]) == None
    ensures Pass(kind, mappings, rows) == None
    decreases |rows|
  {
    hide RowEvents;
    if i == |rows| {
      assert rows[..i] == rows;
    } else {
      assert rows[..|rows| - 1][..i] == rows[..i];
      PassFails(kind, mappings, rows[..|rows| - 1], i);
    }
  }

  // ---------------------------------------------------------------- the object

  class Accumulator {
    const kind: DashboardType
    const mappings: Mappings
    var totals: map<Field, Stats>
    var byPeriod: map<Field, map<string, int>>
    var byDimension: map<Group, map<string, int>>
    var byPoint: map<Group, map<string, map<string, int>>>
    var unique: map<Field, set<string>>
    var updates: seq<Update>
    var pointInTime: map<(Field, string), int>
    var sources: map<(Field, string), Dataset>
    var points: nat
    var rows: nat

    /** The tables that the fields hold. */
    function State(): Tables
      reads this
    {
      Tables(totals, byPeriod, byDimension, byPoint, unique, updates, pointInTime, sources, points, rows)
    }

    constructor (kind: DashboardType, mappings: Mappings)
      ensures State() == EMPTY && this.kind == kind && this.mappings == mappings
    {
      this.kind, this.mappings := kind, mappings;
      totals, byPeriod, byDimension, byPoint, unique := map[], map[], map[], map[], map[];
      updates, pointInTime, sources, points, rows := [], map[], map[], 0, 0;
    }

    method ObserveUnique(d: Field, text: string) returns (ok: bool)
      modifies this
      ensures ok <==> See(old(State()), d, text).Some?
      ensures ok ==> Some(State()) == See(old(State()), d, text)
    {
      var values := Labels(unique, d) + {text};
      unique := unique[d := values];
      ok := |values| <= MAX_LABELS;
    }

    method ObservePlace(group: Group, period: string, text: string, x: int) returns (ok: bool)
      modifies this
      ensures ok <==> AddPlace(old(State()), group, period, text, x).Some?
      ensures ok ==> Some(State()) == AddPlace(old(State()), group, period, text, x)
    {
      byDimension := PlusUnder(byDimension, group, text, x);
      if text !in Under(Under(byPoint, group), period) {
        points := points + 1;
        if points > MAX_POINTS {
          return false;
        }
      }
      byPoint := PlusPoint(byPoint, group, period, text, x);
      ok := true;
    }

    /** The aggregation of one reading under each of its labels. */
    method ObservePlaces(r: Reading) returns (ok: bool)
      modifies this
      ensures ok <==> AddPlaces(old(State()), r, |DIMENSIONS|).Some?
      ensures ok ==> Some(State()) == AddPlaces(old(State()), r, |DIMENSIONS|)
    {
      hide AddPlaces, AddPlace;
      ghost var start := State();
      NoPlaces(start, r);
      var i := 0;
      while i < |DIMENSIONS|
        invariant 0 <= i <= |DIMENSIONS|
        invariant AddPlaces(start, r, i) == Some(State())
      {
        var d := DIMENSIONS[i];
        PlacesNext(start, r, i);
        if d in r.places {
          var fits := ObservePlace((r.field, d), r.period, r.places[d], r.value);
          if !fits {
            PlacesFail(start, r, i + 1, |DIMENSIONS|);
            return false;
          }
        }
        i := i + 1;
      }
      ok := true;
    }

    /** One numeric cell that was read. */
    method ObserveReading(r: Reading) returns (ok: bool)
      modifies this
      ensures ok <==> Measure(old(State()), r).Some?
      ensures ok ==> Some(State()) == Measure(old(State()), r)
    {
      hide AddPlaces, PlusUnder;
      var at := (r.field, r.period);
      if at in sources && sources[at] != r.dataset {
        return false;
      }
      sources := sources[at := r.dataset];
      if r.field in POINT_IN_TIME {
        if at in pointInTime {
          return pointInTime[at] == r.value;
        }
        pointInTime := pointInTime[at := r.value];
      }
      ghost var noted := State();
      totals := Observed(totals, r.field, r.value);
      byPeriod := PlusUnder(byPeriod, r.field, r.period, r.value);
      assert Measure(old(State()), r) == AddValue(noted, r);
      if |Under(byPeriod, r.field)| > MAX_PERIODS {
        return false;
      }
      ok := ObservePlaces(r);
    }

    /** The labels of the row's dimensions, each noted as it is found. */
    method ObserveDimensions(mapping: map<Field, string>, row: Row) returns (found: Option<map<Field, string>>)
      requires ColumnsPresent(mapping, row)
      modifies this
      ensures found.Some? <==>
        DimensionsOf(mapping, row, |DIMENSIONS|).Some? && Fold(old(State()), SeenEvents(mapping, row, |DIMENSIONS|)).Some?
      ensures found.Some? ==> found == DimensionsOf(mapping, row, |DIMENSIONS|)
      ensures found.Some? ==> Fold(old(State()), SeenEvents(mapping, row, |DIMENSIONS|)) == Some(State())
    {
      hide LabelOf, See, DimensionsOf, SeenEvents, Fold, ColumnsPresent;
      ghost var start := State();
      NothingYet(start, kind, mapping, row, None, map[]);
      var dimensions: map<Field, string> := map[];
      var i := 0;
      while i < |DIMENSIONS|
        invariant 0 <= i <= |DIMENSIONS|
        invariant DimensionsOf(mapping, row, i) == Some(dimensions)
        invariant Fold(start, SeenEvents(mapping, row, i)) == Some(State())
      {
        var d := DIMENSIONS[i];
        var rendered := LabelOf(mapping, row, d);
        DimensionsNext(mapping, row, i);
        if rendered == None {
          DimensionsFail(mapping, row, i + 1, |DIMENSIONS|);
          return None;
        }
        if rendered.value.Some? {
          var text := rendered.value.value;
          dimensions := dimensions[d := text];
          FoldOne(start, SeenEvents(mapping, row, i), Seen(d, text));
          var fits := ObserveUnique(d, text);
          if !fits {
            SeenPrefix(mapping, row, i + 1, |DIMENSIONS|);
            FoldFails(start, SeenEvents(mapping, row, i + 1), SeenEvents(mapping, row, |DIMENSIONS|));
            return None;
          }
        }
        i := i + 1;
      }
      found := Some(dimensions);
    }

    /** The numeric cells of the row, in the order the set of numeric fields is iterated. */
    method ObserveReadings(mapping: map<Field, string>, row: Row, period: Option<string>, dimensions: map<Field, string>,
                           order: seq<Field>) returns (ok: bool, observed: bool)
      requires ColumnsPresent(mapping, row)
      modifies this
      ensures var readings := ReadingsOf(kind, mapping, row, period, dimensions, order);
        && (ok <==> readings.Some? && Fold(old(State()), readings.value).Some?)
        && (ok ==> Fold(old(State()), readings.value) == Some(State()) && (observed <==> readings.value != []))
    {
      hide Measure, Scaled, NumberOfCell, Places, CellOf, Outflow, RequiredDimensions, ReadingsOf, Fold, ColumnsPresent;
      ghost var start := State();
      NothingYet(start, kind, mapping, row, period, dimensions);
      observed := false;
      var i := 0;
      ghost var done: seq<Event> := [];
      assert order[..0] == [];
      while i < |order|
        invariant 0 <= i <= |order|
        invariant ReadingsOf(kind, mapping, row, period, dimensions, order[..i]) == Some(done)
        invariant Fold(start, done) == Some(State())
        invariant observed <==> done != []
      {
        var f := order[i];
        var cell := CellOf(mapping, row, f);
        ReadingsNext(kind, mapping, row, period, dimensions, order, i);
        ReadingsPrefix(kind, mapping, row, period, dimensions, order, i + 1);
        if cell != Blank {
          var number := NumberOfCell(cell, f);
          if number == None || period == None {
            return false, observed;
          }
          if f == Outflow(kind) && !(RequiredDimensions(kind) <= dimensions.Keys) {
            return false, observed;
          }
          var r := Reading(f, period.value, Scaled(number.value), row.dataset, Places(kind, f, dimensions));
          FoldOne(start, done, Measured(r));
          done := done + [Measured(r)];
          var fits := ObserveReading(r);
          if !fits {
            if ReadingsOf(kind, mapping, row, period, dimensions, order).Some? {
              FoldFails(start, done, ReadingsOf(kind, mapping, row, period, dimensions, order).value);
            }
            return false, observed;
          }
          observed := true;
        }
        i := i + 1;
      }
      assert order[..i] == order;
      ok := true;
    }

    /** The row's status update, if any of its four cells is filled. */
    method ObserveUpdate(mapping: map<Field, string>, row: Row, period: Option<string>) returns (ok: bool)
      requires ColumnsPresent(mapping, row)
      modifies this
      ensures var events := UpdateEvents(mapping, row, period);
        && (ok <==> events.Some? && Fold(old(State()), events.value).Some?)
        && (ok ==> Fold(old(State()), events.value) == Some(State()))
    {
      hide UpdateOf, HasUpdate;
      if !HasUpdate(mapping, row) {
        return true;
      }
      var update := UpdateOf(mapping, row, period);
      if update.Some? {
        FoldOne(State(), [], Updated(update.value));
        assert [] + [Updated(update.value)] == [Updated(update.value)];
      }
      if |updates| >= MAX_UPDATES || update == None {
        return false;
      }
      updates := updates + [update.value];
      ok := true;
    }

    /** One report row. After a failure the object is discarded. */
    method Observe(row: Row, order: seq<Field>) returns (ok: bool)
      modifies this
      ensures var events := RowEvents(kind, mappings, row, order);
        && (ok <==> events.Some? && Fold(old(State()), events.value).Some?)
        && (ok ==> Fold(old(State()), events.value) == Some(State()))
    {
      hide LabelOf, DimensionsOf, SeenEvents, ReadingsOf, UpdateEvents, Fold, Step, ColumnsPresent;
      ghost var start := State();
      if row.dataset !in mappings {
        FoldNothing(start);
        return true;
      }
      var mapping := mappings[row.dataset];
      if !ColumnsPresent(mapping, row) {
        return false;
      }
      var period := LabelOf(mapping, row, Period);
      if period == None {
        return false;
      }
      var dimensions := ObserveDimensions(mapping, row);
      if dimensions == None {
        RowFolds(start, kind, mappings, row, order);
        return false;
      }
      RowFolds(start, kind, mappings, row, order);
      var numeric, observed := ObserveReadings(mapping, row, period.value, dimensions.value, order);
      if !numeric {
        return false;
      }
      if observed {
        rows := rows + 1;
      }
      ok := ObserveUpdate(mapping, row, period.value);
    }

    /** All rows of the mapped sheets, up to the first that fails. */
    method ObserveAll(all: seq<(Row, seq<Field>)>) returns (ok: bool)
      requires State() == EMPTY
      modifies this
      ensures ok <==> Pass(kind, mappings, all).Some?
      ensures ok ==> Some(State()) == Pass(kind, mappings, all)
    {
      hide RowEvents, Fold;
      var i := 0;
      while i < |all|
        invariant 0 <= i <= |all|
        invariant Pass(kind, mappings, all[..i]) == Some(State())
      {
        assert all[..i + 1][..i] == all[..i];
        var fits := Observe(all[i].0, all[i].1);
        if !fits {
          PassFails(kind, mappings, all, i + 1);
          return false;
        }
        i := i + 1;
      }
      assert all[..i] == all;
      ok := true;
    }
  }
}
