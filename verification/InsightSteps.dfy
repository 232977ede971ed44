/** One event against the declarative reading of the log: it succeeds exactly when the longer log is admissible. */
module InsightSteps {
  import opened InsightModel
  import opened InsightSpec
  import opened InsightLemmas

  // ---------------------------------------------------------------- events that measure nothing

  lemma Quiet(log: seq<Event>, e: Event)
    requires !e.Measured?
    ensures PointsOf(log + [e]) == PointsOf(log)
    ensures forall f :: PeriodsOf(log + [e], f) == PeriodsOf(log, f) && CountOf(log + [e], f) == CountOf(log, f)
    ensures forall q :: Sum(log + [e], q) == Sum(log, q)
    ensures forall f, x :: ValueSeen(log + [e], f, x) <==> ValueSeen(log, f, x)
  {
    PointsAppend(log, e);
    forall f ensures PeriodsOf(log + [e], f) == PeriodsOf(log, f) && CountOf(log + [e], f) == CountOf(log, f) {
      PeriodsAppend(log, e, f);
      CountAppend(log, e, f);
    }
    forall q ensures Sum(log + [e], q) == Sum(log, q) {
      SumAppend(log, e, q);
    }
    forall f, x ensures ValueSeen(log + [e], f, x) <==> ValueSeen(log, f, x) {
      SeenLater(log, e, f, x);
    }
  }

  lemma QuietSources(t: Tables, log: seq<Event>, e: Event)
    requires !e.Measured? && SourcesExact(t.sources, log) && InstantsExact(t.pointInTime, log) && Consistent(log)
    ensures SourcesExact(t.sources, log + [e]) && InstantsExact(t.pointInTime, log + [e]) && Consistent(log + [e])
  {
    Quiet(log, e);
    Last(log, e);
    hide PeriodsOf;
  }

  lemma QuietPeriods(byPeriod: map<Field, map<string, int>>, log: seq<Event>, e: Event)
    requires !e.Measured? && PeriodsExact(byPeriod, log)
    ensures PeriodsExact(byPeriod, log + [e])
    ensures PeriodsFit(log) ==> PeriodsFit(log + [e])
  {
    Quiet(log, e);
    Last(log, e);
    hide PeriodsOf, Sum, At, Under, NoneEmpty;
  }

  lemma QuietPoints(t: Tables, log: seq<Event>, e: Event)
    requires !e.Measured? && LabelsExact(t.byDimension, log) && PointsExact(t.byPoint, log)
    ensures LabelsExact(t.byDimension, log + [e]) && PointsExact(t.byPoint, log + [e])
  {
    Quiet(log, e);
    hide PointsOf, Sum, At, Under, NoneEmpty, PointsFilled;
    forall g, v ensures HasLabel(log + [e], g, v) <==> HasLabel(log, g, v) {
      assert PointsOf(log + [e]) == PointsOf(log);
    }
  }

  lemma QuietStats(t: Tables, log: seq<Event>, e: Event)
    requires !e.Measured? && StatsExact(t.totals, t.byPeriod, log)
    ensures StatsExact(t.totals, t.byPeriod, log + [e])
  {
    Quiet(log, e);
    hide PeriodsOf, CountOf, ValueSeen, TotalsExact;
  }

  lemma QuietAggregates(t: Tables, log: seq<Event>, e: Event)
    requires !e.Measured? && Aggregates(t, log)
    ensures Aggregates(t, log + [e])
    ensures PeriodsFit(log) ==> PeriodsFit(log + [e])
    ensures PointsOf(log + [e]) == PointsOf(log)
  {
    hide PeriodsExact, LabelsExact, PointsExact, StatsExact, PeriodsFit, PointsOf;
    Quiet(log, e);
    QuietPeriods(t.byPeriod, log, e);
    QuietPoints(t, log, e);
    QuietStats(t, log, e);
  }

  lemma QuietUnique(t: Tables, log: seq<Event>, e: Event)
    requires !e.Seen? && UniqueExact(t.unique, log)
    ensures UniqueExact(t.unique, log + [e])
    ensures LabelsFit(log) ==> LabelsFit(log + [e])
  {
    forall d ensures LabelsOf(log + [e], d) == LabelsOf(log, d) {
      LabelsAppend(log, e, d);
    }
    hide LabelsOf;
  }

  // ---------------------------------------------------------------- a label

  lemma SeeLabels(log: seq<Event>, d: Field, text: string, c: Field)
    ensures LabelsOf(log + [Seen(d, text)], c) == if c == d then LabelsOf(log, d) + {text} else LabelsOf(log, c)
  {
    LabelsAppend(log, Seen(d, text), c);
  }

  lemma SeeUnique(unique: map<Field, set<string>>, log: seq<Event>, d: Field, text: string)
    requires UniqueExact(unique, log)
    ensures UniqueExact(unique[d := Labels(unique, d) + {text}], log + [Seen(d, text)])
    ensures LabelsOf(log + [Seen(d, text)], d) == Labels(unique, d) + {text}
  {
    hide LabelsOf;
    SeeLabels(log, d, text, d);
    var labels := Labels(unique, d) + {text};
    forall c ensures Labels(unique[d := labels], c) == LabelsOf(log + [Seen(d, text)], c) {
      SeeLabels(log, d, text, c);
    }
    assert text in labels;
  }

  lemma SeeFits(log: seq<Event>, d: Field, text: string)
    requires LabelsFit(log)
    ensures LabelsFit(log + [Seen(d, text)]) <==> |LabelsOf(log + [Seen(d, text)], d)| <= MAX_LABELS
  {
    hide LabelsOf;
    forall c | c != d ensures LabelsOf(log + [Seen(d, text)], c) == LabelsOf(log, c) {
      SeeLabels(log, d, text, c);
    }
  }

  // ---------------------------------------------------------------- a reading

  lemma ConsistentStep(t: Tables, log: seq<Event>, r: Reading)
    requires SourcesExact(t.sources, log) && InstantsExact(t.pointInTime, log) && Consistent(log)
    ensures var at := (r.field, r.period);
      Consistent(log + [Measured(r)]) <==>
        && (at in t.sources ==> t.sources[at] == r.dataset)
        && (r.field in POINT_IN_TIME && at in t.pointInTime ==> t.pointInTime[at] == r.value)
  {
    var at := (r.field, r.period);
    var e := Measured(r);
    var next := log + [e];
    Last(log, e);
    if at in t.sources {
      assert r.period in PeriodsOf(log, r.field);
      var a :| a in log && a.Measured? && a.reading.field == r.field && a.reading.period == r.period;
      assert Consistent(next) ==> Agree(a, e);
    }
    if (at in t.sources ==> t.sources[at] == r.dataset)
      && (r.field in POINT_IN_TIME && at in t.pointInTime ==> t.pointInTime[at] == r.value) {
      forall a, b | a in next && b in next ensures Agree(a, b) {
        AgreesWithTables(t, log, r, a);
        AgreesWithTables(t, log, r, b);
        assert a in log && b in log ==> Agree(a, b);
      }
    }
  }

  lemma AgreesWithTables(t: Tables, log: seq<Event>, r: Reading, a: Event)
    requires SourcesExact(t.sources, log) && InstantsExact(t.pointInTime, log)
    requires var at := (r.field, r.period); at in t.sources ==> t.sources[at] == r.dataset
    requires var at := (r.field, r.period); r.field in POINT_IN_TIME && at in t.pointInTime ==> t.pointInTime[at] == r.value
    requires a in log + [Measured(r)]
    ensures Agree(a, Measured(r)) && Agree(Measured(r), a)
  {
    Last(log, Measured(r));
    hide PeriodsOf;
  }

  /** Which fields the shape of the log keeps out of the dimension tables. */
  lemma ShapedPlaces(kind: DashboardType, log: seq<Event>, r: Reading)
    requires Shaped(kind, log + [Measured(r)])
    ensures forall d | d in r.places :: d in DIMENSIONS
    ensures r.field in POINT_IN_TIME ==> r.places == map[]
    ensures Shaped(kind, log)
  {
    var e := Measured(r);
    Last(log, e);
    assert e in log + [e];
    assert DIMENSIONS[0] == Location && DIMENSIONS[1] == Category && DIMENSIONS[2] == Department && DIMENSIONS[3] == Vendor;
    assert r.field in POINT_IN_TIME ==> r.places.Keys == {};
  }

  lemma PeriodsFitStep(byPeriod: map<Field, map<string, int>>, log: seq<Event>, r: Reading)
    requires PeriodsExact(byPeriod, log) && PeriodsFit(log)
    ensures PeriodsFit(log + [Measured(r)])
       <==> |Under(PlusUnder(byPeriod, r.field, r.period, r.value), r.field)| <= MAX_PERIODS
  {
    var next := log + [Measured(r)];
    PeriodKeysStep(byPeriod, log, r);
    var n := PlusUnder(byPeriod, r.field, r.period, r.value);
    assert Under(n, r.field).Keys == PeriodsOf(next, r.field);
    assert |Under(n, r.field).Keys| == |Under(n, r.field)|;
    forall f | f != r.field ensures PeriodsOf(next, f) == PeriodsOf(log, f) {
      PeriodsAppend(log, Measured(r), f);
    }
    hide PeriodsOf, Under, PlusUnder, PeriodsExact;
  }

  lemma AddValueKeeps(kind: DashboardType, t: Tables, log: seq<Event>, r: Reading)
    requires Aggregates(t, log) && PeriodsFit(log) && |PointsOf(log)| <= MAX_POINTS
    requires Shaped(kind, log + [Measured(r)])
    requires r.field in POINT_IN_TIME ==> r.period !in PeriodsOf(log, r.field)
    ensures match AddValue(t, r)
      case Some(u) =>
        && u == t.(byPeriod := u.byPeriod, byDimension := u.byDimension, byPoint := u.byPoint, points := u.points, totals := u.totals)
        && Aggregates(u, log + [Measured(r)])
        && PeriodsFit(log + [Measured(r)])
        && |PointsOf(log + [Measured(r)])| <= MAX_POINTS
      case None => !PeriodsFit(log + [Measured(r)]) || |PointsOf(log + [Measured(r)])| > MAX_POINTS
  {
    PeriodsFitStep(t.byPeriod, log, r);
    PeriodsStep(t.byPeriod, log, r);
    StatsStep(t.totals, t.byPeriod, log, r);
    ShapedPlaces(kind, log, r);
    CutAll(r);
    hide PeriodsFit, PeriodsExact, LabelsExact, PointsExact, StatsExact, PointsOf, Cut, PlusUnder, Observed;
    var byPeriod := PlusUnder(t.byPeriod, r.field, r.period, r.value);
    PlacesStep(t.(totals := Observed(t.totals, r.field, r.value), byPeriod := byPeriod), log, r, |DIMENSIONS|);
    hide AddPlaces;
  }

  /** A repeated point-in-time value leaves every aggregate as it is. */
  lemma RepeatKeeps(t: Tables, log: seq<Event>, r: Reading)
    requires Aggregates(t, log) && PeriodsFit(log) && InstantsExact(t.pointInTime, log)
    requires r.field in POINT_IN_TIME && r.places == map[]
    requires (r.field, r.period) in t.pointInTime && t.pointInTime[(r.field, r.period)] == r.value
    ensures Aggregates(t, log + [Measured(r)]) && PeriodsFit(log + [Measured(r)])
    ensures PointsOf(log + [Measured(r)]) == PointsOf(log)
  {
    var a :| a in log && a.Measured? && a.reading.field == r.field && a.reading.period == r.period;
    assert ValueSeen(log, r.field, r.value);
    PeriodsRepeat(t.byPeriod, log, r);
    StatsRepeat(t.totals, t.byPeriod, log, r);
    assert Bare(r) == r;
    BareKeeps(t, log, r);
    forall f ensures PeriodsOf(log + [Measured(r)], f) == PeriodsOf(log, f) {
      PeriodsAppend(log, Measured(r), f);
    }
    hide PeriodsOf, PeriodsExact, LabelsExact, PointsExact, StatsExact, PointsOf;
  }

  lemma MeasureKeeps(kind: DashboardType, t: Tables, log: seq<Event>, r: Reading)
    requires Represents(t, log) && Admissible(log) && Shaped(kind, log + [Measured(r)])
    ensures match Measure(t, r)
      case Some(u) => Represents(u, log + [Measured(r)]) && Admissible(log + [Measured(r)])
      case None => !Admissible(log + [Measured(r)])
  {
    hide Aggregates, Consistent, PeriodsFit, LabelsFit, SourcesExact, InstantsExact, UniqueExact, PointsOf, Shaped, AddValue;
    var at := (r.field, r.period);
    ConsistentStep(t, log, r);
    if Consistent(log + [Measured(r)]) {
      QuietUnique(t, log, Measured(r));
      UpdatesAppend(log, Measured(r));
      SourcesStep(t.sources, log, r);
      InstantsStep(t.pointInTime, log, r);
      if r.field in POINT_IN_TIME && at in t.pointInTime {
        ShapedPlaces(kind, log, r);
        RepeatMeasured(t, log, r);
      } else {
        NewMeasured(kind, t, log, r);
      }
    }
  }

  lemma RepeatMeasured(t: Tables, log: seq<Event>, r: Reading)
    requires Aggregates(t, log) && PeriodsFit(log) && InstantsExact(t.pointInTime, log)
    requires r.field in POINT_IN_TIME && r.places == map[]
    requires (r.field, r.period) in t.pointInTime && t.pointInTime[(r.field, r.period)] == r.value
    ensures t.pointInTime[(r.field, r.period) := r.value] == t.pointInTime
    ensures Aggregates(t.(sources := t.sources[(r.field, r.period) := r.dataset]), log + [Measured(r)])
    ensures PeriodsFit(log + [Measured(r)]) && PointsOf(log + [Measured(r)]) == PointsOf(log)
  {
    hide Aggregates, PeriodsFit, InstantsExact, PointsOf;
    RepeatKeeps(t, log, r);
    SameAggregates(t, t.(sources := t.sources[(r.field, r.period) := r.dataset]), log + [Measured(r)]);
  }

  /** The tables as they are when a reading's value is added. */
  function Noted(t: Tables, r: Reading): Tables {
    t.(sources := t.sources[(r.field, r.period) := r.dataset],
       pointInTime := if r.field in POINT_IN_TIME then t.pointInTime[(r.field, r.period) := r.value] else t.pointInTime)
  }

  lemma NewMeasured(kind: DashboardType, t: Tables, log: seq<Event>, r: Reading)
    requires Aggregates(t, log) && PeriodsFit(log) && |PointsOf(log)| <= MAX_POINTS && InstantsExact(t.pointInTime, log)
    requires Shaped(kind, log + [Measured(r)])
    requires (r.field, r.period) in t.sources ==> t.sources[(r.field, r.period)] == r.dataset
    requires r.field in POINT_IN_TIME ==> (r.field, r.period) !in t.pointInTime
    ensures Measure(t, r) == AddValue(Noted(t, r), r)
    ensures match AddValue(Noted(t, r), r)
      case Some(u) =>
        && u.sources == Noted(t, r).sources && u.pointInTime == Noted(t, r).pointInTime
        && u.unique == t.unique && u.updates == t.updates && u.rows == t.rows
        && Aggregates(u, log + [Measured(r)])
        && PeriodsFit(log + [Measured(r)])
        && |PointsOf(log + [Measured(r)])| <= MAX_POINTS
      case None => !PeriodsFit(log + [Measured(r)]) || |PointsOf(log + [Measured(r)])| > MAX_POINTS
  {
    hide Aggregates, PeriodsFit, InstantsExact, PointsOf, Shaped, AddValue;
    SameAggregates(t, Noted(t, r), log);
    if r.field in POINT_IN_TIME {
      NewInstant(t.pointInTime, log, r);
    }
    AddValueKeeps(kind, Noted(t, r), log, r);
  }

  lemma NewInstant(instants: map<(Field, string), int>, log: seq<Event>, r: Reading)
    requires InstantsExact(instants, log) && (r.field, r.period) !in instants && r.field in POINT_IN_TIME
    ensures r.period !in PeriodsOf(log, r.field)
  {
    hide PeriodsOf;
  }

  lemma SameAggregates(t: Tables, u: Tables, log: seq<Event>)
    requires Aggregates(t, log)
    requires u.byPeriod == t.byPeriod && u.byDimension == t.byDimension && u.byPoint == t.byPoint
    requires u.points == t.points && u.totals == t.totals
    ensures Aggregates(u, log)
  {
  }

  // ---------------------------------------------------------------- any event

  lemma StepKeeps(kind: DashboardType, t: Tables, log: seq<Event>, e: Event)
    requires Represents(t, log) && Admissible(log) && Shaped(kind, log + [e])
    ensures match Step(t, e)
      case Some(u) => Represents(u, log + [e]) && Admissible(log + [e])
      case None => !Admissible(log + [e])
  {
    hide Represents, Admissible, Shaped, Measure;
    if e.Measured? {
      MeasureKeeps(kind, t, log, e.reading);
    } else {
      QuietStep(t, log, e);
    }
  }

  lemma QuietStep(t: Tables, log: seq<Event>, e: Event)
    requires Represents(t, log) && Admissible(log) && !e.Measured?
    ensures match Step(t, e)
      case Some(u) => Represents(u, log + [e]) && Admissible(log + [e])
      case None => !Admissible(log + [e])
  {
    hide Aggregates, Consistent, PeriodsFit, LabelsFit, SourcesExact, InstantsExact, UniqueExact, PointsOf, Labels, LabelsOf;
    QuietSources(t, log, e);
    QuietAggregates(t, log, e);
    UpdatesAppend(log, e);
    if e.Seen? {
      SeeUnique(t.unique, log, e.dimension, e.text);
      SeeFits(log, e.dimension, e.text);
    } else {
      QuietUnique(t, log, e);
    }
    match Step(t, e) {
      case None =>
      case Some(u) => SameAggregates(t, u, log + [e]);
    }
  }

  lemma EmptyRepresents()
    ensures Represents(EMPTY, []) && Admissible([])
  {
    hide Total;
    assert forall f :: PeriodsOf([], f) == {};
    assert forall d :: LabelsOf([], d) == {};
    assert PointsOf([]) == {};
  }

  lemma SetsGrow(log: seq<Event>, e: Event, f: Field)
    ensures |PeriodsOf(log, f)| <= |PeriodsOf(log + [e], f)|
    ensures |LabelsOf(log, f)| <= |LabelsOf(log + [e], f)|
    ensures |PointsOf(log)| <= |PointsOf(log + [e])|
  {
    PeriodsAppend(log, e, f);
    LabelsAppend(log, e, f);
    PointsAppend(log, e);
    hide PeriodsOf, LabelsOf, PointsOf, PointsAdded;
    Grows(PeriodsOf(log, f), PeriodsOf(log + [e], f));
    Grows(LabelsOf(log, f), LabelsOf(log + [e], f));
    Grows(PointsOf(log), PointsOf(log + [e]));
  }

  /** A prefix of an admissible log is admissible. */
  lemma AdmissiblePrefix(log: seq<Event>, e: Event)
    requires Admissible(log + [e])
    ensures Admissible(log)
  {
    hide PeriodsOf, LabelsOf, PointsOf, UpdatesOf, Agree;
    UpdatesAppend(log, e);
    Last(log, e);
    SetsGrow(log, e, Expenses);
    forall f ensures |PeriodsOf(log, f)| <= MAX_PERIODS && |LabelsOf(log, f)| <= MAX_LABELS {
      SetsGrow(log, e, f);
    }
  }

  /** The one-pass accumulator succeeds exactly on the admissible logs, and then holds what the log says. */
  lemma {:induction false} FoldRefines(kind: DashboardType, log: seq<Event>)
    requires Shaped(kind, log)
    ensures Fold(EMPTY, log).Some? <==> Admissible(log)
    ensures Fold(EMPTY, log).Some? ==> Represents(Fold(EMPTY, log).value, log)
  {
    hide Admissible, Represents, Step;
    if log == [] {
      EmptyRepresents();
    } else {
      var before, e := log[..|log| - 1], log[|log| - 1];
      assert before + [e] == log;
      FoldRefines(kind, before);
      if Fold(EMPTY, before).Some? {
        StepKeeps(kind, Fold(EMPTY, before).value, before, e);
      } else if Admissible(log) {
        AdmissiblePrefix(before, e);
      }
    }
  }
}
