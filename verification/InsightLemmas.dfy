/** One event keeps every table equal to its declarative meaning, or shows that the log is not admissible. */
module InsightLemmas {
  import opened InsightModel
  import opened InsightSpec

  // ---------------------------------------------------------------- appending one event

  ghost function PointsAdded(e: Event): set<Point> {
    if e.Measured? then
      set d | d in e.reading.places :: ((e.reading.field, d), e.reading.period, e.reading.places[d])
    else {}
  }

  lemma Last(log: seq<Event>, e: Event)
    ensures (log + [e])[..|log + [e]| - 1] == log && (log + [e])[|log + [e]| - 1] == e
    ensures forall x :: x in log + [e] <==> x in log || x == e
  {
  }

  lemma SumAppend(log: seq<Event>, e: Event, q: Query)
    ensures Sum(log + [e], q) == Sum(log, q) + Amount(e, q)
  {
    Last(log, e);
  }

  lemma PeriodsAppend(log: seq<Event>, e: Event, f: Field)
    ensures PeriodsOf(log + [e], f) == PeriodsOf(log, f) + (if e.Measured? && e.reading.field == f then {e.reading.period} else {})
  {
    Last(log, e);
  }

  lemma LabelsAppend(log: seq<Event>, e: Event, d: Field)
    ensures LabelsOf(log + [e], d) == LabelsOf(log, d) + (if e.Seen? && e.dimension == d then {e.text} else {})
  {
    Last(log, e);
  }

  lemma PointsAppend(log: seq<Event>, e: Event)
    ensures PointsOf(log + [e]) == PointsOf(log) + PointsAdded(e)
  {
    Last(log, e);
    var s := PointsOf(log + [e]);
    forall x | x in PointsOf(log) + PointsAdded(e) ensures x in s {
      if x in PointsAdded(e) {
        assert e in log + [e];
      }
    }
  }

  lemma Grows<T>(a: set<T>, b: set<T>)
    requires a <= b
    ensures |a| <= |b|
  {
    assert b == a + (b - a);
  }

  lemma UpdatesAppend(log: seq<Event>, e: Event)
    ensures UpdatesOf(log + [e]) == UpdatesOf(log) + (if e.Updated? then [e.update] else [])
    ensures RowsOf(log + [e]) == RowsOf(log) + (if e == Counted then 1 else 0)
  {
    Last(log, e);
  }

  lemma CountAppend(log: seq<Event>, e: Event, f: Field)
    ensures CountOf(log + [e], f) == CountOf(log, f) + (if e.Measured? && e.reading.field == f then 1 else 0)
  {
    Last(log, e);
  }

  // ---------------------------------------------------------------- totals of a dictionary

  lemma {:induction false} TotalMinus(m: map<string, int>, k: string)
    requires k in m
    ensures Total(m) == m[k] + Total(m - {k})
    decreases |m|
  {
    var c :| c in m && Total(m) == m[c] + Total(m - {c});
    if c != k {
      TotalMinus(m - {c}, k);
      TotalMinus(m - {k}, c);
      assert m - {c} - {k} == m - {k} - {c};
    }
  }

  lemma TotalPlus(m: map<string, int>, k: string, x: int)
    ensures Total(Plus(m, k, x)) == Total(m) + x
  {
    var n := Plus(m, k, x);
    TotalMinus(n, k);
    assert n - {k} == m - {k};
    if k in m {
      TotalMinus(m, k);
    } else {
      assert m - {k} == m;
    }
  }

  // ---------------------------------------------------------------- sources and instants

  lemma SourcesStep(sources: map<(Field, string), Dataset>, log: seq<Event>, r: Reading)
    requires SourcesExact(sources, log)
    requires (r.field, r.period) in sources ==> sources[(r.field, r.period)] == r.dataset
    ensures SourcesExact(sources[(r.field, r.period) := r.dataset], log + [Measured(r)])
  {
    forall f ensures PeriodsOf(log + [Measured(r)], f) == PeriodsOf(log, f) + (if r.field == f then {r.period} else {}) {
      PeriodsAppend(log, Measured(r), f);
    }
    hide PeriodsOf;
  }

  lemma InstantsStep(instants: map<(Field, string), int>, log: seq<Event>, r: Reading)
    requires InstantsExact(instants, log)
    requires r.field in POINT_IN_TIME && (r.field, r.period) in instants ==> instants[(r.field, r.period)] == r.value
    ensures InstantsExact(if r.field in POINT_IN_TIME then instants[(r.field, r.period) := r.value] else instants,
                          log + [Measured(r)])
  {
    forall f ensures PeriodsOf(log + [Measured(r)], f) == PeriodsOf(log, f) + (if r.field == f then {r.period} else {}) {
      PeriodsAppend(log, Measured(r), f);
    }
    hide PeriodsOf;
  }

  // ---------------------------------------------------------------- one more amount in a nested dictionary

  lemma PlusUnderAt<K>(m: map<K, map<string, int>>, k: K, text: string, x: int)
    ensures var n := PlusUnder(m, k, text, x);
      && (forall j, s :: At(Under(n, j), s) == At(Under(m, j), s) + if j == k && s == text then x else 0)
      && (forall j, s :: s in Under(n, j) <==> s in Under(m, j) || (j == k && s == text))
      && (NoneEmpty(m) ==> NoneEmpty(n))
      && n.Keys == m.Keys + {k}
  {
  }

  lemma PlusPointAt(m: map<Group, map<string, map<string, int>>>, k: Group, period: string, text: string, x: int)
    ensures var n := PlusPoint(m, k, period, text, x);
      && (forall j, p, s :: At(Under(Under(n, j), p), s)
            == At(Under(Under(m, j), p), s) + if j == k && p == period && s == text then x else 0)
      && (forall j, p, s :: s in Under(Under(n, j), p) <==> s in Under(Under(m, j), p) || (j == k && p == period && s == text))
      && (PointsFilled(m) ==> PointsFilled(n))
  {
    PlusUnderAt(Under(m, k), period, text, x);
    var n := PlusPoint(m, k, period, text, x);
    assert forall j :: Under(n, j) == if j == k then PlusUnder(Under(m, k), period, text, x) else Under(m, j);
    assert PlusUnder(Under(m, k), period, text, x) != map[];
    hide PlusUnder, At;
  }

  // ---------------------------------------------------------------- periods

  lemma PeriodKeysStep(byPeriod: map<Field, map<string, int>>, log: seq<Event>, r: Reading)
    requires PeriodKeys(byPeriod, log)
    ensures PeriodKeys(PlusUnder(byPeriod, r.field, r.period, r.value), log + [Measured(r)])
  {
    PlusUnderAt(byPeriod, r.field, r.period, r.value);
    hide PlusUnder, Under, PeriodsOf;
    forall f ensures PeriodsOf(log + [Measured(r)], f) == PeriodsOf(log, f) + (if r.field == f then {r.period} else {}) {
      PeriodsAppend(log, Measured(r), f);
    }
  }

  lemma PeriodSumsStep(byPeriod: map<Field, map<string, int>>, log: seq<Event>, r: Reading)
    requires PeriodSums(byPeriod, log)
    ensures PeriodSums(PlusUnder(byPeriod, r.field, r.period, r.value), log + [Measured(r)])
  {
    PlusUnderAt(byPeriod, r.field, r.period, r.value);
    hide PlusUnder, Under, At, Sum;
    forall q ensures Sum(log + [Measured(r)], q) == Sum(log, q) + Amount(Measured(r), q) {
      SumAppend(log, Measured(r), q);
    }
  }

  lemma PeriodInstantsStep(byPeriod: map<Field, map<string, int>>, log: seq<Event>, r: Reading)
    requires PeriodInstants(byPeriod, log)
    requires r.field in POINT_IN_TIME ==> r.period !in PeriodsOf(log, r.field) && r.period !in Under(byPeriod, r.field)
    ensures PeriodInstants(PlusUnder(byPeriod, r.field, r.period, r.value), log + [Measured(r)])
  {
    PlusUnderAt(byPeriod, r.field, r.period, r.value);
    assert forall e | e in log && e.Measured? :: e.reading.period in PeriodsOf(log, e.reading.field);
    assert r.period !in Under(byPeriod, r.field) ==> At(Under(byPeriod, r.field), r.period) == 0;
    hide PlusUnder, Under, At, PeriodsOf;
    Last(log, Measured(r));
  }

  lemma PeriodsStep(byPeriod: map<Field, map<string, int>>, log: seq<Event>, r: Reading)
    requires PeriodsExact(byPeriod, log)
    requires r.field in POINT_IN_TIME ==> r.period !in PeriodsOf(log, r.field)
    ensures PeriodsExact(PlusUnder(byPeriod, r.field, r.period, r.value), log + [Measured(r)])
  {
    assert Under(byPeriod, r.field).Keys == PeriodsOf(log, r.field);
    PeriodKeysStep(byPeriod, log, r);
    PeriodSumsStep(byPeriod, log, r);
    PeriodInstantsStep(byPeriod, log, r);
    PlusUnderAt(byPeriod, r.field, r.period, r.value);
    hide PeriodKeys, PeriodSums, PeriodInstants, NoneEmpty;
  }

  /** A repeated point-in-time value changes no period. */
  lemma PeriodsRepeat(byPeriod: map<Field, map<string, int>>, log: seq<Event>, r: Reading)
    requires PeriodsExact(byPeriod, log)
    requires r.field in POINT_IN_TIME && r.period in PeriodsOf(log, r.field)
    requires At(Under(byPeriod, r.field), r.period) == r.value
    ensures PeriodsExact(byPeriod, log + [Measured(r)])
  {
    forall f ensures PeriodsOf(log + [Measured(r)], f) == PeriodsOf(log, f) {
      PeriodsAppend(log, Measured(r), f);
    }
    forall q ensures Sum(log + [Measured(r)], q) == Sum(log, q) + Amount(Measured(r), q) {
      SumAppend(log, Measured(r), q);
    }
    Last(log, Measured(r));
    hide PeriodsOf, Sum, At, Under;
  }

  // ---------------------------------------------------------------- statistics

  lemma SeenLater(log: seq<Event>, e: Event, f: Field, x: int)
    ensures ValueSeen(log + [e], f, x) <==> ValueSeen(log, f, x) || (e.Measured? && e.reading.field == f && e.reading.value == x)
  {
    Last(log, e);
    if ValueSeen(log, f, x) {
      var w :| w in log && w.Measured? && w.reading.field == f && w.reading.value == x;
      assert w in log + [e];
    }
    if e.Measured? && e.reading.field == f && e.reading.value == x {
      assert e in log + [e];
    }
  }

  lemma TotalsStep(totals: map<Field, Stats>, byPeriod: map<Field, map<string, int>>, r: Reading)
    requires TotalsExact(totals, byPeriod)
    ensures TotalsExact(Observed(totals, r.field, r.value), PlusUnder(byPeriod, r.field, r.period, r.value))
  {
    TotalPlus(Under(byPeriod, r.field), r.period, r.value);
    EmptyTotal();
    hide Total, Plus;
  }

  lemma CountsStep(totals: map<Field, Stats>, log: seq<Event>, r: Reading)
    requires CountsExact(totals, log)
    requires r.field in POINT_IN_TIME ==> r.period !in PeriodsOf(log, r.field)
    requires r.field in totals <==> PeriodsOf(log, r.field) != {}
    ensures CountsExact(Observed(totals, r.field, r.value), log + [Measured(r)])
  {
    forall f ensures CountOf(log + [Measured(r)], f) == CountOf(log, f) + (if r.field == f then 1 else 0) {
      CountAppend(log, Measured(r), f);
    }
    forall f ensures PeriodsOf(log + [Measured(r)], f) == PeriodsOf(log, f) + (if r.field == f then {r.period} else {}) {
      PeriodsAppend(log, Measured(r), f);
    }
    if r.field !in totals {
      NoneCounted(log, r.field);
    }
    hide CountOf, PeriodsOf;
  }

  lemma BoundsStep(totals: map<Field, Stats>, log: seq<Event>, r: Reading)
    requires BoundsExact(totals, log)
    ensures BoundsExact(Observed(totals, r.field, r.value), log + [Measured(r)])
  {
    forall f, x ensures ValueSeen(log + [Measured(r)], f, x) <==> ValueSeen(log, f, x) || (r.field == f && r.value == x) {
      SeenLater(log, Measured(r), f, x);
    }
    hide ValueSeen;
  }

  lemma StatsStep(totals: map<Field, Stats>, byPeriod: map<Field, map<string, int>>, log: seq<Event>, r: Reading)
    requires StatsExact(totals, byPeriod, log) && NoneEmpty(byPeriod) && PeriodKeys(byPeriod, log)
    requires r.field in POINT_IN_TIME ==> r.period !in PeriodsOf(log, r.field)
    ensures StatsExact(Observed(totals, r.field, r.value), PlusUnder(byPeriod, r.field, r.period, r.value), log + [Measured(r)])
  {
    assert r.field in totals <==> PeriodsOf(log, r.field) != {} by {
      assert Under(byPeriod, r.field).Keys == PeriodsOf(log, r.field);
      assert r.field in byPeriod ==> Under(byPeriod, r.field) != map[];
    }
    hide CountsExact, BoundsExact, Observed, PlusUnder;
    TotalsStep(totals, byPeriod, r);
    CountsStep(totals, log, r);
    BoundsStep(totals, log, r);
    hide TotalsExact;
  }

  lemma EmptyTotal()
    ensures Total(map[]) == 0
  {
  }

  lemma StatsRepeat(totals: map<Field, Stats>, byPeriod: map<Field, map<string, int>>, log: seq<Event>, r: Reading)
    requires StatsExact(totals, byPeriod, log)
    requires r.field in POINT_IN_TIME && ValueSeen(log, r.field, r.value) && r.period in PeriodsOf(log, r.field)
    ensures StatsExact(totals, byPeriod, log + [Measured(r)])
  {
    forall f, x ensures ValueSeen(log + [Measured(r)], f, x) <==> ValueSeen(log, f, x) {
      SeenLater(log, Measured(r), f, x);
    }
    forall f ensures CountOf(log + [Measured(r)], f) == CountOf(log, f) + (if r.field == f then 1 else 0) {
      CountAppend(log, Measured(r), f);
    }
    forall f ensures PeriodsOf(log + [Measured(r)], f) == PeriodsOf(log, f) {
      PeriodsAppend(log, Measured(r), f);
    }
    hide ValueSeen, CountOf, TotalsExact, PeriodsOf;
  }

  lemma {:induction false} NoneCounted(log: seq<Event>, f: Field)
    requires PeriodsOf(log, f) == {}
    ensures CountOf(log, f) == 0
  {
    if log != [] {
      var before := log[..|log| - 1];
      assert log == before + [log[|log| - 1]];
      PeriodsAppend(before, log[|log| - 1], f);
      NoneCounted(before, f);
    }
  }

  // ---------------------------------------------------------------- labels and points

  /** The event for a reading without its labels. */
  function Bare(r: Reading): Reading { r.(places := map[]) }

  /** A reading with the labels of the first n dimensions. */
  function Cut(r: Reading, n: nat): Reading
    requires n <= |DIMENSIONS|
  {
    r.(places := map d | d in r.places && d in DIMENSIONS[..n] :: r.places[d])
  }

  lemma CutNext(r: Reading, n: nat)
    requires 0 < n <= |DIMENSIONS|
    ensures var d, cut := DIMENSIONS[n - 1], Cut(r, n - 1);
      && d !in cut.places && cut == r.(places := cut.places)
      && Cut(r, n) == if d in r.places then cut.(places := cut.places[d := r.places[d]]) else cut
  {
    var d := DIMENSIONS[n - 1];
    assert DIMENSIONS[..n] == DIMENSIONS[..n - 1] + [d];
    assert Cut(r, n).places == if d in r.places then Cut(r, n - 1).places[d := r.places[d]] else Cut(r, n - 1).places;
  }

  lemma CutAll(r: Reading)
    requires forall d | d in r.places :: d in DIMENSIONS
    ensures Cut(r, |DIMENSIONS|) == r && Cut(r, 0) == Bare(r)
  {
    assert DIMENSIONS[..|DIMENSIONS|] == DIMENSIONS;
    assert Cut(r, |DIMENSIONS|).places == r.places;
    assert Cut(r, 0).places == map[];
  }

  /** Where the sums of a log with one more label differ. */
  lemma LabelAdds(log: seq<Event>, r: Reading, d: Field, v: string, q: Query)
    requires d !in r.places && !q.OfPeriod?
    ensures Sum(log + [Measured(r.(places := r.places[d := v]))], q)
         == Sum(log + [Measured(r)], q) + if Matches(r.(places := map[d := v]), q) then r.value else 0
  {
    SumAppend(log, Measured(r), q);
    SumAppend(log, Measured(r.(places := r.places[d := v])), q);
  }

  lemma PointAdds(log: seq<Event>, r: Reading, d: Field, v: string)
    requires d !in r.places
    ensures PointsOf(log + [Measured(r.(places := r.places[d := v]))]) == PointsOf(log + [Measured(r)]) + {((r.field, d), r.period, v)}
  {
    PointsAppend(log, Measured(r));
    PointsAppend(log, Measured(r.(places := r.places[d := v])));
    var more := r.(places := r.places[d := v]);
    var point := ((r.field, d), r.period, v);
    assert PointsAdded(Measured(more)) == PointsAdded(Measured(r)) + {point} by {
      forall x | x in PointsAdded(Measured(r)) ensures x in PointsAdded(Measured(more)) {
        var c :| c in r.places && x == ((r.field, c), r.period, r.places[c]);
        assert c in more.places && more.places[c] == r.places[c];
      }
      assert d in more.places;
    }
  }

  lemma HasLabelGains(log: seq<Event>, r: Reading, d: Field, v: string, g: Group, w: string)
    requires d !in r.places
    ensures HasLabel(log + [Measured(r.(places := r.places[d := v]))], g, w)
       <==> HasLabel(log + [Measured(r)], g, w) || (g == (r.field, d) && w == v)
  {
    PointAdds(log, r, d, v);
    var a, b := PointsOf(log + [Measured(r)]), PointsOf(log + [Measured(r.(places := r.places[d := v]))]);
    hide PointsOf;
    assert forall p :: (g, p, w) in b <==> (g, p, w) in a || (g, p, w) == ((r.field, d), r.period, v);
    if g == (r.field, d) && w == v {
      assert (g, r.period, w) in b;
    }
    if HasLabel(log + [Measured(r)], g, w) {
      var p :| (g, p, w) in a;
      assert (g, p, w) in b;
    }
  }

  lemma SumGains(log: seq<Event>, r: Reading, d: Field, v: string, g: Group, p: string, w: string)
    requires d !in r.places
    ensures var b, a := log + [Measured(r.(places := r.places[d := v]))], log + [Measured(r)];
      && Sum(b, OfLabel(g, w)) == Sum(a, OfLabel(g, w)) + (if g == (r.field, d) && w == v then r.value else 0)
      && Sum(b, OfPoint(g, p, w)) == Sum(a, OfPoint(g, p, w)) + (if g == (r.field, d) && p == r.period && w == v then r.value else 0)
  {
    LabelAdds(log, r, d, v, OfLabel(g, w));
    LabelAdds(log, r, d, v, OfPoint(g, p, w));
    hide Sum;
  }

  lemma LabelsGain(m: map<Group, map<string, int>>, log: seq<Event>, r: Reading, d: Field, v: string)
    requires d !in r.places && LabelsExact(m, log + [Measured(r)])
    ensures LabelsExact(PlusUnder(m, (r.field, d), v, r.value), log + [Measured(r.(places := r.places[d := v]))])
  {
    hide HasLabel, Sum, PlusUnder, At, Under, NoneEmpty;
    PlusUnderAt(m, (r.field, d), v, r.value);
    var b, a := log + [Measured(r.(places := r.places[d := v]))], log + [Measured(r)];
    forall g, w
      ensures Sum(b, OfLabel(g, w)) == Sum(a, OfLabel(g, w)) + if g == (r.field, d) && w == v then r.value else 0
      ensures HasLabel(b, g, w) <==> HasLabel(a, g, w) || (g == (r.field, d) && w == v)
    {
      SumGains(log, r, d, v, g, "", w);
      HasLabelGains(log, r, d, v, g, w);
    }
  }

  lemma PointsGain(m: map<Group, map<string, map<string, int>>>, log: seq<Event>, r: Reading, d: Field, v: string)
    requires d !in r.places && PointsExact(m, log + [Measured(r)])
    ensures PointsExact(PlusPoint(m, (r.field, d), r.period, v, r.value), log + [Measured(r.(places := r.places[d := v]))])
  {
    hide PointsOf, Sum, PlusPoint, At, Under, PointsFilled;
    PointAdds(log, r, d, v);
    PlusPointAt(m, (r.field, d), r.period, v, r.value);
    var b, a := log + [Measured(r.(places := r.places[d := v]))], log + [Measured(r)];
    forall g, p, w ensures Sum(b, OfPoint(g, p, w))
        == Sum(a, OfPoint(g, p, w)) + if g == (r.field, d) && p == r.period && w == v then r.value else 0 {
      SumGains(log, r, d, v, g, p, w);
    }
  }

  lemma BareKeeps(t: Tables, log: seq<Event>, r: Reading)
    requires LabelsExact(t.byDimension, log) && PointsExact(t.byPoint, log)
    ensures LabelsExact(t.byDimension, log + [Measured(Bare(r))]) && PointsExact(t.byPoint, log + [Measured(Bare(r))])
    ensures PointsOf(log + [Measured(Bare(r))]) == PointsOf(log)
  {
    PointsAppend(log, Measured(Bare(r)));
    assert PointsAdded(Measured(Bare(r))) == {};
    forall q: Query | !q.OfPeriod? ensures Sum(log + [Measured(Bare(r))], q) == Sum(log, q) {
      SumAppend(log, Measured(Bare(r)), q);
    }
    hide PointsOf, Sum, Under, At;
  }

  /** The dimension tables and the point counter after the first n dimensions of a reading. */
  ghost predicate PlacedSoFar(u: Tables, t: Tables, log: seq<Event>, r: Reading, n: nat)
    requires n <= |DIMENSIONS|
  {
    && u == t.(byDimension := u.byDimension, byPoint := u.byPoint, points := u.points)
    && LabelsExact(u.byDimension, log + [Measured(Cut(r, n))])
    && PointsExact(u.byPoint, log + [Measured(Cut(r, n))])
    && u.points == |PointsOf(log + [Measured(Cut(r, n))])| <= MAX_POINTS
  }

  lemma {:induction false} PlacesStep(t: Tables, log: seq<Event>, r: Reading, n: nat)
    requires n <= |DIMENSIONS|
    requires LabelsExact(t.byDimension, log) && PointsExact(t.byPoint, log) && t.points == |PointsOf(log)| <= MAX_POINTS
    ensures match AddPlaces(t, r, n)
      case Some(u) => PlacedSoFar(u, t, log, r, n)
      case None => |PointsOf(log + [Measured(Cut(r, n))])| > MAX_POINTS
  {
    if n == 0 {
      BareKeeps(t, log, r);
      assert Cut(r, 0).places == map[];
    } else {
      PlacesStep(t, log, r, n - 1);
      CutNext(r, n);
      var cut, d := Cut(r, n - 1), DIMENSIONS[n - 1];
      if d in r.places {
        PointAdds(log, cut, d, r.places[d]);
        Grows(PointsOf(log + [Measured(cut)]), PointsOf(log + [Measured(Cut(r, n))]));
        if AddPlaces(t, r, n - 1).Some? {
          PlaceStep(AddPlaces(t, r, n - 1).value, t, log, r, n);
        }
      }
    }
  }

  lemma PlaceStep(u: Tables, t: Tables, log: seq<Event>, r: Reading, n: nat)
    requires 0 < n <= |DIMENSIONS| && DIMENSIONS[n - 1] in r.places && PlacedSoFar(u, t, log, r, n - 1)
    ensures var d := DIMENSIONS[n - 1];
      match AddPlace(u, (r.field, d), r.period, r.places[d], r.value)
      case Some(w) => PlacedSoFar(w, t, log, r, n)
      case None => |PointsOf(log + [Measured(Cut(r, n))])| > MAX_POINTS
  {
    hide LabelsExact, PointsExact, PointsOf, Cut, PlusUnder, PlusPoint, Under;
    CutNext(r, n);
    var cut, d := Cut(r, n - 1), DIMENSIONS[n - 1];
    var v := r.places[d];
    PointAdds(log, cut, d, v);
    LabelsGain(u.byDimension, log, cut, d, v);
    PointsGain(u.byPoint, log, cut, d, v);
    PointFiled(u.byPoint, log + [Measured(cut)], (r.field, d), r.period, v);
  }

  lemma PointFiled(m: map<Group, map<string, map<string, int>>>, log: seq<Event>, g: Group, p: string, v: string)
    requires PointsExact(m, log)
    ensures v in Under(Under(m, g), p) <==> (g, p, v) in PointsOf(log)
  {
  }
}
