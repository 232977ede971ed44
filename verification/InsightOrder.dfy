/** Neither the order of the rows nor the iteration order of the numeric fields matters. */
module InsightOrder {
  import opened InsightModel
  import opened InsightSpec
  import opened Permutations

  // ---------------------------------------------------------------- the declarative reading ignores order

  lemma {:induction false} SumIsBy(log: seq<Event>, q: Query)
    ensures Sum(log, q) == SumBy((e: Event) => Amount(e, q), log)
  {
    if log != [] {
      SumIsBy(log[..|log| - 1], q);
    }
  }

  lemma {:induction false} CountIsBy(log: seq<Event>, f: Field)
    ensures CountOf(log, f) == SumBy((e: Event) => if e.Measured? && e.reading.field == f then 1 else 0, log)
  {
    if log != [] {
      CountIsBy(log[..|log| - 1], f);
    }
  }

  lemma {:induction false} RowsIsBy(log: seq<Event>)
    ensures RowsOf(log) == SumBy((e: Event) => if e == Counted then 1 else 0, log)
  {
    if log != [] {
      RowsIsBy(log[..|log| - 1]);
    }
  }

  lemma {:induction false} UpdatesIsBy(log: seq<Event>, u: Update)
    ensures multiset(UpdatesOf(log))[u] == SumBy((e: Event) => if e == Updated(u) then 1 else 0, log)
  {
    if log != [] {
      UpdatesIsBy(log[..|log| - 1], u);
    }
  }

  lemma SumPermutes(a: seq<Event>, b: seq<Event>, q: Query)
    requires multiset(a) == multiset(b)
    ensures Sum(a, q) == Sum(b, q)
  {
    SumIsBy(a, q);
    SumIsBy(b, q);
    SumByPermutes((e: Event) => Amount(e, q), a, b);
  }

  lemma CountsPermute(a: seq<Event>, b: seq<Event>, f: Field)
    requires multiset(a) == multiset(b)
    ensures CountOf(a, f) == CountOf(b, f) && RowsOf(a) == RowsOf(b)
  {
    CountIsBy(a, f);
    CountIsBy(b, f);
    SumByPermutes((e: Event) => if e.Measured? && e.reading.field == f then 1 else 0, a, b);
    RowsIsBy(a);
    RowsIsBy(b);
    SumByPermutes((e: Event) => if e == Counted then 1 else 0, a, b);
  }

  lemma UpdatesPermute(a: seq<Event>, b: seq<Event>)
    requires multiset(a) == multiset(b)
    ensures multiset(UpdatesOf(a)) == multiset(UpdatesOf(b)) && |UpdatesOf(a)| == |UpdatesOf(b)|
  {
    var m, n := multiset(UpdatesOf(a)), multiset(UpdatesOf(b));
    forall u ensures m[u] == n[u] {
      UpdatesIsBy(a, u);
      UpdatesIsBy(b, u);
      SumByPermutes((e: Event) => if e == Updated(u) then 1 else 0, a, b);
    }
    assert m == n;
    assert |m| == |UpdatesOf(a)| && |n| == |UpdatesOf(b)|;
  }

  lemma SumsPermute(a: seq<Event>, b: seq<Event>)
    requires multiset(a) == multiset(b)
    ensures forall q :: Sum(a, q) == Sum(b, q)
    ensures forall f :: CountOf(a, f) == CountOf(b, f)
    ensures RowsOf(a) == RowsOf(b)
    ensures multiset(UpdatesOf(a)) == multiset(UpdatesOf(b)) && |UpdatesOf(a)| == |UpdatesOf(b)|
  {
    hide Sum, CountOf, UpdatesOf, RowsOf;
    forall q ensures Sum(a, q) == Sum(b, q) {
      SumPermutes(a, b, q);
    }
    forall f ensures CountOf(a, f) == CountOf(b, f) {
      CountsPermute(a, b, f);
    }
    CountsPermute(a, b, Expenses);
    UpdatesPermute(a, b);
  }

  lemma SetsPermute(a: seq<Event>, b: seq<Event>)
    requires multiset(a) == multiset(b)
    ensures PointsOf(a) == PointsOf(b)
    ensures forall f :: PeriodsOf(a, f) == PeriodsOf(b, f)
    ensures forall d :: LabelsOf(a, d) == LabelsOf(b, d)
    ensures forall f, x :: ValueSeen(a, f, x) <==> ValueSeen(b, f, x)
  {
    MembersPermute(a, b);
  }

  lemma AdmissiblePermutes(a: seq<Event>, b: seq<Event>)
    requires multiset(a) == multiset(b)
    ensures Admissible(a) <==> Admissible(b)
  {
    SetsPermute(a, b);
    SumsPermute(a, b);
    MembersPermute(a, b);
    hide PointsOf, PeriodsOf, LabelsOf, Agree, Sum;
  }

  // ---------------------------------------------------------------- one log has one set of tables

  lemma NestedEqual<K>(m: map<K, map<string, int>>, n: map<K, map<string, int>>)
    requires NoneEmpty(m) && NoneEmpty(n)
    requires forall k :: Under(m, k).Keys == Under(n, k).Keys
    requires forall k, s :: At(Under(m, k), s) == At(Under(n, k), s)
    ensures m == n
  {
    forall k ensures k in m <==> k in n {
      assert Under(m, k).Keys == Under(n, k).Keys;
    }
    forall k | k in m ensures m[k] == n[k] {
      assert m[k].Keys == Under(m, k).Keys == Under(n, k).Keys == n[k].Keys;
      forall s | s in m[k] ensures m[k][s] == n[k][s] {
        assert At(Under(m, k), s) == At(Under(n, k), s);
      }
    }
  }

  lemma PeriodsUnique(m: map<Field, map<string, int>>, n: map<Field, map<string, int>>, a: seq<Event>, b: seq<Event>)
    requires multiset(a) == multiset(b) && PeriodsExact(m, a) && PeriodsExact(n, b)
    ensures m == n
  {
    SetsPermute(a, b);
    SumsPermute(a, b);
    MembersPermute(a, b);
    assert forall k :: Under(m, k).Keys == Under(n, k).Keys;
    forall k, s ensures At(Under(m, k), s) == At(Under(n, k), s) {
      PeriodUnique(m, n, a, b, k, s);
    }
    NestedEqual(m, n);
  }

  lemma PeriodUnique(m: map<Field, map<string, int>>, n: map<Field, map<string, int>>, a: seq<Event>, b: seq<Event>,
                     k: Field, s: string)
    requires PeriodsExact(m, a) && PeriodsExact(n, b)
    requires forall e :: e in a <==> e in b
    requires forall q :: Sum(a, q) == Sum(b, q)
    requires PeriodsOf(a, k) == PeriodsOf(b, k)
    ensures At(Under(m, k), s) == At(Under(n, k), s)
  {
    assert Under(m, k).Keys == PeriodsOf(a, k) && Under(n, k).Keys == PeriodsOf(b, k);
    if k in POINT_IN_TIME && s in PeriodsOf(a, k) {
      var e :| e in a && e.Measured? && e.reading.field == k && e.reading.period == s;
      hide Sum, PeriodsOf, At, Under;
      assert e in b;
    }
  }

  lemma LabelsUnique(m: map<Group, map<string, int>>, n: map<Group, map<string, int>>, a: seq<Event>, b: seq<Event>)
    requires multiset(a) == multiset(b) && LabelsExact(m, a) && LabelsExact(n, b)
    ensures m == n
  {
    SetsPermute(a, b);
    SumsPermute(a, b);
    hide PointsOf, Sum, Under, At, NoneEmpty;
    forall g ensures Under(m, g).Keys == Under(n, g).Keys {
      assert forall v :: v in Under(m, g) <==> v in Under(n, g) by {
        assert forall v :: HasLabel(a, g, v) <==> HasLabel(b, g, v);
      }
    }
    NestedEqual(m, n);
  }

  lemma PointsUnique(m: map<Group, map<string, map<string, int>>>, n: map<Group, map<string, map<string, int>>>,
                     a: seq<Event>, b: seq<Event>)
    requires multiset(a) == multiset(b) && PointsExact(m, a) && PointsExact(n, b)
    ensures m == n
  {
    SetsPermute(a, b);
    SumsPermute(a, b);
    hide PointsOf, Sum, At;
    forall g ensures Under(m, g) == Under(n, g) {
      forall p ensures Under(Under(m, g), p).Keys == Under(Under(n, g), p).Keys {
        assert forall v :: v in Under(Under(m, g), p) <==> v in Under(Under(n, g), p);
      }
      NestedEqual(Under(m, g), Under(n, g));
    }
    forall g ensures g in m <==> g in n {
      assert Under(m, g) == Under(n, g);
    }
    forall g | g in m ensures m[g] == n[g] {
      assert Under(m, g) == Under(n, g);
    }
  }

  lemma StatsUnique(s: map<Field, Stats>, t: map<Field, Stats>, byPeriod: map<Field, map<string, int>>,
                    a: seq<Event>, b: seq<Event>)
    requires multiset(a) == multiset(b) && StatsExact(s, byPeriod, a) && StatsExact(t, byPeriod, b)
    ensures s == t
  {
    SetsPermute(a, b);
    SumsPermute(a, b);
    hide PeriodsOf, CountOf, Total, ValueSeen, Sum;
    forall f | f in s ensures s[f] == t[f] {
      assert ValueSeen(b, f, s[f].minimum) && ValueSeen(b, f, s[f].maximum);
      assert ValueSeen(a, f, t[f].minimum) && ValueSeen(a, f, t[f].maximum);
    }
  }

  lemma SourcesUnique(t: Tables, u: Tables, a: seq<Event>, b: seq<Event>)
    requires multiset(a) == multiset(b)
    requires SourcesExact(t.sources, a) && SourcesExact(u.sources, b)
    requires InstantsExact(t.pointInTime, a) && InstantsExact(u.pointInTime, b)
    ensures t.sources == u.sources && t.pointInTime == u.pointInTime
  {
    SetsPermute(a, b);
    MembersPermute(a, b);
    forall f, p | p in PeriodsOf(a, f)
      ensures t.sources[(f, p)] == u.sources[(f, p)]
      ensures f in POINT_IN_TIME ==> t.pointInTime[(f, p)] == u.pointInTime[(f, p)]
    {
      var e :| e in a && e.Measured? && e.reading.field == f && e.reading.period == p;
      hide PeriodsOf;
      assert e in b;
    }
    hide PeriodsOf;
    forall k ensures (k in t.sources <==> k in u.sources) && (k in t.sources ==> t.sources[k] == u.sources[k]) {
      assert k == (k.0, k.1);
    }
    forall k ensures (k in t.pointInTime <==> k in u.pointInTime) && (k in t.pointInTime ==> t.pointInTime[k] == u.pointInTime[k]) {
      assert k == (k.0, k.1);
    }
    assert t.sources.Keys == u.sources.Keys && t.pointInTime.Keys == u.pointInTime.Keys;
  }

  lemma UniqueUnique(m: map<Field, set<string>>, n: map<Field, set<string>>, a: seq<Event>, b: seq<Event>)
    requires multiset(a) == multiset(b) && UniqueExact(m, a) && UniqueExact(n, b)
    ensures m == n
  {
    hide LabelsOf;
    SetsPermute(a, b);
    forall d ensures (d in m <==> d in n) && (d in m ==> m[d] == n[d]) {
      assert LabelsOf(a, d) == LabelsOf(b, d);
      assert Labels(m, d) == Labels(n, d);
    }
  }

  /** The same tables, up to the order of the status updates. */
  ghost predicate SameTables(t: Tables, u: Tables) {
    && t.(updates := []) == u.(updates := [])
    && multiset(t.updates) == multiset(u.updates)
  }

  lemma RepresentationUnique(t: Tables, u: Tables, a: seq<Event>, b: seq<Event>)
    requires Represents(t, a) && Represents(u, b) && multiset(a) == multiset(b)
    ensures SameTables(t, u)
  {
    hide PeriodsExact, LabelsExact, PointsExact, StatsExact, SourcesExact, InstantsExact, UniqueExact, PointsOf;
    SourcesUnique(t, u, a, b);
    PeriodsUnique(t.byPeriod, u.byPeriod, a, b);
    LabelsUnique(t.byDimension, u.byDimension, a, b);
    PointsUnique(t.byPoint, u.byPoint, a, b);
    StatsUnique(t.totals, u.totals, t.byPeriod, a, b);
    UniqueUnique(t.unique, u.unique, a, b);
    SetsPermute(a, b);
    SumsPermute(a, b);
  }
}
