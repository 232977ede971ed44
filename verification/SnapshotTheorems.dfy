/** Materialization is linearizable, its versions are gapless, and the order of the sources is irrelevant. */
module SnapshotTheorems {
  import opened CreditModel
  import opened Permutations
  import opened SnapshotContents
  import opened Snapshots

  // ---------------------------------------------------------------- the order of the sources

  predicate Ascending(s: seq<Id>) { forall i, j | 0 <= i < j < |s| :: s[i] <= s[j] }

  lemma {:induction false} InsertMembers(x: Id, s: seq<Id>)
    ensures multiset(Insert(x, s)) == multiset(s) + multiset{x}
    ensures forall y :: y in Insert(x, s) <==> y == x || y in s
  {
    if s != [] {
      assert s == [s[0]] + s[1..];
      if x > s[0] {
        InsertMembers(x, s[1..]);
      }
    }
  }

  lemma {:induction false} InsertSorts(x: Id, s: seq<Id>)
    requires Ascending(s)
    ensures Ascending(Insert(x, s))
  {
    if s != [] && x > s[0] {
      var rest := Insert(x, s[1..]);
      InsertSorts(x, s[1..]);
      InsertMembers(x, s[1..]);
      hide Insert;
      forall j | 0 <= j < |rest| ensures s[0] <= rest[j] {
        assert rest[j] in rest;
      }
    }
  }

  lemma {:induction false} SortedSorts(s: seq<Id>)
    ensures Ascending(Sorted(s)) && multiset(Sorted(s)) == multiset(s)
  {
    if s != [] {
      SortedSorts(s[1..]);
      InsertSorts(s[0], Sorted(s[1..]));
      InsertMembers(s[0], Sorted(s[1..]));
      assert s == [s[0]] + s[1..];
    }
  }

  lemma WithoutHead(a: seq<Id>)
    requires a != []
    ensures multiset(a[1..]) == multiset(a) - multiset{a[0]}
    ensures Ascending(a) ==> Ascending(a[1..]) && forall x | x in a :: a[0] <= x
  {
    assert a == [a[0]] + a[1..];
  }

  lemma SameHead(a: seq<Id>, b: seq<Id>)
    requires a != [] && b != [] && multiset(a) == multiset(b)
    requires (forall x | x in a :: a[0] <= x) && (forall x | x in b :: b[0] <= x)
    ensures a[0] == b[0]
  {
    MembersPermute(a, b);
    assert a[0] in a && b[0] in b;
  }

  lemma {:induction false} AscendingUnique(a: seq<Id>, b: seq<Id>)
    requires Ascending(a) && Ascending(b) && multiset(a) == multiset(b)
    ensures a == b
  {
    hide Ascending;
    MembersPermute(a, b);
    if a != [] {
      WithoutHead(a);
      WithoutHead(b);
      SameHead(a, b);
      AscendingUnique(a[1..], b[1..]);
      SplitHead(a);
      SplitHead(b);
    }
  }

  lemma SplitHead(a: seq<Id>)
    requires a != []
    ensures a == [a[0]] + a[1..]
  {
  }

  lemma {:induction false} NoRepeatsCounts(s: seq<Id>)
    ensures NoRepeats(s) <==> forall x :: multiset(s)[x] <= 1
  {
    if s != [] {
      var rest := s[1..];
      NoRepeatsCounts(rest);
      assert s == [s[0]] + rest;
      if NoRepeats(s) {
        assert NoRepeats(rest);
        assert s[0] !in rest;
      }
      if forall x :: multiset(s)[x] <= 1 {
        forall x ensures multiset(rest)[x] <= 1 {
          assert multiset(rest)[x] <= multiset(s)[x];
        }
        assert multiset(s)[s[0]] == multiset(rest)[s[0]] + 1;
        forall i, j | 0 <= i < j < |s| ensures s[i] != s[j] {
          assert s[j] == rest[j - 1] && rest[j - 1] in multiset(rest);
          assert i > 0 ==> s[i] == rest[i - 1];
        }
      }
    }
  }

  /** The same sources in any order are the same request, whatever its outcome. */
  lemma {:induction false} SourceOrderIrrelevant(tools: Tools, s: Store, dashboard: Id, a: seq<Id>, b: seq<Id>)
    requires multiset(a) == multiset(b)
    ensures Begin(s, dashboard, a) == Begin(s, dashboard, b)
    ensures MaterializeAtomically(tools, s, dashboard, a) == MaterializeAtomically(tools, s, dashboard, b)
  {
    SortedSorts(a);
    SortedSorts(b);
    AscendingUnique(Sorted(a), Sorted(b));
    MembersPermute(a, b);
    NoRepeatsCounts(a);
    NoRepeatsCounts(b);
    hide NoRepeats, Sorted, SourceError, Finish;
  }

  // ---------------------------------------------------------------- linearizability

  /** A capture that some request made, from a state that may since have changed. */
  ghost predicate CapturedFor(c: Capture, request: seq<Id>) {
    && ValidRequest(request) && c.ids == Sorted(request)
    && (forall i | 0 <= i < |c.ids| :: c.ids[i] in c.signatures)
    && c.signatures.Keys == Ids(c.ids)
    && (c.definition.insight.Some? ==> c.definition.insight.value.mapped == Some(Ids(c.ids)))
  }

  lemma BeginCaptures(s: Store, dashboard: Id, request: seq<Id>)
    requires Begin(s, dashboard, request).Captured?
    ensures CapturedFor(Begin(s, dashboard, request).capture, request)
  {
    hide Ready, Sorted, ValidRequest;
  }

  /**
    A request that commits behaves as if all of it, the capture included, had run at its commit: it would capture the
    same there, so what it stores is built from the definition and the job signatures in force when stored.
    */
  lemma CommitIsAtomic(tools: Tools, s: Store, c: Capture, request: seq<Id>)
    requires CapturedFor(c, request)
    requires !Finish(tools, s, c).1.Failure?
    ensures Begin(s, c.dashboard, request) == Captured(c)
    ensures Finish(tools, s, c) == MaterializeAtomically(tools, s, c.dashboard, request)
  {
    hide Ready, Sorted, ValidRequest, Build, Latest;
    assert SourceError(s.jobs, c.ids) == None;
    SameSignatures(s.jobs, c);
  }

  lemma SameSignatures(jobs: map<Id, Signature>, c: Capture)
    requires c.signatures.Keys == Ids(c.ids)
    requires forall i | 0 <= i < |c.ids| :: c.ids[i] in c.signatures && c.ids[i] in jobs && c.signatures[c.ids[i]] == jobs[c.ids[i]]
    ensures SignaturesOf(jobs, c.ids) == c.signatures
  {
    forall id | id in c.ids ensures id in jobs && id in c.signatures && jobs[id] == c.signatures[id] {
      var i :| 0 <= i < |c.ids| && c.ids[i] == id;
    }
  }

  lemma FailureChangesNothing(tools: Tools, s: Store, c: Capture)
    ensures Finish(tools, s, c).1.Failure? || Finish(tools, s, c).1.Replayed? ==> Finish(tools, s, c).0 == s
    ensures Finish(tools, s, c).0 == s.(snapshots := Finish(tools, s, c).0.snapshots)
  {
  }

  // ---------------------------------------------------------------- the snapshot history

  ghost predicate Gapless(rows: seq<Snapshot>) { forall i | 0 <= i < |rows| :: rows[i].version == i + 1 }

  ghost predicate HashesHold(tools: Tools, rows: seq<Snapshot>) {
    && (forall i | 0 <= i < |rows| :: rows[i].hash == tools.hash(rows[i].payload))
    && (forall i | 0 < i < |rows| :: rows[i].hash != rows[i - 1].hash)
  }

  ghost predicate SourcesMatch(rows: seq<Snapshot>) {
    forall i | 0 <= i < |rows| :: SameSources(rows[i].sources, rows[i].payload.sources)
  }

  /** The source rows name the payload's sources, by position, with the same artifact versions. */
  ghost predicate SameSources(rows: seq<SourceRow>, sources: seq<Source>) {
    && |rows| == |sources|
    && forall i | 0 <= i < |rows| :: rows[i] == SourceRow(sources[i].job, i, sources[i].signature)
  }

  ghost predicate HistoryInv(tools: Tools, rows: seq<Snapshot>) {
    Gapless(rows) && HashesHold(tools, rows) && SourcesMatch(rows)
  }

  ghost predicate WorldInv(tools: Tools, w: World) {
    && (forall d | d in w.store.snapshots :: HistoryInv(tools, w.store.snapshots[d]))
    && (forall f | f in w.flights :: exists request :: CapturedFor(w.flights[f], request))
  }

  lemma {:induction false} LatestIsLast(rows: seq<Snapshot>)
    requires Gapless(rows)
    ensures Latest(rows) == if rows == [] then None else Some(rows[|rows| - 1])
  {
    if rows != [] {
      LatestIsLast(rows[..|rows| - 1]);
    }
  }

  lemma {:induction false} ReadSources(tools: Tools, c: Capture, n: nat)
    requires n <= |c.ids| && Read(tools, c, n).Some?
    ensures var sources := Read(tools, c, n).value;
      && |sources| == n
      && forall i | 0 <= i < n :: c.ids[i] in c.signatures && sources[i].job == c.ids[i] && sources[i].signature == c.signatures[c.ids[i]]
  {
    if n > 0 {
      ReadSources(tools, c, n - 1);
    }
  }

  lemma BuildSources(tools: Tools, c: Capture)
    requires Build(tools, c).Some?
    ensures var payload := Build(tools, c).value;
      && payload.dashboard == c.dashboard && payload.kind == c.definition.kind && payload.title == c.definition.title
      && payload.configuration == c.definition.configuration && payload.insightConfiguration == c.definition.insight
      && |payload.sources| == |c.ids|
      && forall i | 0 <= i < |c.ids| :: c.ids[i] in c.signatures && payload.sources[i].job == c.ids[i]
           && payload.sources[i].signature == c.signatures[c.ids[i]]
  {
    ReadSources(tools, c, |c.ids|);
    hide Read;
  }

  /** What a request that stores has appended. */
  lemma StoredShape(tools: Tools, s: Store, c: Capture)
    requires Gapless(Rows(s, c.dashboard)) && Finish(tools, s, c).1.Stored?
    ensures Build(tools, c).Some?
    ensures var rows, payload := Rows(s, c.dashboard), Build(tools, c).value;
      var row := Snapshot(|rows| + 1, payload, tools.hash(payload), SourceRows(s.jobs, c.ids));
      && Finish(tools, s, c) == (s.(snapshots := s.snapshots[c.dashboard := rows + [row]]), Stored(|rows| + 1))
      && (rows != [] ==> row.hash != rows[|rows| - 1].hash)
    ensures forall i | 0 <= i < |c.ids| :: c.ids[i] in c.signatures && c.ids[i] in s.jobs && c.signatures[c.ids[i]] == s.jobs[c.ids[i]]
  {
    LatestIsLast(Rows(s, c.dashboard));
    hide Latest, SourceError, Build, SourceRows, Gapless;
  }

  lemma SameSourceRows(jobs: map<Id, Signature>, c: Capture, sources: seq<Source>)
    requires |sources| == |c.ids|
    requires forall i | 0 <= i < |c.ids| :: c.ids[i] in c.signatures && c.ids[i] in jobs && c.signatures[c.ids[i]] == jobs[c.ids[i]]
    requires forall i | 0 <= i < |c.ids| :: sources[i].job == c.ids[i] && sources[i].signature == c.signatures[c.ids[i]]
    ensures SameSources(SourceRows(jobs, c.ids), sources)
  {
  }

  /** The commit appends one row of the next version, and the uniqueness constraint on versions never fires. */
  lemma CommitKeeps(tools: Tools, s: Store, c: Capture)
    requires HistoryInv(tools, Rows(s, c.dashboard))
    ensures var (t, outcome) := Finish(tools, s, c);
      && HistoryInv(tools, Rows(t, c.dashboard))
      && t == s.(snapshots := t.snapshots)
      && (forall d | d != c.dashboard :: (d in t.snapshots <==> d in s.snapshots) && Rows(t, d) == Rows(s, d))
      && (outcome.Stored? <==> Rows(t, c.dashboard) != Rows(s, c.dashboard))
      && (outcome.Stored? ==> outcome.version == |Rows(t, c.dashboard)| == |Rows(s, c.dashboard)| + 1)
      && (outcome.Stored? ==> Rows(t, c.dashboard)[..|Rows(s, c.dashboard)|] == Rows(s, c.dashboard))
      && (!outcome.Stored? ==> t == s)
  {
    FailureChangesNothing(tools, s, c);
    if Finish(tools, s, c).1.Stored? {
      StoredShape(tools, s, c);
      BuildSources(tools, c);
      var rows, payload := Rows(s, c.dashboard), Build(tools, c).value;
      SameSourceRows(s.jobs, c, payload.sources);
      var row := Snapshot(|rows| + 1, payload, tools.hash(payload), SourceRows(s.jobs, c.ids));
      AppendKeeps(tools, rows, row);
      hide Finish, Build, SourceRows, HistoryInv;
    }
    hide Finish, HistoryInv;
  }

  lemma AppendKeeps(tools: Tools, rows: seq<Snapshot>, row: Snapshot)
    requires HistoryInv(tools, rows)
    requires row.version == |rows| + 1 && row.hash == tools.hash(row.payload) && SameSources(row.sources, row.payload.sources)
    requires rows != [] ==> row.hash != rows[|rows| - 1].hash
    ensures HistoryInv(tools, rows + [row])
  {
    hide SameSources;
  }

  /** The reason why a commit refuses what was built from a capture, if it does; the snapshot table is never one. */
  function Obstacle(s: Store, c: Capture): Option<Error> {
    if c.dashboard !in s.dashboards then Some(NotFound)
    else if s.dashboards[c.dashboard] != c.definition then Some(ConflictError)
    else if exists i | 0 <= i < |c.ids| :: c.ids[i] !in s.jobs then Some(SourceNotFound)
    else if exists i | 0 <= i < |c.ids| :: !Usable(s.jobs[c.ids[i]]) then Some(SourceNotReady)
    else if exists i | 0 <= i < |c.ids| :: c.ids[i] !in c.signatures || c.signatures[c.ids[i]] != s.jobs[c.ids[i]] then Some(ConflictError)
    else None
  }

  /** With the version constraint intact, a request fails only for a reason outside the snapshot table. */
  lemma VersionsNeverCollide(tools: Tools, s: Store, c: Capture)
    requires HistoryInv(tools, Rows(s, c.dashboard)) && Build(tools, c).Some?
    ensures if Obstacle(s, c).Some? then Finish(tools, s, c) == (s, Failure(Obstacle(s, c).value))
            else !Finish(tools, s, c).1.Failure?
  {
    LatestIsLast(Rows(s, c.dashboard));
    SourcesFit(s.jobs, c.ids);
    hide Latest, SourceError, Build, Usable;
  }

  lemma StepKeeps(tools: Tools, w: World, a: Action)
    requires WorldInv(tools, w)
    ensures WorldInv(tools, Step(tools, w, a))
  {
    hide HistoryInv, CapturedFor, Finish;
    match a {
      case Start(flight, d, request) =>
        if Begin(w.store, d, request).Captured? {
          BeginCaptures(w.store, d, request);
        }
      case End(flight) =>
        if flight in w.flights {
          var c := w.flights[flight];
          EmptyHistory(tools);
          CommitKeeps(tools, w.store, c);
          var t := Finish(tools, w.store, c).0;
          forall d | d in t.snapshots ensures HistoryInv(tools, t.snapshots[d]) {
            assert t.snapshots[d] == Rows(t, d);
          }
        }
      case _ =>
    }
  }

  lemma EmptyHistory(tools: Tools)
    ensures HistoryInv(tools, [])
  {
  }

  lemma {:induction false} RunKeeps(tools: Tools, actions: seq<Action>)
    ensures WorldInv(tools, Run(tools, actions))
  {
    hide Step;
    if actions != [] {
      RunKeeps(tools, actions[..|actions| - 1]);
      StepKeeps(tools, Run(tools, actions[..|actions| - 1]), actions[|actions| - 1]);
    }
  }

  /**
    In every reachable state, whatever edits, reprocessing, crashes and materializations interleaved: a dashboard's
    versions are exactly 1 to n, adjacent versions have different hashes, every hash is that of its payload, and the
    source rows match the payload's sources.
    */
  lemma {:induction false} HistoriesAreGapless(tools: Tools, actions: seq<Action>, dashboard: Id)
    ensures HistoryInv(tools, Rows(Run(tools, actions).store, dashboard))
  {
    RunKeeps(tools, actions);
    EmptyHistory(tools);
    hide Run, HistoryInv;
  }

  // ---------------------------------------------------------------- what a stored snapshot was built from

  /**
    The row repeats the dashboard's columns of this state, holds the artifacts that the jobs of this state name, in
    ascending order, and the insight rendered from them; its hash and source rows are those of its payload.
    */
  ghost predicate InForce(tools: Tools, s: Store, dashboard: Id, row: Snapshot) {
    && dashboard in s.dashboards && Describes(tools, s.dashboards[dashboard], s.jobs, dashboard, row.payload)
    && 1 <= |row.payload.sources| <= 20 && Ascending(JobsOf(row.payload.sources)) && NoRepeats(JobsOf(row.payload.sources))
    && row.hash == tools.hash(row.payload) && SameSources(row.sources, row.payload.sources)
  }

  /** At this step of the run the row enters the table, built from the state of that moment. */
  ghost predicate StoredAt(tools: Tools, actions: seq<Action>, k: nat, dashboard: Id, row: Snapshot)
    requires k < |actions|
  {
    && actions[k].End?
    && row !in Rows(Run(tools, actions[..k]).store, dashboard)
    && row in Rows(Run(tools, actions[..k + 1]).store, dashboard)
    && InForce(tools, Run(tools, actions[..k]).store, dashboard, row)
  }

  lemma NewRowInForce(tools: Tools, w: World, a: Action, dashboard: Id, row: Snapshot)
    requires WorldInv(tools, w)
    requires row in Rows(Step(tools, w, a).store, dashboard) && row !in Rows(w.store, dashboard)
    ensures a.End? && InForce(tools, w.store, dashboard, row)
  {
    hide CapturedFor, Finish, Begin, InForce, HistoryInv;
    if a.End? && a.flight in w.flights {
      var c := w.flights[a.flight];
      EmptyHistory(tools);
      CommitKeeps(tools, w.store, c);
      var request :| CapturedFor(c, request);
      CommitIsAtomic(tools, w.store, c, request);
      StoredInForce(tools, w.store, c, request, row);
    }
  }

  lemma StoredInForce(tools: Tools, s: Store, c: Capture, request: seq<Id>, row: Snapshot)
    requires HistoryInv(tools, Rows(s, c.dashboard)) && Finish(tools, s, c).1.Stored?
    requires Begin(s, c.dashboard, request) == Captured(c)
    requires row in Rows(Finish(tools, s, c).0, c.dashboard) && row !in Rows(s, c.dashboard)
    ensures InForce(tools, s, c.dashboard, row)
  {
    hide Begin, Build, Finish, SourceRows, Describes, Sorted;
    StoredShape(tools, s, c);
    BuildSources(tools, c);
    var payload := Build(tools, c).value;
    SameSourceRows(s.jobs, c, payload.sources);
    DeterminedExactlyWhen(tools, s, c.dashboard, request, payload);
    SortedRequest(request);
    assert |JobsOf(payload.sources)| == |payload.sources|;
  }

  lemma SortedRequest(request: seq<Id>)
    ensures Ascending(Sorted(request)) && |Sorted(request)| == |request|
    ensures NoRepeats(request) ==> NoRepeats(Sorted(request))
  {
    SortedSorts(request);
    assert |multiset(Sorted(request))| == |multiset(request)|;
    NoRepeatsCounts(request);
    NoRepeatsCounts(Sorted(request));
    hide NoRepeats, Sorted, Ascending;
  }

  /**
    Linearizability over runs: every snapshot in the table entered it at some commit, and it holds exactly what the
    dashboard's columns, the jobs' signatures and the artifacts in force at that commit determine.
    */
  lemma {:induction false} StoredFromStateInForce(tools: Tools, actions: seq<Action>, dashboard: Id, row: Snapshot)
    requires row in Rows(Run(tools, actions).store, dashboard)
    ensures exists k: nat :: k < |actions| && StoredAt(tools, actions, k, dashboard, row)
  {
    hide Step, InForce;
    assert actions != [];
    var n := |actions| - 1;
    var before := actions[..n];
    assert actions[..n + 1] == actions;
    if row in Rows(Run(tools, before).store, dashboard) {
      StoredFromStateInForce(tools, before, dashboard, row);
      var k: nat :| k < |before| && StoredAt(tools, before, k, dashboard, row);
      assert before[..k] == actions[..k] && before[..k + 1] == actions[..k + 1];
      assert StoredAt(tools, actions, k, dashboard, row);
    } else {
      RunKeeps(tools, before);
      NewRowInForce(tools, Run(tools, before), actions[n], dashboard, row);
      assert StoredAt(tools, actions, n, dashboard, row);
    }
  }

  // ---------------------------------------------------------------- exactly when a request succeeds

  /** The first thing wrong with a request, if no payload is determined for it. */
  function Fault(s: Store, dashboard: Id, request: seq<Id>): Error {
    if request == [] || |request| > 20 || !NoRepeats(request) then InvalidRequest
    else if dashboard !in s.dashboards then NotFound
    else if exists i | 0 <= i < |request| :: request[i] !in s.jobs then SourceNotFound
    else if exists i | 0 <= i < |request| :: !Usable(s.jobs[request[i]]) then SourceNotReady
    else
      match s.dashboards[dashboard].insight
      case None => Artifact
      case Some(insight) => if insight.mapped.Some? && insight.mapped.value != Ids(request) then SourceMismatch else Artifact
  }

  /**
    Uninterrupted, a request whose payload is determined replays the last version when the hashes agree and otherwise
    stores the next one; any other request changes nothing and fails for the first thing wrong with it.
    */
  lemma MaterializesExactlyWhen(tools: Tools, s: Store, dashboard: Id, request: seq<Id>)
    requires HistoryInv(tools, Rows(s, dashboard))
    ensures var ((t, outcome), rows) := (MaterializeAtomically(tools, s, dashboard, request), Rows(s, dashboard));
      && (forall payload | Determined(tools, s, dashboard, request, payload) ::
            if rows != [] && rows[|rows| - 1].hash == tools.hash(payload) then t == s && outcome == Replayed(|rows|)
            else Appends(tools, s, t, dashboard, payload) && outcome == Stored(|rows| + 1))
      && ((forall payload :: !Determined(tools, s, dashboard, request, payload)) ==>
            t == s && outcome == Failure(Fault(s, dashboard, request)))
  {
    hide Sorted, SourceError, NoRepeats, Build, Determined, Fault, Latest, Appends, HistoryInv, Finish;
    forall payload | Determined(tools, s, dashboard, request, payload)
      ensures var ((t, outcome), rows) := (MaterializeAtomically(tools, s, dashboard, request), Rows(s, dashboard));
        if rows != [] && rows[|rows| - 1].hash == tools.hash(payload) then t == s && outcome == Replayed(|rows|)
        else Appends(tools, s, t, dashboard, payload) && outcome == Stored(|rows| + 1)
    {
      DeterminedExactlyWhen(tools, s, dashboard, request, payload);
      DeterminedCommits(tools, s, dashboard, request, payload);
    }
    if forall payload :: !Determined(tools, s, dashboard, request, payload) {
      UndeterminedFails(tools, s, dashboard, request);
    }
  }

  /** The dashboard's history grows by one row of the next version with this payload; nothing else changes. */
  ghost predicate Appends(tools: Tools, s: Store, t: Store, dashboard: Id, payload: Payload) {
    var rows := Rows(s, dashboard);
    && Rows(t, dashboard) != [] && t == s.(snapshots := s.snapshots[dashboard := rows + [Rows(t, dashboard)[|Rows(t, dashboard)| - 1]]])
    && var row := Rows(t, dashboard)[|Rows(t, dashboard)| - 1];
    && row.version == |rows| + 1 && row.payload == payload && row.hash == tools.hash(payload) && SameSources(row.sources, payload.sources)
  }

  lemma DeterminedCommits(tools: Tools, s: Store, dashboard: Id, request: seq<Id>, payload: Payload)
    requires HistoryInv(tools, Rows(s, dashboard))
    requires Begin(s, dashboard, request).Captured? && Build(tools, Begin(s, dashboard, request).capture) == Some(payload)
    ensures var ((t, outcome), rows) := (MaterializeAtomically(tools, s, dashboard, request), Rows(s, dashboard));
      if rows != [] && rows[|rows| - 1].hash == tools.hash(payload) then t == s && outcome == Replayed(|rows|)
      else Appends(tools, s, t, dashboard, payload) && outcome == Stored(|rows| + 1)
  {
    hide Sorted, NoRepeats, Build, Latest, SourceRows;
    var c := Begin(s, dashboard, request).capture;
    BeginCaptures(s, dashboard, request);
    BuildSources(tools, c);
    LatestIsLast(Rows(s, dashboard));
    SameSourceRows(s.jobs, c, payload.sources);
    assert SourceError(s.jobs, c.ids) == None;
    hide SourceError, SameSources;
  }

  lemma UndeterminedFails(tools: Tools, s: Store, dashboard: Id, request: seq<Id>)
    requires forall payload :: !Determined(tools, s, dashboard, request, payload)
    ensures MaterializeAtomically(tools, s, dashboard, request) == (s, Failure(Fault(s, dashboard, request)))
  {
    SortedSorts(request);
    MembersPermute(Sorted(request), request);
    SourcesFit(s.jobs, Sorted(request));
    hide Sorted, SourceError, NoRepeats, Build, Determined, Usable, Commit;
    SameFaults(s.jobs, Sorted(request), request);
    if Begin(s, dashboard, request).Captured? {
      var c := Begin(s, dashboard, request).capture;
      if Build(tools, c).Some? {
        DeterminedExactlyWhen(tools, s, dashboard, request, Build(tools, c).value);
      }
    }
  }

  lemma SameFaults(jobs: map<Id, Signature>, ids: seq<Id>, request: seq<Id>)
    requires forall x :: x in ids <==> x in request
    ensures Ids(ids) == Ids(request)
    ensures (exists i | 0 <= i < |ids| :: ids[i] !in jobs) <==> (exists i | 0 <= i < |request| :: request[i] !in jobs)
    ensures (forall i | 0 <= i < |ids| :: ids[i] in jobs) ==>
      (!NoneFails(jobs, ids) <==> (exists i | 0 <= i < |request| :: request[i] in jobs && !Usable(jobs[request[i]])))
  {
    hide Usable;
    forall i | 0 <= i < |ids| ensures exists j :: 0 <= j < |request| && request[j] == ids[i] {
      assert ids[i] in request;
    }
    forall i | 0 <= i < |request| ensures exists j :: 0 <= j < |ids| && ids[j] == request[i] {
      assert request[i] in ids;
    }
  }

  /** A request whose two transactions meet no other action is the atomic request, and leaves no flight behind. */
  lemma UndisturbedIsAtomic(tools: Tools, w: World, flight: nat, dashboard: Id, request: seq<Id>)
    ensures var w' := Step(tools, Step(tools, w, Start(flight, dashboard, request)), End(flight));
      && w'.store == MaterializeAtomically(tools, w.store, dashboard, request).0
      && flight !in w'.flights && w'.flights - {flight} == w.flights - {flight}
  {
    hide Begin, Finish;
  }

  predicate Taken(rows: seq<Snapshot>, version: nat) { exists i | 0 <= i < |rows| :: rows[i].version == version }

  /** A history that the code itself cannot have written is refused and left alone. */
  lemma DamagedHistoryRefused(tools: Tools, s: Store, c: Capture)
    requires Build(tools, c).Some? && Obstacle(s, c) == None && Latest(Rows(s, c.dashboard)).Some?
    ensures var (rows, last, hash) := (Rows(s, c.dashboard), Latest(Rows(s, c.dashboard)).value, tools.hash(Build(tools, c).value));
      && (last.hash != tools.hash(last.payload) ==> Finish(tools, s, c) == (s, Failure(Artifact)))
      && (last.hash == tools.hash(last.payload) && last.hash != hash && Taken(rows, last.version + 1) ==>
            Finish(tools, s, c) == (s, Failure(ConflictError)))
  {
    SourcesFit(s.jobs, c.ids);
    hide Latest, SourceError, Build, Usable;
  }
}
