/** Snapshot materialization: read, build outside any transaction, then validate and store. */
module Snapshots {
  import opened CreditModel
  import opened DecimalText
  import opened InsightModel

  const MAX_SOURCES: nat := 20
  const MAX_COMPRESSED: int := 50 * 1024 * 1024

  // ---------------------------------------------------------------- rows

  /** The dashboard's columns; the insight configuration also says which jobs it maps, or None if it is invalid. */
  datatype Insight = Insight(text: string, mapped: Option<set<Id>>)

  datatype Definition = Definition(
    kind: DashboardType,
    title: string,
    configuration: string,
    insight: Option<Insight>,
    updated: Time)

  datatype JobStatus = Queued | Processing | Completed | Failed

  /** The columns of a processing job that identify its immutable artifacts. */
  datatype Signature = Signature(
    status: JobStatus,
    bucket: Option<string>,
    normalizedKey: Option<string>,
    normalizedVersion: Option<string>,
    normalizedEtag: Option<string>,
    normalizedSize: Option<int>,
    profileKey: Option<string>,
    profileVersion: Option<string>,
    profileEtag: Option<string>,
    records: Option<int>,
    sheets: Option<int>)

  datatype Source = Source(job: Id, signature: Signature, artifact: string)

  datatype Payload = Payload(
    dashboard: Id,
    kind: DashboardType,
    title: string,
    configuration: string,
    insightConfiguration: Option<Insight>,
    insight: Option<string>,
    sources: seq<Source>)

  datatype SourceRow = SourceRow(job: Id, position: nat, signature: Signature)

  datatype Snapshot = Snapshot(version: nat, payload: Payload, hash: string, sources: seq<SourceRow>)

  datatype Store = Store(
    dashboards: map<Id, Definition>,
    jobs: map<Id, Signature>,
    snapshots: map<Id, seq<Snapshot>>)

  /** Immutable artifacts, rendering and hashing, as functions of what they read. */
  datatype Tools = Tools(
    read: (Id, Signature) -> Option<string>,
    render: (DashboardType, Insight, seq<Source>) -> Option<string>,
    fits: Payload -> bool,
    hash: Payload -> string)

  // ---------------------------------------------------------------- requests

  function Insert(x: Id, s: seq<Id>): seq<Id> {
    if s == [] then [x] else if x <= s[0] then [x] + s else [s[0]] + Insert(x, s[1..])
  }

  function Sorted(s: seq<Id>): seq<Id> {
    if s == [] then [] else Insert(s[0], Sorted(s[1..]))
  }

  predicate NoRepeats(s: seq<Id>) { forall i, j | 0 <= i < j < |s| :: s[i] != s[j] }

  predicate ValidRequest(request: seq<Id>) {
    0 < |request| <= MAX_SOURCES && NoRepeats(request)
  }

  predicate Filled(text: Option<string>) { text.Some? && Strip(text.value) != "" }

  predicate Ready(s: Signature) {
    && s.status == Completed
    && Filled(s.bucket) && Filled(s.normalizedKey) && Filled(s.normalizedVersion) && Filled(s.normalizedEtag)
    && Filled(s.profileKey) && Filled(s.profileVersion) && Filled(s.profileEtag)
    && s.normalizedSize.Some? && 0 < s.normalizedSize.value <= MAX_COMPRESSED
    && s.records.Some? && s.records.value >= 0
    && s.sheets.Some? && s.sheets.value > 0
  }

  datatype Error =
    | InvalidRequest | NotFound | SourceNotFound | SourceNotReady | SourceMismatch | Artifact | ConflictError

  /** What the first transaction hands to the rest of the request. */
  datatype Capture = Capture(dashboard: Id, ids: seq<Id>, definition: Definition, signatures: map<Id, Signature>)

  datatype Begun = Refused(error: Error) | Captured(capture: Capture)

  function SourceError(jobs: map<Id, Signature>, ids: seq<Id>): Option<Error> {
    if exists i | 0 <= i < |ids| :: ids[i] !in jobs then Some(SourceNotFound)
    else if exists i | 0 <= i < |ids| :: !Ready(jobs[ids[i]]) then Some(SourceNotReady)
    else None
  }

  function SignaturesOf(jobs: map<Id, Signature>, ids: seq<Id>): map<Id, Signature> {
    map i | i in ids && i in jobs :: jobs[i]
  }

  function Ids(s: seq<Id>): set<Id> { set i | i in s }

  /** The read transaction: sorted sources, captured definition and signatures. */
  function Begin(s: Store, dashboard: Id, request: seq<Id>): Begun {
    if !ValidRequest(request) then Refused(InvalidRequest)
    else
      var ids := Sorted(request);
      if dashboard !in s.dashboards then Refused(NotFound)
      else if SourceError(s.jobs, ids).Some? then Refused(SourceError(s.jobs, ids).value)
      else
        var definition := s.dashboards[dashboard];
        if definition.insight.Some? && definition.insight.value.mapped.None? then Refused(Artifact)
        else if definition.insight.Some? && definition.insight.value.mapped.value != Ids(ids) then Refused(SourceMismatch)
        else Captured(Capture(dashboard, ids, definition, SignaturesOf(s.jobs, ids)))
  }

  /** The artifacts of the first n sources, read by their captured versions. */
  function Read(tools: Tools, c: Capture, n: nat): Option<seq<Source>>
    requires n <= |c.ids|
  {
    if n == 0 then Some([])
    else
      var id := c.ids[n - 1];
      match Read(tools, c, n - 1)
      case None => None
      case Some(before) =>
        if id !in c.signatures then None
        else
          match tools.read(id, c.signatures[id])
          case None => None
          case Some(artifact) => Some(before + [Source(id, c.signatures[id], artifact)])
  }

  /** Everything between the two transactions: no database state is read. */
  function Build(tools: Tools, c: Capture): Option<Payload> {
    match Read(tools, c, |c.ids|)
    case None => None
    case Some(sources) =>
      var rendered := if c.definition.insight.Some? then tools.render(c.definition.kind, c.definition.insight.value, sources) else None;
      if c.definition.insight.Some? && rendered.None? then None
      else
        var payload := Payload(c.dashboard, c.definition.kind, c.definition.title, c.definition.configuration,
                               c.definition.insight, rendered, sources);
        if tools.fits(payload) then Some(payload) else None
  }

  /** The snapshots of one dashboard, in the order they were inserted. */
  function Rows(s: Store, dashboard: Id): seq<Snapshot> {
    if dashboard in s.snapshots then s.snapshots[dashboard] else []
  }

  /** The row of highest version. */
  function Latest(rows: seq<Snapshot>): Option<Snapshot> {
    if rows == [] then None
    else
      match Latest(rows[..|rows| - 1])
      case None => Some(rows[|rows| - 1])
      case Some(best) => Some(if rows[|rows| - 1].version >= best.version then rows[|rows| - 1] else best)
  }

  function SourceRows(jobs: map<Id, Signature>, ids: seq<Id>): seq<SourceRow> {
    seq(|ids|, i requires 0 <= i < |ids| =>
      SourceRow(ids[i], i, if ids[i] in jobs then jobs[ids[i]]
                           else Signature(Queued, None, None, None, None, None, None, None, None, None, None)))
  }

  datatype Outcome = Failure(error: Error) | Replayed(version: nat) | Stored(version: nat)

  /** The final transaction: locks, compares with the capture, then replays or stores. */
  function Commit(tools: Tools, s: Store, c: Capture, payload: Payload): (Store, Outcome) {
    if c.dashboard !in s.dashboards then (s, Failure(NotFound))
    else if s.dashboards[c.dashboard] != c.definition then (s, Failure(ConflictError))
    else if SourceError(s.jobs, c.ids).Some? then (s, Failure(SourceError(s.jobs, c.ids).value))
    else if exists i | 0 <= i < |c.ids| :: c.ids[i] !in c.signatures || c.ids[i] !in s.jobs || c.signatures[c.ids[i]] != s.jobs[c.ids[i]]
    then (s, Failure(ConflictError))
    else
      var rows := Rows(s, c.dashboard);
      var latest := Latest(rows);
      if latest.Some? && tools.hash(latest.value.payload) != latest.value.hash then (s, Failure(Artifact))
      else if latest.Some? && latest.value.hash == tools.hash(payload) then (s, Replayed(latest.value.version))
      else
        var version := if latest.None? then 1 else latest.value.version + 1;
        if exists i | 0 <= i < |rows| :: rows[i].version == version then (s, Failure(ConflictError))
        else
          var row := Snapshot(version, payload, tools.hash(payload), SourceRows(s.jobs, c.ids));
          (s.(snapshots := s.snapshots[c.dashboard := rows + [row]]), Stored(version))
  }

  function Finish(tools: Tools, s: Store, c: Capture): (Store, Outcome) {
    match Build(tools, c)
    case None => (s, Failure(Artifact))
    case Some(payload) => Commit(tools, s, c, payload)
  }

  /** The specification: the whole request in one indivisible step. */
  function MaterializeAtomically(tools: Tools, s: Store, dashboard: Id, request: seq<Id>): (Store, Outcome) {
    match Begin(s, dashboard, request)
    case Refused(error) => (s, Failure(error))
    case Captured(c) => Finish(tools, s, c)
  }

  // ---------------------------------------------------------------- runs

  /** Requests in flight, between their two transactions. */
  datatype World = World(store: Store, flights: map<nat, Capture>)

  datatype Action =
    | Edit(dashboard: Id, definition: Definition)
    | Remove(dashboard: Id)
    | Process(job: Id, signature: Signature)
    | Forget(job: Id)
    | Start(flight: nat, dashboard: Id, request: seq<Id>)
    | End(flight: nat)
    | Crash(flight: nat)

  const START: World := World(Store(map[], map[], map[]), map[])

  function Step(tools: Tools, w: World, a: Action): World {
    match a
    case Edit(d, definition) => w.(store := w.store.(dashboards := w.store.dashboards[d := definition]))
    case Remove(d) => w.(store := w.store.(dashboards := w.store.dashboards - {d}, snapshots := w.store.snapshots - {d}))
    case Process(job, signature) => w.(store := w.store.(jobs := w.store.jobs[job := signature]))
    case Forget(job) => w.(store := w.store.(jobs := w.store.jobs - {job}))
    case Start(flight, d, request) =>
      (match Begin(w.store, d, request)
       case Refused(_) => w.(flights := w.flights - {flight})
       case Captured(c) => w.(flights := w.flights[flight := c]))
    case End(flight) =>
      if flight !in w.flights then w
      else w.(store := Finish(tools, w.store, w.flights[flight]).0, flights := w.flights - {flight})
    case Crash(flight) => w.(flights := w.flights - {flight})
  }

  function Run(tools: Tools, actions: seq<Action>): World {
    if actions == [] then START else Step(tools, Run(tools, actions[..|actions| - 1]), actions[|actions| - 1])
  }
}
