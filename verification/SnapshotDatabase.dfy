/** The dashboard tables and the two transactions of a materialization, updated in place. */
module SnapshotDatabase {
  import opened CreditModel
  import opened Snapshots

  /** Reads the captured artifacts one source after another, outside any transaction. */
  method ReadArtifacts(tools: Tools, c: Capture) returns (sources: Option<seq<Source>>)
    ensures sources == Read(tools, c, |c.ids|)
  {
    var found: seq<Source> := [];
    var n := 0;
    while n < |c.ids|
      invariant 0 <= n <= |c.ids|
      invariant Read(tools, c, n) == Some(found)
    {
      var id := c.ids[n];
      var artifact := if id in c.signatures then tools.read(id, c.signatures[id]) else None;
      if artifact.None? {
        ReadFails(tools, c, n + 1, |c.ids|);
        return None;
      }
      found := found + [Source(id, c.signatures[id], artifact.value)];
      n := n + 1;
    }
    sources := Some(found);
  }

  lemma {:induction false} ReadFails(tools: Tools, c: Capture, i: nat, n: nat)
    requires i <= n <= |c.ids| && Read(tools, c, i) == None
    ensures Read(tools, c, n) == None
  {
    if i < n {
      ReadFails(tools, c, i, n - 1);
    }
  }

  method BuildPayload(tools: Tools, c: Capture) returns (payload: Option<Payload>)
    ensures payload == Build(tools, c)
  {
    var sources := ReadArtifacts(tools, c);
    if sources.None? {
      return None;
    }
    var rendered: Option<string> := None;
    if c.definition.insight.Some? {
      rendered := tools.render(c.definition.kind, c.definition.insight.value, sources.value);
      if rendered.None? {
        return None;
      }
    }
    var built := Payload(c.dashboard, c.definition.kind, c.definition.title, c.definition.configuration,
                         c.definition.insight, rendered, sources.value);
    payload := if tools.fits(built) then Some(built) else None;
  }

  class Database {
    var dashboards: map<Id, Definition>
    var jobs: map<Id, Signature>
    var snapshots: map<Id, seq<Snapshot>>

    function State(): Store
      reads this
    {
      Store(dashboards, jobs, snapshots)
    }

    /** All sources exist, and then all are complete. */
    method CheckSources(ids: seq<Id>) returns (error: Option<Error>)
      ensures error == SourceError(jobs, ids)
    {
      hide Ready;
      for i := 0 to |ids|
        invariant forall j | 0 <= j < i :: ids[j] in jobs
      {
        if ids[i] !in jobs {
          return Some(SourceNotFound);
        }
      }
      for i := 0 to |ids|
        invariant forall j | 0 <= j < i :: Ready(jobs[ids[j]])
      {
        if !Ready(jobs[ids[i]]) {
          return Some(SourceNotReady);
        }
      }
      error := None;
    }

    /** The read transaction. */
    method BeginMaterialization(dashboard: Id, request: seq<Id>) returns (begun: Begun)
      ensures begun == Begin(State(), dashboard, request)
    {
      hide Ready, Sorted, SourceError, NoRepeats;
      if !ValidRequest(request) {
        return Refused(InvalidRequest);
      }
      var ids := Sorted(request);
      if dashboard !in dashboards {
        return Refused(NotFound);
      }
      var error := CheckSources(ids);
      if error.Some? {
        return Refused(error.value);
      }
      var definition := dashboards[dashboard];
      if definition.insight.Some? {
        if definition.insight.value.mapped.None? {
          return Refused(Artifact);
        }
        if definition.insight.value.mapped.value != Ids(ids) {
          return Refused(SourceMismatch);
        }
      }
      begun := Captured(Capture(dashboard, ids, definition, SignaturesOf(jobs, ids)));
    }

    /** The row of highest version of a dashboard. */
    method LatestSnapshot(dashboard: Id) returns (latest: Option<Snapshot>)
      ensures latest == Latest(Rows(State(), dashboard))
    {
      latest := None;
      var rows := if dashboard in snapshots then snapshots[dashboard] else [];
      for i := 0 to |rows|
        invariant latest == Latest(rows[..i])
      {
        assert rows[..i + 1][..i] == rows[..i];
        if latest.None? || rows[i].version >= latest.value.version {
          latest := Some(rows[i]);
        }
      }
      assert rows[..|rows|] == rows;
    }

    /** The locked transaction: compare with the capture, then replay or store the next version. */
    method CommitMaterialization(tools: Tools, c: Capture, payload: Payload) returns (outcome: Outcome)
      modifies this
      ensures (State(), outcome) == Commit(tools, old(State()), c, payload)
    {
      hide SourceError, Latest;
      if c.dashboard !in dashboards {
        return Failure(NotFound);
      }
      if dashboards[c.dashboard] != c.definition {
        return Failure(ConflictError);
      }
      var error := CheckSources(c.ids);
      if error.Some? {
        return Failure(error.value);
      }
      if exists i | 0 <= i < |c.ids| :: c.ids[i] !in c.signatures || c.ids[i] !in jobs || c.signatures[c.ids[i]] != jobs[c.ids[i]] {
        return Failure(ConflictError);
      }
      var latest := LatestSnapshot(c.dashboard);
      if latest.Some? && tools.hash(latest.value.payload) != latest.value.hash {
        return Failure(Artifact);
      }
      if latest.Some? && latest.value.hash == tools.hash(payload) {
        return Replayed(latest.value.version);
      }
      var version := if latest.None? then 1 else latest.value.version + 1;
      var rows := Rows(State(), c.dashboard);
      if exists i | 0 <= i < |rows| :: rows[i].version == version {
        return Failure(ConflictError);
      }
      snapshots := snapshots[c.dashboard := rows + [Snapshot(version, payload, tools.hash(payload), SourceRows(jobs, c.ids))]];
      outcome := Stored(version);
    }

    method FinishMaterialization(tools: Tools, c: Capture) returns (outcome: Outcome)
      modifies this
      ensures (State(), outcome) == Finish(tools, old(State()), c)
    {
      var payload := BuildPayload(tools, c);
      if payload.None? {
        return Failure(Artifact);
      }
      outcome := CommitMaterialization(tools, c, payload.value);
    }

    /** One request, uninterrupted. */
    method Materialize(tools: Tools, dashboard: Id, request: seq<Id>) returns (outcome: Outcome)
      modifies this
      ensures (State(), outcome) == MaterializeAtomically(tools, old(State()), dashboard, request)
    {
      var begun := BeginMaterialization(dashboard, request);
      if begun.Refused? {
        return Failure(begun.error);
      }
      outcome := FinishMaterialization(tools, begun.capture);
    }
  }
}
