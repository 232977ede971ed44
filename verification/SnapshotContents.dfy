/** What a snapshot holds, said of the tables and the artifacts alone, and exactly when a request can be materialized. */
module SnapshotContents {
  import opened CreditModel
  import opened DecimalText
  import opened Snapshots

  // ---------------------------------------------------------------- sources

  predicate NotBlank(text: Option<string>) {
    text.Some? && exists i | 0 <= i < |text.value| :: !IsSpace(text.value[i])
  }

  /** A completed job whose artifacts are all named and whose counts are in range. */
  predicate Usable(s: Signature) {
    && s.status == Completed
    && NotBlank(s.bucket) && NotBlank(s.normalizedKey) && NotBlank(s.normalizedVersion) && NotBlank(s.normalizedEtag)
    && NotBlank(s.profileKey) && NotBlank(s.profileVersion) && NotBlank(s.profileEtag)
    && s.normalizedSize.Some? && 0 < s.normalizedSize.value <= 52_428_800
    && s.records.Some? && 0 <= s.records.value
    && s.sheets.Some? && 1 <= s.sheets.value
  }

  lemma {:induction false} LeftBlank(s: string)
    ensures StripLeft(s) == "" <==> forall i | 0 <= i < |s| :: IsSpace(s[i])
  {
    if s != "" && IsSpace(s[0]) {
      LeftBlank(s[1..]);
      assert forall i | 0 < i < |s| :: s[i] == s[1..][i - 1];
    }
  }

  lemma {:induction false} RightBlank(s: string)
    ensures StripRight(s) == "" <==> forall i | 0 <= i < |s| :: IsSpace(s[i])
  {
    if s != "" && IsSpace(s[|s| - 1]) {
      RightBlank(s[..|s| - 1]);
    }
  }

  lemma {:induction false} LeftStarts(s: string)
    ensures StripLeft(s) == "" || !IsSpace(StripLeft(s)[0])
  {
    if s != "" && IsSpace(s[0]) {
      LeftStarts(s[1..]);
    }
  }

  lemma FilledExactlyWhen(text: Option<string>)
    ensures Filled(text) <==> NotBlank(text)
  {
    hide StripLeft, StripRight;
    if text.Some? {
      LeftBlank(text.value);
      LeftStarts(text.value);
      RightBlank(StripLeft(text.value));
    }
  }

  lemma ReadyExactlyWhen(s: Signature)
    ensures Ready(s) <==> Usable(s)
  {
    hide Filled, NotBlank;
    FilledExactlyWhen(s.bucket);
    FilledExactlyWhen(s.normalizedKey);
    FilledExactlyWhen(s.normalizedVersion);
    FilledExactlyWhen(s.normalizedEtag);
    FilledExactlyWhen(s.profileKey);
    FilledExactlyWhen(s.profileVersion);
    FilledExactlyWhen(s.profileEtag);
  }

  // ---------------------------------------------------------------- payloads

  /** Each source is a usable job of the table, with the artifact its signature names. */
  ghost predicate SourcesHold(tools: Tools, jobs: map<Id, Signature>, sources: seq<Source>) {
    forall i | 0 <= i < |sources| ::
      && sources[i].job in jobs && sources[i].signature == jobs[sources[i].job] && Usable(sources[i].signature)
      && tools.read(sources[i].job, sources[i].signature) == Some(sources[i].artifact)
  }

  function JobsOf(sources: seq<Source>): seq<Id> {
    seq(|sources|, i requires 0 <= i < |sources| => sources[i].job)
  }

  /** The payload repeats the dashboard's own columns and renders its insight over the payload's sources. */
  ghost predicate Describes(tools: Tools, definition: Definition, jobs: map<Id, Signature>, dashboard: Id, payload: Payload) {
    && payload.dashboard == dashboard
    && payload.kind == definition.kind && payload.title == definition.title && payload.configuration == definition.configuration
    && payload.insightConfiguration == definition.insight
    && SourcesHold(tools, jobs, payload.sources)
    && (match definition.insight
        case None => payload.insight == None
        case Some(insight) =>
          && insight.mapped == Some(Ids(JobsOf(payload.sources)))
          && payload.insight.Some? && payload.insight == tools.render(definition.kind, insight, payload.sources))
    && tools.fits(payload)
  }

  /** The payload a request to this dashboard gets from these tables. */
  ghost predicate Determined(tools: Tools, s: Store, dashboard: Id, request: seq<Id>, payload: Payload) {
    && 1 <= |request| <= 20 && NoRepeats(request) && JobsOf(payload.sources) == Sorted(request)
    && dashboard in s.dashboards && Describes(tools, s.dashboards[dashboard], s.jobs, dashboard, payload)
  }

  // ---------------------------------------------------------------- reading

  /** These are the first n captured sources with their artifacts. */
  ghost predicate ReadsAs(tools: Tools, c: Capture, n: nat, sources: seq<Source>)
    requires n <= |c.ids|
  {
    && |sources| == n
    && forall i | 0 <= i < n ::
         && c.ids[i] in c.signatures && sources[i].job == c.ids[i] && sources[i].signature == c.signatures[c.ids[i]]
         && tools.read(c.ids[i], c.signatures[c.ids[i]]) == Some(sources[i].artifact)
  }

  lemma {:induction false} ReadHolds(tools: Tools, c: Capture, n: nat)
    requires n <= |c.ids|
    ensures Read(tools, c, n).Some? ==> ReadsAs(tools, c, n, Read(tools, c, n).value)
  {
    if n > 0 {
      ReadHolds(tools, c, n - 1);
    }
  }

  lemma {:induction false} ReadFinds(tools: Tools, c: Capture, sources: seq<Source>, n: nat)
    requires n <= |c.ids| && ReadsAs(tools, c, |c.ids|, sources)
    ensures Read(tools, c, n) == Some(sources[..n])
  {
    if n > 0 {
      ReadFinds(tools, c, sources, n - 1);
      assert sources[..n] == sources[..n - 1] + [sources[n - 1]];
    }
  }

  predicate NoneFails(jobs: map<Id, Signature>, ids: seq<Id>) {
    forall i | 0 <= i < |ids| :: ids[i] in jobs && Usable(jobs[ids[i]])
  }

  lemma SourcesFit(jobs: map<Id, Signature>, ids: seq<Id>)
    ensures SourceError(jobs, ids)
         == if exists i | 0 <= i < |ids| :: ids[i] !in jobs then Some(SourceNotFound)
            else if !NoneFails(jobs, ids) then Some(SourceNotReady) else None
  {
    hide Ready, Usable;
    forall i | 0 <= i < |ids| && ids[i] in jobs ensures Ready(jobs[ids[i]]) <==> Usable(jobs[ids[i]]) {
      ReadyExactlyWhen(jobs[ids[i]]);
    }
  }

  // ---------------------------------------------------------------- building

  /** The insight is rendered from these sources, or there is none to render. */
  ghost predicate RendersTo(tools: Tools, definition: Definition, sources: seq<Source>, insight: Option<string>) {
    match definition.insight
    case None => insight == None
    case Some(configured) => insight.Some? && insight == tools.render(definition.kind, configured, sources)
  }

  /** Building succeeds with exactly the payload that the captured columns, artifacts and rendering make up. */
  lemma BuildsExactlyWhen(tools: Tools, c: Capture, payload: Payload)
    ensures Build(tools, c) == Some(payload) <==>
      && payload.dashboard == c.dashboard
      && payload.kind == c.definition.kind && payload.title == c.definition.title
      && payload.configuration == c.definition.configuration && payload.insightConfiguration == c.definition.insight
      && ReadsAs(tools, c, |c.ids|, payload.sources)
      && RendersTo(tools, c.definition, payload.sources, payload.insight)
      && tools.fits(payload)
  {
    ReadHolds(tools, c, |c.ids|);
    if ReadsAs(tools, c, |c.ids|, payload.sources) {
      ReadFinds(tools, c, payload.sources, |c.ids|);
      assert payload.sources[..|c.ids|] == payload.sources;
    }
    hide Read, ReadsAs;
  }

  /** A request is captured and built into a payload if and only if the tables determine that payload. */
  lemma DeterminedExactlyWhen(tools: Tools, s: Store, dashboard: Id, request: seq<Id>, payload: Payload)
    ensures Determined(tools, s, dashboard, request, payload) <==>
      Begin(s, dashboard, request).Captured? && Build(tools, Begin(s, dashboard, request).capture) == Some(payload)
  {
    hide Sorted, NoRepeats, Usable, Build, Describes;
    var ids := Sorted(request);
    SourcesFit(s.jobs, ids);
    hide SourceError;
    if dashboard in s.dashboards {
      var c := Capture(dashboard, ids, s.dashboards[dashboard], SignaturesOf(s.jobs, ids));
      BuildsExactlyWhen(tools, c, payload);
      SameDescription(tools, s.jobs, c, payload);
    }
  }

  /** For usable sources, building from the capture says the same as describing the tables. */
  lemma SameDescription(tools: Tools, jobs: map<Id, Signature>, c: Capture, payload: Payload)
    requires c.signatures == SignaturesOf(jobs, c.ids)
    ensures Describes(tools, c.definition, jobs, c.dashboard, payload) && JobsOf(payload.sources) == c.ids <==>
      && NoneFails(jobs, c.ids)
      && (c.definition.insight.Some? ==> c.definition.insight.value.mapped == Some(Ids(c.ids)))
      && Build(tools, c) == Some(payload)
  {
    BuildsExactlyWhen(tools, c, payload);
    hide Build, Usable;
    if JobsOf(payload.sources) == c.ids {
      assert forall i | 0 <= i < |c.ids| :: payload.sources[i].job == c.ids[i];
    }
    if ReadsAs(tools, c, |c.ids|, payload.sources) {
      assert JobsOf(payload.sources) == c.ids;
    }
  }
}
