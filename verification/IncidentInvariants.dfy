/** What every ingestion step keeps: the incident row is a materialised view of its sources, the tables' unique keys
    are never violated, and every version leaves one revision. */
module IncidentInvariants {
  import opened Wrappers
  import opened Solutions
  import opened Correlation
  import opened IncidentTables

  // ----- The invariant -----

  /** Every source has exactly one active association, to the incident it names; observations belong to sources. */
  ghost predicate Linked(t: Tables) {
    && (forall s <- t.sources :: t.sources[s].incident in t.incidents && Association(s, t.sources[s].incident) in t.associations)
    && (forall a <- t.associations :: a.source in t.sources && a.incident == t.sources[a.source].incident)
    && (forall i, j :: 0 <= i < j < |t.associations| ==> t.associations[i].source != t.associations[j].source)
    && (forall key <- t.observations :: key.source in t.sources)
  }

  ghost predicate OneSourcePerProvider(t: Tables) {
    forall a, b | a in t.sources && b in t.sources ::
      t.sources[a].incident == t.sources[b].incident && a.provider == b.provider ==> a == b
  }

  /** The canonical fields (links excepted), source time and provenance version are those of the source record. */
  ghost predicate Mirrors(e: Incident, record: SourceRecord) {
    e.updatedAt == record.updatedAt && e.fields == record.fields && e.sourceVersion == record.version
  }

  ghost predicate PreferredIsMirrored(t: Tables, incident: Uuid)
    requires incident in t.incidents
  {
    var e := t.incidents[incident];
    e.preferred in t.sources && t.sources[e.preferred].incident == incident && Mirrors(e, t.sources[e.preferred])
  }

  ghost predicate Materialised(t: Tables) {
    forall incident <- t.incidents :: PreferredIsMirrored(t, incident)
  }

  ghost predicate Settled(t: Tables) {
    forall incident <- t.incidents :: t.incidents[incident].lifecycle == Resolve(EvidenceOf(t, incident))
  }

  /** The versions of an incident's revisions, in the order they were written. */
  ghost function VersionsOf(revisions: seq<Revision>, incident: Uuid): seq<nat> {
    if revisions == [] then []
    else
      var last := revisions[|revisions| - 1];
      VersionsOf(revisions[..|revisions| - 1], incident) + (if last.incident == incident then [last.version] else [])
  }

  /** The versions 2, 3, ..., n. */
  ghost function VersionsUpTo(n: nat): seq<nat> {
    if n <= 1 then [] else VersionsUpTo(n - 1) + [n]
  }

  /** An incident's revisions are exactly the versions after the first, once each and in order. */
  ghost predicate Audited(t: Tables) {
    && (forall incident <- t.incidents ::
          t.incidents[incident].version >= 1
          && VersionsOf(t.revisions, incident) == VersionsUpTo(t.incidents[incident].version))
    && (forall r <- t.revisions :: r.source in t.sources && t.sources[r.source].incident == r.incident)
  }

  ghost predicate Consistent(t: Tables) {
    Linked(t) && OneSourcePerProvider(t) && Materialised(t) && Settled(t) && Audited(t)
  }

  // ----- The shape of a step -----

  ghost predicate SourceStep(t: Tables, next: Tables, incident: Uuid, id: Identity) {
    && id in next.sources && next.sources[id].incident == incident
    && next.sources == t.sources[id := next.sources[id]]
    && (if id in t.sources then
          && t.sources[id].incident == incident
          && next.associations == t.associations
          && Rung(t.sources[id].solution) <= Rung(next.sources[id].solution)
        else
          && next.associations == t.associations + [Association(id, incident)]
          && forall other <- t.sources :: t.sources[other].incident == incident ==> other.provider != id.provider)
    && (forall key <- t.observations :: key in next.observations && next.observations[key] == t.observations[key])
    && (forall key <- next.observations :: key in t.observations || key.source == id)
  }

  ghost predicate IncidentStep(t: Tables, next: Tables, incident: Uuid, id: Identity) {
    && incident in next.incidents
    && next.incidents == t.incidents[incident := next.incidents[incident]]
    && PreferredIsMirrored(next, incident)
    && next.incidents[incident].lifecycle == Resolve(EvidenceOf(next, incident))
    && var version := next.incidents[incident].version;
       if incident !in t.incidents then
         version == 1 && next.revisions == t.revisions
       else if version == t.incidents[incident].version then
         next.revisions == t.revisions
         && next.incidents[incident] == t.incidents[incident].(lastSeen := next.incidents[incident].lastSeen)
       else
         version == t.incidents[incident].version + 1 && next.revisions == t.revisions + [Revision(incident, id, version)]
  }

  /** The reported change shows the incident as it now is, but for the time it was last seen, and is reported whenever there is a new version. */
  ghost predicate Reports(t: Tables, next: Tables, change: Change) {
    && change.incident in next.incidents
    && var e := next.incidents[change.incident];
    && change.current == e.(lastSeen := change.current.lastSeen)
    && (change.kind == Inserted <==> change.incident !in t.incidents)
    && (change.incident !in t.incidents ==> change.previous == None)
    && (change.incident in t.incidents ==>
          && change.previous == Some(t.incidents[change.incident])
          && (e.version != t.incidents[change.incident].version ==> change.kind == Updated))
  }

  ghost predicate Step(t: Tables, next: Tables, change: Change, id: Identity) {
    SourceStep(t, next, change.incident, id) && IncidentStep(t, next, change.incident, id) && Reports(t, next, change)
  }

  // ----- Reading a consistent store -----

  lemma AssociatedMeansNamed(t: Tables, incident: Uuid)
    requires Linked(t)
    ensures forall s :: Associated(t, s, incident) <==> s in t.sources && t.sources[s].incident == incident
  {
    forall s ensures Associated(t, s, incident) <==> s in t.sources && t.sources[s].incident == incident {
      if Associated(t, s, incident) {
        assert Association(s, incident) in t.associations;
      }
    }
  }

  lemma VersionsUpToHoldsUpToN(n: nat)
    ensures forall v :: v in VersionsUpTo(n) <==> 2 <= v <= n
  {
  }

  lemma RevisionIsListed(revisions: seq<Revision>, r: Revision)
    requires r in revisions
    ensures r.version in VersionsOf(revisions, r.incident)
  {
    var last := revisions[|revisions| - 1];
    if r != last {
      assert revisions == revisions[..|revisions| - 1] + [last];
      RevisionIsListed(revisions[..|revisions| - 1], r);
    }
  }

  lemma VersionsOfAppend(revisions: seq<Revision>, r: Revision, incident: Uuid)
    ensures VersionsOf(revisions + [r], incident)
            == VersionsOf(revisions, incident) + (if r.incident == incident then [r.version] else [])
  {
    assert (revisions + [r])[..|revisions|] == revisions;
  }

  lemma UnlistedIncidentHasNoVersions(revisions: seq<Revision>, incident: Uuid)
    requires forall r <- revisions :: r.incident != incident
    ensures VersionsOf(revisions, incident) == []
  {
  }

  ghost predicate RevisionFree(t: Tables, source: Identity, version: nat) {
    !exists r <- t.revisions :: r.source == source && r.version == version
  }

  ghost predicate PreferenceFree(t: Tables, incident: Uuid, id: Identity) {
    !exists other <- t.incidents.Keys :: other != incident && t.incidents[other].preferred == id
  }

  /** The unique key of earthquake_revisions cannot stand in the way of a source's next version. */
  lemma NextRevisionIsFree(t: Tables, incident: Uuid, source: Identity)
    requires Consistent(t) && incident in t.incidents
    requires source in t.sources ==> t.sources[source].incident == incident
    ensures RevisionFree(t, source, t.incidents[incident].version + 1)
  {
    forall r | r in t.revisions && r.source == source ensures r.version <= t.incidents[incident].version {
      RevisionIsListed(t.revisions, r);
      VersionsUpToHoldsUpToN(t.incidents[incident].version);
    }
  }

  /** No two incidents prefer the same source, and none prefers a source that the tables do not have. */
  lemma PreferredIdentityIsUnique(t: Tables, incident: Uuid, id: Identity)
    requires Consistent(t)
    requires id in t.sources ==> t.sources[id].incident == incident
    ensures PreferenceFree(t, incident, id)
    ensures id !in t.sources ==> !exists other <- t.incidents.Keys :: t.incidents[other].preferred == id
  {
  }

  lemma MatchIsEligible(geo: Geography, t: Tables, obs: Observation)
    requires Linked(t) && CorrelationDecision(geo, t, obs).Some?
    ensures var incident := CorrelationDecision(geo, t, obs).value.incident;
            && incident in t.incidents && Eligible(geo, t, obs, incident)
            && (forall other <- t.sources :: t.sources[other].incident == incident ==> other.provider != obs.id.provider)
  {
    var eligible := EligibleIncidents(geo, t, obs);
    var candidates := set i | i in eligible :: CandidateFor(t, i);
    var matches := PRODUCTION.Matches(geo.surface, obs.Quake(), candidates);
    var best := CorrelationDecision(geo, t, obs).value;
    assert best in matches;
    AssociatedMeansNamed(t, best.incident);
  }

  // ----- Every branch is a step -----

  lemma RevisedIsStep(t: Tables, written: Tables, incident: Uuid, current: Incident, id: Identity)
    requires incident in t.incidents && SourceStep(t, written, incident, id)
    requires RevisionFree(t, id, t.incidents[incident].version + 1)
    requires written.incidents == t.incidents && written.revisions == t.revisions
    requires current.version == t.incidents[incident].version + 1
    requires current.lifecycle == Resolve(EvidenceOf(written, incident))
    requires current.preferred in written.sources && written.sources[current.preferred].incident == incident
             && Mirrors(current, written.sources[current.preferred])
    ensures var result := Revise(written, incident, t.incidents[incident], current, id);
            && result.Success?
            && Step(t, result.value.tables, result.value.change, id)
            && result.value.change.incident == incident
            && result.value.tables.incidents == t.incidents[incident := current]
            && result.value.tables.sources == written.sources && result.value.tables.observations == written.observations
  {
    var result := Revise(written, incident, t.incidents[incident], current, id);
    var next := result.value.tables;
    assert EvidenceOf(next, incident) == EvidenceOf(written, incident) by {
      assert forall s :: Associated(next, s, incident) <==> Associated(written, s, incident);
    }
  }

  lemma LifecycleChangeIsStep(t: Tables, written: Tables, incident: Uuid, id: Identity, now: int, kind: ChangeKind)
    requires incident in t.incidents && SourceStep(t, written, incident, id)
    requires RevisionFree(t, id, t.incidents[incident].version + 1)
    requires written.incidents == t.incidents && written.revisions == t.revisions
    requires PreferredIsMirrored(written, incident) && kind != Inserted
    ensures var result := ApplyLifecycleChange(written, incident, t.incidents[incident], id, now, kind);
            && result.Success?
            && Step(t, result.value.tables, result.value.change, id)
            && result.value.change.incident == incident
            && result.value.tables.sources == written.sources && result.value.tables.observations == written.observations
            && result.value.tables.incidents[incident].preferred == t.incidents[incident].preferred
            && result.value.tables.incidents[incident].updatedAt == t.incidents[incident].updatedAt
            && (result.value.tables.incidents[incident].version == t.incidents[incident].version <==>
                Resolve(EvidenceOf(written, incident)) == t.incidents[incident].lifecycle)
  {
    var existing := t.incidents[incident];
    var lifecycle := Resolve(EvidenceOf(written, incident));
    if lifecycle == existing.lifecycle {
      var next := ApplyLifecycleChange(written, incident, existing, id, now, kind).value.tables;
      assert EvidenceOf(next, incident) == EvidenceOf(written, incident) by {
        assert forall s :: Associated(next, s, incident) <==> Associated(written, s, incident);
      }
    } else {
      RevisedIsStep(t, written, incident,
                    existing.(lifecycle := lifecycle, version := existing.version + 1, lastSeen := now), id);
    }
  }

  lemma CanonicalUpdateIsStep(t: Tables, written: Tables, incident: Uuid, obs: Observation, sourceVersion: nat, now: int)
    requires incident in t.incidents && SourceStep(t, written, incident, obs.id)
    requires RevisionFree(t, obs.id, t.incidents[incident].version + 1) && PreferenceFree(t, incident, obs.id)
    requires written.incidents == t.incidents && written.revisions == t.revisions
    requires var record := written.sources[obs.id];
             record.updatedAt == obs.updatedAt && record.fields == obs.fields && record.version == sourceVersion
    ensures var result := UpdateCanonicalFromSource(written, incident, t.incidents[incident], obs, sourceVersion, now);
            && result.Success?
            && Step(t, result.value.tables, result.value.change, obs.id)
            && result.value.change.incident == incident
            && result.value.tables.sources == written.sources && result.value.tables.observations == written.observations
            && result.value.tables.incidents[incident].preferred == obs.id
            && result.value.tables.incidents[incident].updatedAt == obs.updatedAt
  {
    var existing := t.incidents[incident];
    RevisedIsStep(t, written, incident,
                  Incident(obs.id, obs.updatedAt, obs.fields, obs.links, existing.version + 1,
                           Resolve(EvidenceOf(written, incident)), sourceVersion, obs.channel, existing.firstSeen, now), obs.id);
  }

  /** What the branches need to know of a consistent store when the observation's source belongs to `incident`. */
  ghost predicate Ready(t: Tables, incident: Uuid, id: Identity) {
    && incident in t.incidents
    && PreferredIsMirrored(t, incident)
    && RevisionFree(t, id, t.incidents[incident].version + 1)
    && PreferenceFree(t, incident, id)
  }

  lemma ConsistentIsReady(t: Tables, incident: Uuid, id: Identity)
    requires Consistent(t) && incident in t.incidents
    requires id in t.sources ==> t.sources[id].incident == incident
    ensures Ready(t, incident, id)
  {
    NextRevisionIsFree(t, incident, id);
    PreferredIdentityIsUnique(t, incident, id);
  }

  lemma RewriteIsSourceStep(t: Tables, obs: Observation, record: SourceRecord, version: nat, now: int)
    requires obs.id in t.sources && record.incident == t.sources[obs.id].incident
    requires Rung(t.sources[obs.id].solution) <= Rung(record.solution)
    ensures SourceStep(t, SetSource(InsertObservation(t, obs, version, now), obs.id, record), record.incident, obs.id)
    ensures SetSource(InsertObservation(t, obs, version, now), obs.id, record)
            == InsertObservation(SetSource(t, obs.id, record), obs, version, now)
  {
  }

  /** A rewrite that leaves the stored observation alone, followed by a change of lifecycle, is a step. */
  lemma TouchIsStep(t: Tables, obs: Observation, record: SourceRecord, now: int, kind: ChangeKind)
    requires obs.id in t.sources && Ready(t, record.incident, obs.id) && kind != Inserted
    requires var stored := t.sources[obs.id];
             && record.incident == stored.incident && record.updatedAt == stored.updatedAt && record.fields == stored.fields
             && record.version == stored.version && Rung(stored.solution) <= Rung(record.solution)
    ensures var result := Touch(t, obs, record, now, kind);
            && result.Success? && Step(t, result.value.tables, result.value.change, obs.id)
            && result.value.change.incident == record.incident
            && result.value.tables.sources == t.sources[obs.id := record]
            && result.value.tables.incidents[record.incident].preferred == t.incidents[record.incident].preferred
            && result.value.tables.incidents[record.incident].updatedAt == t.incidents[record.incident].updatedAt
            && KeyOf(obs) in result.value.tables.observations
  {
    RewriteIsSourceStep(t, obs, record, record.version, now);
    var written := SetSource(InsertObservation(t, obs, record.version, now), obs.id, record);
    LifecycleChangeIsStep(t, written, record.incident, obs.id, now, kind);
  }

  lemma RewriteSourceIsReady(t: Tables, obs: Observation, now: int)
    requires obs.id in t.sources && Ready(t, t.sources[obs.id].incident, obs.id) && !IsWeaker(t.sources[obs.id], obs)
    ensures var stored := t.sources[obs.id];
            var written := RewriteSource(t, stored, obs, now);
            var takesOver := TakesOver(written, stored.incident, t.incidents[stored.incident], obs);
            && SourceStep(t, written, stored.incident, obs.id)
            && written.incidents == t.incidents && written.revisions == t.revisions
            && written.sources[obs.id].updatedAt == obs.updatedAt && written.sources[obs.id].fields == obs.fields
            && written.sources[obs.id].version == stored.version + 1
            && takesOver.Success?
            && (!takesOver.value ==> PreferredIsMirrored(written, stored.incident))
  {
    var stored := t.sources[obs.id];
    var written := RewriteSource(t, stored, obs, now);
    RewriteIsSourceStep(t, obs, written.sources[obs.id], stored.version + 1, now);
  }

  lemma MaterialIsStep(t: Tables, obs: Observation, now: int)
    requires obs.id in t.sources && Ready(t, t.sources[obs.id].incident, obs.id) && !IsWeaker(t.sources[obs.id], obs)
    ensures ApplyMaterial(t, t.sources[obs.id], obs, now).Success?
    ensures var stored := t.sources[obs.id];
            var outcome := ApplyMaterial(t, stored, obs, now).value;
            var written := RewriteSource(t, stored, obs, now);
            var takesOver := TakesOver(written, stored.incident, t.incidents[stored.incident], obs);
            && Step(t, outcome.tables, outcome.change, obs.id) && outcome.change.incident == stored.incident
            && outcome.tables.sources == written.sources && outcome.tables.observations == written.observations
            && takesOver.Success?
            && var e := outcome.tables.incidents[stored.incident];
               if takesOver.value then e.preferred == obs.id && e.updatedAt == obs.updatedAt
               else e.preferred == t.incidents[stored.incident].preferred && e.updatedAt == t.incidents[stored.incident].updatedAt
  {
    var stored := t.sources[obs.id];
    var written := RewriteSource(t, stored, obs, now);
    RewriteSourceIsReady(t, obs, now);
    if TakesOver(written, stored.incident, t.incidents[stored.incident], obs).value {
      CanonicalUpdateIsStep(t, written, stored.incident, obs, stored.version + 1, now);
    } else {
      LifecycleChangeIsStep(t, written, stored.incident, obs.id, now, Updated);
    }
  }

  lemma KnownIsStep(t: Tables, obs: Observation, now: int)
    requires obs.id in t.sources && Ready(t, t.sources[obs.id].incident, obs.id)
    ensures ApplyKnown(t, obs, now).Success?
    ensures var outcome := ApplyKnown(t, obs, now).value;
            Step(t, outcome.tables, outcome.change, obs.id) && outcome.change.incident == t.sources[obs.id].incident
  {
    var stored := t.sources[obs.id];
    var existing := t.incidents[stored.incident];
    var promoted := StrongerSolution(stored.solution, obs.solution);
    if IsStale(existing, obs) {
      TouchIsStep(t, obs, Seen(stored, obs, now).(solution := promoted), now, Stale);
    } else if IsRepeated(existing, stored, obs) {
      var channel := if promoted != obs.solution then stored.channel else obs.channel;
      TouchIsStep(t, obs, Seen(stored, obs, now).(channel := channel, solution := promoted), now, Unchanged);
    } else if IsWeaker(stored, obs) {
      TouchIsStep(t, obs, Seen(stored, obs, now), now, Unchanged);
    } else {
      MaterialIsStep(t, obs, now);
    }
  }

  lemma InsertSourceIsSourceStep(t: Tables, obs: Observation, incident: Uuid, now: int)
    requires Linked(t) && obs.id !in t.sources
    requires forall other <- t.sources :: t.sources[other].incident == incident ==> other.provider != obs.id.provider
    ensures var inserted := InsertSource(t, obs, incident, now);
            && inserted.Success?
            && SourceStep(t, inserted.value, incident, obs.id)
            && inserted.value.incidents == t.incidents && inserted.value.revisions == t.revisions
            && inserted.value.sources[obs.id]
               == SourceRecord(incident, obs.updatedAt, obs.payload, obs.fields, obs.links, 1, obs.channel, obs.solution, now, now)
            && KeyOf(obs) in inserted.value.observations
  {
  }

  lemma AssociationIsStep(t: Tables, inserted: Tables, incident: Uuid, id: Identity, now: int)
    requires incident in t.incidents && SourceStep(t, inserted, incident, id)
    requires RevisionFree(t, id, t.incidents[incident].version + 1)
    requires inserted.incidents == t.incidents && inserted.revisions == t.revisions && PreferredIsMirrored(inserted, incident)
    ensures var result := UpdateIncidentAssociation(inserted, incident, t.incidents[incident], id, now);
            && result.Success?
            && Step(t, result.value.tables, result.value.change, id)
            && result.value.change.incident == incident
            && result.value.tables.sources == inserted.sources && result.value.tables.observations == inserted.observations
            && result.value.tables.incidents[incident].preferred == t.incidents[incident].preferred
            && result.value.tables.incidents[incident].updatedAt == t.incidents[incident].updatedAt
  {
    var existing := t.incidents[incident];
    RevisedIsStep(t, inserted, incident,
                  existing.(lifecycle := Resolve(EvidenceOf(inserted, incident)), version := existing.version + 1,
                            lastSeen := now), id);
  }

  /** Whether a first sighting takes over the incident that it joins. */
  predicate Wins(t: Tables, incident: Uuid, obs: Observation)
    requires incident in t.incidents && t.incidents[incident].preferred in t.sources
  {
    var preferred := t.incidents[incident].preferred;
    PreferCanonicalSource(preferred.provider, t.sources[preferred].solution, obs.id.provider, obs.solution)
  }

  lemma TakingOverIsCanonicalUpdate(t: Tables, incident: Uuid, obs: Observation, now: int)
    requires Linked(t) && obs.id !in t.sources && Ready(t, incident, obs.id) && Wins(t, incident, obs)
    requires forall other <- t.sources :: t.sources[other].incident == incident ==> other.provider != obs.id.provider
    ensures InsertSource(t, obs, incident, now).Success?
    ensures InsertCorrelatedSource(t, incident, obs, now)
            == UpdateCanonicalFromSource(InsertSource(t, obs, incident, now).value, incident, t.incidents[incident], obs, 1, now)
  {
    InsertSourceIsSourceStep(t, obs, incident, now);
  }

  lemma JoiningIsAssociation(t: Tables, incident: Uuid, obs: Observation, now: int)
    requires Linked(t) && obs.id !in t.sources && Ready(t, incident, obs.id) && !Wins(t, incident, obs)
    requires forall other <- t.sources :: t.sources[other].incident == incident ==> other.provider != obs.id.provider
    ensures InsertSource(t, obs, incident, now).Success?
    ensures InsertCorrelatedSource(t, incident, obs, now)
            == UpdateIncidentAssociation(InsertSource(t, obs, incident, now).value, incident, t.incidents[incident], obs.id, now)
  {
    InsertSourceIsSourceStep(t, obs, incident, now);
  }

  lemma CorrelatedIsStep(t: Tables, incident: Uuid, obs: Observation, now: int)
    requires Linked(t) && obs.id !in t.sources && Ready(t, incident, obs.id)
    requires forall other <- t.sources :: t.sources[other].incident == incident ==> other.provider != obs.id.provider
    ensures InsertCorrelatedSource(t, incident, obs, now).Success?
    ensures var outcome := InsertCorrelatedSource(t, incident, obs, now).value;
            && Step(t, outcome.tables, outcome.change, obs.id) && outcome.change.incident == incident
            && obs.id in outcome.tables.sources && outcome.tables.sources[obs.id].solution == obs.solution
            && outcome.tables.sources[obs.id].payload == obs.payload && KeyOf(obs) in outcome.tables.observations
            && var e := outcome.tables.incidents[incident];
               if Wins(t, incident, obs) then e.preferred == obs.id && e.updatedAt == obs.updatedAt
               else e.preferred == t.incidents[incident].preferred && e.updatedAt == t.incidents[incident].updatedAt
  {
    InsertSourceIsSourceStep(t, obs, incident, now);
    var inserted := InsertSource(t, obs, incident, now).value;
    if Wins(t, incident, obs) {
      TakingOverIsCanonicalUpdate(t, incident, obs, now);
      CanonicalUpdateIsStep(t, inserted, incident, obs, 1, now);
    } else {
      JoiningIsAssociation(t, incident, obs, now);
      AssociationIsStep(t, inserted, incident, obs.id, now);
    }
  }

  lemma OpenedTables(t: Tables, obs: Observation, minted: Uuid, now: int)
    requires Consistent(t) && obs.id !in t.sources && minted !in t.incidents
    ensures var current := Incident(obs.id, obs.updatedAt, obs.fields, obs.links, 1, Resolve(iset{obs.solution}), 1,
                                    obs.channel, now, now);
            && InsertSource(t, obs, minted, now).Success?
            && InsertIncident(t, obs, minted, now)
               == Success(Outcome(InsertSource(t, obs, minted, now).value.(incidents := t.incidents[minted := current]),
                                  Change(Inserted, minted, None, current)))
  {
    PreferredIdentityIsUnique(t, minted, obs.id);
    InsertSourceIsSourceStep(t, obs, minted, now);
  }

  lemma OpenedEvidence(t: Tables, next: Tables, obs: Observation, minted: Uuid)
    requires Linked(t) && minted !in t.incidents && obs.id !in t.sources && SourceStep(t, next, minted, obs.id)
    requires next.sources[obs.id].solution == obs.solution
    ensures EvidenceOf(next, minted) == iset{obs.solution}
  {
    assert forall a <- t.associations :: a.incident != minted;
    assert forall s :: Associated(next, s, minted) <==> s == obs.id;
  }

  lemma NewIncidentIsStep(t: Tables, obs: Observation, minted: Uuid, now: int)
    requires Consistent(t) && obs.id !in t.sources && minted !in t.incidents
    ensures InsertIncident(t, obs, minted, now).Success?
    ensures var outcome := InsertIncident(t, obs, minted, now).value;
            Step(t, outcome.tables, outcome.change, obs.id) && outcome.change.incident == minted
  {
    OpenedTables(t, obs, minted, now);
    InsertSourceIsSourceStep(t, obs, minted, now);
    OpenedEvidence(t, InsertIncident(t, obs, minted, now).value.tables, obs, minted);
  }

  // ----- A step keeps the invariant -----

  lemma SourceStepKeepsLinks(t: Tables, next: Tables, incident: Uuid, id: Identity)
    requires Linked(t) && SourceStep(t, next, incident, id)
    requires incident in next.incidents && t.incidents.Keys <= next.incidents.Keys
    ensures Linked(next)
  {
    forall s | s in next.sources
      ensures next.sources[s].incident in next.incidents && Association(s, next.sources[s].incident) in next.associations
    {
      if s != id {
        assert Association(s, t.sources[s].incident) in t.associations;
      }
    }
  }

  lemma SourceStepKeepsProviders(t: Tables, next: Tables, incident: Uuid, id: Identity)
    requires OneSourcePerProvider(t) && SourceStep(t, next, incident, id)
    ensures OneSourcePerProvider(next)
  {
    forall a, b | a in next.sources && b in next.sources
                  && next.sources[a].incident == next.sources[b].incident && a.provider == b.provider
      ensures a == b
    {
    }
  }

  lemma StepKeepsMirrors(t: Tables, next: Tables, change: Change, id: Identity)
    requires Materialised(t) && Step(t, next, change, id)
    ensures Materialised(next)
  {
    forall incident | incident in next.incidents ensures PreferredIsMirrored(next, incident) {
      if incident != change.incident {
        assert PreferredIsMirrored(t, incident);
      }
    }
  }

  lemma StepKeepsOtherEvidence(t: Tables, next: Tables, change: Change, id: Identity, incident: Uuid)
    requires Linked(t) && Linked(next) && SourceStep(t, next, change.incident, id) && incident != change.incident
    ensures EvidenceOf(next, incident) == EvidenceOf(t, incident)
  {
    AssociatedMeansNamed(t, incident);
    AssociatedMeansNamed(next, incident);
    assert forall s :: Associated(next, s, incident) ==> Associated(t, s, incident) && next.sources[s] == t.sources[s];
    assert forall s :: Associated(t, s, incident) ==> Associated(next, s, incident) && next.sources[s] == t.sources[s];
  }

  lemma StepKeepsVersions(t: Tables, next: Tables, change: Change, id: Identity, incident: Uuid)
    requires Audited(t) && IncidentStep(t, next, change.incident, id) && incident in next.incidents
    requires forall s <- t.sources :: t.sources[s].incident in t.incidents
    ensures next.incidents[incident].version >= 1
    ensures VersionsOf(next.revisions, incident) == VersionsUpTo(next.incidents[incident].version)
  {
    if incident !in t.incidents {
      UnlistedIncidentHasNoVersions(t.revisions, incident);
    }
    VersionsOfAppend(t.revisions, Revision(change.incident, id, next.incidents[change.incident].version), incident);
  }

  lemma StepKeepsRevisionSources(t: Tables, next: Tables, incident: Uuid, id: Identity)
    requires SourceStep(t, next, incident, id) && IncidentStep(t, next, incident, id)
    requires forall r <- t.revisions :: r.source in t.sources && t.sources[r.source].incident == r.incident
    ensures forall r <- next.revisions :: r.source in next.sources && next.sources[r.source].incident == r.incident
  {
  }

  lemma StepKeepsAudit(t: Tables, next: Tables, change: Change, id: Identity)
    requires Audited(t) && SourceStep(t, next, change.incident, id) && IncidentStep(t, next, change.incident, id)
    requires forall s <- t.sources :: t.sources[s].incident in t.incidents
    ensures Audited(next)
  {
    forall incident | incident in next.incidents
      ensures next.incidents[incident].version >= 1
              && VersionsOf(next.revisions, incident) == VersionsUpTo(next.incidents[incident].version)
    {
      StepKeepsVersions(t, next, change, id, incident);
    }
    StepKeepsRevisionSources(t, next, change.incident, id);
  }

  lemma StepKeepsConsistency(t: Tables, next: Tables, change: Change, id: Identity)
    requires Consistent(t) && Step(t, next, change, id)
    ensures Consistent(next)
  {
    SourceStepKeepsLinks(t, next, change.incident, id);
    SourceStepKeepsProviders(t, next, change.incident, id);
    StepKeepsMirrors(t, next, change, id);
    StepKeepsAudit(t, next, change, id);
    forall incident | incident in next.incidents
      ensures next.incidents[incident].lifecycle == Resolve(EvidenceOf(next, incident))
    {
      if incident != change.incident {
        StepKeepsOtherEvidence(t, next, change, id, incident);
      }
    }
  }

  // ----- Main results about one event -----

  lemma KnownIsFound(geo: Geography, t: Tables, input: Input)
    requires Linked(t) && input.obs.id in t.sources
    ensures ApplyEvent(geo, t, input) == ApplyKnown(t, input.obs, input.now)
  {
  }

  lemma UnknownIsFirst(geo: Geography, t: Tables, input: Input)
    requires input.obs.id !in t.sources
    ensures ApplyEvent(geo, t, input) == ApplyFirst(geo, t, input.obs, input.minted, input.now)
  {
  }

  ghost predicate IsStep(t: Tables, result: Applied, id: Identity) {
    result.Success? && Step(t, result.value.tables, result.value.change, id)
  }

  lemma MatchedIsJoined(geo: Geography, t: Tables, obs: Observation, minted: Uuid, now: int)
    requires CorrelationDecision(geo, t, obs).Some?
    ensures ApplyFirst(geo, t, obs, minted, now)
            == InsertCorrelatedSource(t, CorrelationDecision(geo, t, obs).value.incident, obs, now)
  {
  }

  lemma EligibleIsStep(t: Tables, incident: Uuid, obs: Observation, now: int)
    requires Consistent(t) && obs.id !in t.sources && incident in t.incidents
    requires forall other <- t.sources :: t.sources[other].incident == incident ==> other.provider != obs.id.provider
    ensures IsStep(t, InsertCorrelatedSource(t, incident, obs, now), obs.id)
  {
    ConsistentIsReady(t, incident, obs.id);
    CorrelatedIsStep(t, incident, obs, now);
  }

  lemma CorrelatedFirstIsStep(geo: Geography, t: Tables, obs: Observation, minted: Uuid, now: int)
    requires Consistent(t) && obs.id !in t.sources && CorrelationDecision(geo, t, obs).Some?
    ensures IsStep(t, ApplyFirst(geo, t, obs, minted, now), obs.id)
  {
    MatchIsEligible(geo, t, obs);
    MatchedIsJoined(geo, t, obs, minted, now);
    EligibleIsStep(t, CorrelationDecision(geo, t, obs).value.incident, obs, now);
  }

  lemma TakenNameFails(t: Tables, obs: Observation, minted: Uuid, now: int)
    requires Consistent(t) && obs.id !in t.sources && minted in t.incidents
    ensures InsertIncident(t, obs, minted, now) == Failure(DuplicateKey)
  {
    PreferredIdentityIsUnique(t, minted, obs.id);
  }

  /** Ingestion fails only when the identity minted for a new incident is taken: no statement violates another key, no
      row is missing, and the retry on a taken preferred identity does not happen. */
  lemma ApplyEventFailsOnlyOnMintedCollision(geo: Geography, t: Tables, input: Input)
    requires Consistent(t)
    ensures ApplyEvent(geo, t, input).Failure? <==>
            input.obs.id !in t.sources && CorrelationDecision(geo, t, input.obs).None? && input.minted in t.incidents
    ensures ApplyEvent(geo, t, input).Failure? ==> ApplyEvent(geo, t, input).error == DuplicateKey
  {
    if input.obs.id in t.sources {
      KnownIsFound(geo, t, input);
      ConsistentIsReady(t, t.sources[input.obs.id].incident, input.obs.id);
      KnownIsStep(t, input.obs, input.now);
    } else {
      UnknownIsFirst(geo, t, input);
      if CorrelationDecision(geo, t, input.obs).Some? {
        CorrelatedFirstIsStep(geo, t, input.obs, input.minted, input.now);
      } else if input.minted !in t.incidents {
        NewIncidentIsStep(t, input.obs, input.minted, input.now);
      } else {
        TakenNameFails(t, input.obs, input.minted, input.now);
      }
    }
  }

  /** Every event that is applied makes a step, and the step keeps the store consistent. */
  lemma ApplyEventKeepsConsistency(geo: Geography, t: Tables, input: Input)
    requires Consistent(t) && ApplyEvent(geo, t, input).Success?
    ensures var outcome := ApplyEvent(geo, t, input).value;
            Step(t, outcome.tables, outcome.change, input.obs.id) && Consistent(outcome.tables)
  {
    ApplyEventFailsOnlyOnMintedCollision(geo, t, input);
    if input.obs.id in t.sources {
      KnownIsFound(geo, t, input);
      ConsistentIsReady(t, t.sources[input.obs.id].incident, input.obs.id);
      KnownIsStep(t, input.obs, input.now);
    } else if CorrelationDecision(geo, t, input.obs).Some? {
      UnknownIsFirst(geo, t, input);
      CorrelatedFirstIsStep(geo, t, input.obs, input.minted, input.now);
    } else {
      UnknownIsFirst(geo, t, input);
      NewIncidentIsStep(t, input.obs, input.minted, input.now);
    }
    var outcome := ApplyEvent(geo, t, input).value;
    StepKeepsConsistency(t, outcome.tables, outcome.change, input.obs.id);
  }
}
