/** What an observation of a known source leaves of the source, its incident and the receipts, branch by branch in
    applyEvent (internal/repository/postgres/repository.go), told by the stored rows and the observation alone. */
module KnownSources {
  import opened Wrappers
  import opened Solutions
  import opened Correlation
  import opened IncidentTables
  import opened IncidentInvariants

  // ----- What should become of the rows -----

  /** Newer than the incident, or of its time with another payload than the one stored. */
  predicate Counts(existing: Incident, stored: SourceRecord, obs: Observation) {
    obs.updatedAt > existing.updatedAt || (obs.updatedAt == existing.updatedAt && obs.payload != stored.payload)
  }

  predicate IsSameAgain(existing: Incident, stored: SourceRecord, obs: Observation) {
    obs.updatedAt == existing.updatedAt && obs.payload == stored.payload
  }

  /** The observation counts, and retracts the source or is of no weaker class than a source that is not retracted. */
  predicate Rewrites(existing: Incident, stored: SourceRecord, obs: Observation) {
    && Counts(existing, stored, obs)
    && (obs.solution == RetractedSolution
        || (stored.solution != RetractedSolution && SolutionRank(obs.solution) >= SolutionRank(stored.solution)))
  }

  /** A retraction is final and counts only in time; otherwise the better of both classes is kept, also from an observation
      that comes late or repeats. */
  predicate ClassFollows(stored: SolutionClass, incoming: SolutionClass, counts: bool, after: SolutionClass) {
    if stored == RetractedSolution then
      after == RetractedSolution
    else if incoming == RetractedSolution then
      after == if counts then RetractedSolution else stored
    else
      && after != RetractedSolution
      && SolutionRank(after) == if SolutionRank(incoming) > SolutionRank(stored) then SolutionRank(incoming) else SolutionRank(stored)
  }

  predicate LinkFollows(stored: Option<string>, incoming: Option<string>, after: Option<string>) {
    after == if incoming.Some? then incoming else stored
  }

  predicate SourceFollows(existing: Incident, stored: SourceRecord, obs: Observation, now: int, after: SourceRecord) {
    && after.incident == stored.incident && after.firstSeen == stored.firstSeen && after.lastSeen == now
    && ClassFollows(stored.solution, obs.solution, Counts(existing, stored, obs), after.solution)
    && LinkFollows(stored.links.source, obs.links.source, after.links.source)
    && LinkFollows(stored.links.detail, obs.links.detail, after.links.detail)
    && if Rewrites(existing, stored, obs) then
         && after.updatedAt == obs.updatedAt && after.payload == obs.payload && after.fields == obs.fields
         && after.channel == obs.channel && after.version == stored.version + 1
       else
         && after.updatedAt == stored.updatedAt && after.payload == stored.payload && after.fields == stored.fields
         && after.version == stored.version
         && after.channel == if IsSameAgain(existing, stored, obs) && after.solution == obs.solution then obs.channel
                             else stored.channel
  }

  /** The observation rewrites its source, and the source is the preferred one or preferable to it. */
  predicate Adopts(t: Tables, existing: Incident, stored: SourceRecord, obs: Observation) {
    && Rewrites(existing, stored, obs)
    && (existing.preferred == obs.id
        || (existing.preferred in t.sources
            && PreferCanonicalSource(existing.preferred.provider, t.sources[existing.preferred].solution,
                                     obs.id.provider, obs.solution)))
  }

  /** An incident that adopts an observation shows it in a new version; any other keeps what it shows, and has a new version
      exactly when its lifecycle changes. */
  predicate IncidentFollows(existing: Incident, obs: Observation, sourceVersion: nat, adopts: bool, now: int, after: Incident) {
    && after.firstSeen == existing.firstSeen && after.lastSeen == now
    && if adopts then
         && after.preferred == obs.id && after.updatedAt == obs.updatedAt && after.fields == obs.fields
         && after.links == obs.links && after.channel == obs.channel && after.sourceVersion == sourceVersion
         && after.version == existing.version + 1
       else
         && after.preferred == existing.preferred && after.updatedAt == existing.updatedAt && after.fields == existing.fields
         && after.links == existing.links && after.channel == existing.channel && after.sourceVersion == existing.sourceVersion
         && after.version == existing.version + if after.lifecycle != existing.lifecycle then 1 else 0
  }

  /** Updated, unless nothing but the time of sight and the class of the source can have changed. */
  predicate KindFollows(existing: Incident, stored: SourceRecord, obs: Observation, after: Incident, kind: ChangeKind) {
    if Rewrites(existing, stored, obs) || after.lifecycle != existing.lifecycle then kind == Updated
    else if obs.updatedAt < existing.updatedAt then kind == Stale
    else kind == Unchanged
  }

  /** An observation is kept once for every channel, class, time and payload. */
  predicate ReceiptFollows(t: Tables, next: Tables, obs: Observation, now: int) {
    var key := ObservationKey(obs.id, obs.channel, obs.solution, obs.updatedAt, obs.payload);
    && obs.id in next.sources
    && next.observations == if key in t.observations then t.observations
                            else t.observations[key := Receipt(next.sources[obs.id].version, now)]
  }

  ghost predicate Follows(t: Tables, result: Applied, obs: Observation, now: int)
    requires Known(t, obs.id)
  {
    var stored := t.sources[obs.id];
    var existing := t.incidents[stored.incident];
    && result.Success?
    && var next := result.value.tables;
       && obs.id in next.sources && stored.incident in next.incidents
       && SourceFollows(existing, stored, obs, now, next.sources[obs.id])
       && IncidentFollows(existing, obs, next.sources[obs.id].version, Adopts(t, existing, stored, obs), now,
                          next.incidents[stored.incident])
       && KindFollows(existing, stored, obs, next.incidents[stored.incident], result.value.change.kind)
       && ReceiptFollows(t, next, obs, now)
  }

  // ----- Every branch -----

  /** What a source touched without a new version leaves. */
  lemma TouchWrites(t: Tables, obs: Observation, record: SourceRecord, now: int, kind: ChangeKind)
    requires record.incident in t.incidents && RevisionFree(t, obs.id, t.incidents[record.incident].version + 1)
    ensures var result := Touch(t, obs, record, now, kind);
            && result.Success?
            && result.value.tables.sources == t.sources[obs.id := record]
            && result.value.tables.observations == InsertObservation(t, obs, record.version, now).observations
            && record.incident in result.value.tables.incidents
            && var existing, after := t.incidents[record.incident], result.value.tables.incidents[record.incident];
               && after == existing.(lifecycle := after.lifecycle, lastSeen := now,
                                     version := existing.version + if after.lifecycle != existing.lifecycle then 1 else 0)
               && result.value.change.kind == if after.lifecycle != existing.lifecycle then Updated else kind
  {
  }

  lemma StaleFollows(t: Tables, obs: Observation, now: int)
    requires obs.id in t.sources && Ready(t, t.sources[obs.id].incident, obs.id)
    requires IsStale(t.incidents[t.sources[obs.id].incident], obs)
    ensures Follows(t, ApplyKnown(t, obs, now), obs, now)
  {
    var stored := t.sources[obs.id];
    TouchWrites(t, obs, Seen(stored, obs, now).(solution := StrongerSolution(stored.solution, obs.solution)), now, Stale);
  }

  lemma RepeatedFollows(t: Tables, obs: Observation, now: int)
    requires obs.id in t.sources && Ready(t, t.sources[obs.id].incident, obs.id)
    requires var existing := t.incidents[t.sources[obs.id].incident];
             !IsStale(existing, obs) && IsRepeated(existing, t.sources[obs.id], obs)
    ensures Follows(t, ApplyKnown(t, obs, now), obs, now)
  {
    var stored := t.sources[obs.id];
    var promoted := StrongerSolution(stored.solution, obs.solution);
    var channel := if promoted != obs.solution then stored.channel else obs.channel;
    TouchWrites(t, obs, Seen(stored, obs, now).(channel := channel, solution := promoted), now, Unchanged);
  }

  lemma WeakerFollows(t: Tables, obs: Observation, now: int)
    requires obs.id in t.sources && Ready(t, t.sources[obs.id].incident, obs.id)
    requires var existing := t.incidents[t.sources[obs.id].incident];
             !IsStale(existing, obs) && !IsRepeated(existing, t.sources[obs.id], obs) && IsWeaker(t.sources[obs.id], obs)
    ensures Follows(t, ApplyKnown(t, obs, now), obs, now)
  {
    TouchWrites(t, obs, Seen(t.sources[obs.id], obs, now), now, Unchanged);
  }

  lemma AdoptionWrites(written: Tables, incident: Uuid, existing: Incident, obs: Observation, sourceVersion: nat, now: int)
    requires RevisionFree(written, obs.id, existing.version + 1) && PreferenceFree(written, incident, obs.id)
    ensures var result := UpdateCanonicalFromSource(written, incident, existing, obs, sourceVersion, now);
            && result.Success? && result.value.change.kind == Updated
            && result.value.tables.sources == written.sources && result.value.tables.observations == written.observations
            && incident in result.value.tables.incidents
            && var after := result.value.tables.incidents[incident];
               after == Incident(obs.id, obs.updatedAt, obs.fields, obs.links, existing.version + 1, after.lifecycle,
                                 sourceVersion, obs.channel, existing.firstSeen, now)
  {
  }

  lemma SettlingWrites(written: Tables, incident: Uuid, existing: Incident, id: Identity, now: int)
    requires RevisionFree(written, id, existing.version + 1)
    ensures var result := ApplyLifecycleChange(written, incident, existing, id, now, Updated);
            && result.Success? && result.value.change.kind == Updated
            && result.value.tables.sources == written.sources && result.value.tables.observations == written.observations
            && incident in result.value.tables.incidents
            && var after := result.value.tables.incidents[incident];
               after == existing.(lifecycle := after.lifecycle, lastSeen := now,
                                  version := existing.version + if after.lifecycle != existing.lifecycle then 1 else 0)
  {
  }

  lemma MaterialFollows(t: Tables, obs: Observation, now: int)
    requires obs.id in t.sources && Ready(t, t.sources[obs.id].incident, obs.id)
    requires var existing := t.incidents[t.sources[obs.id].incident];
             !IsStale(existing, obs) && !IsRepeated(existing, t.sources[obs.id], obs) && !IsWeaker(t.sources[obs.id], obs)
    ensures Follows(t, ApplyKnown(t, obs, now), obs, now)
  {
    var stored := t.sources[obs.id];
    var existing := t.incidents[stored.incident];
    var written := RewriteSource(t, stored, obs, now);
    RewriteSourceIsReady(t, obs, now);
    if Adopts(t, existing, stored, obs) {
      AdoptionWrites(written, stored.incident, existing, obs, stored.version + 1, now);
    } else {
      SettlingWrites(written, stored.incident, existing, obs.id, now);
    }
  }

  /** What any observation of a known source leaves. */
  lemma KnownFollows(t: Tables, obs: Observation, now: int)
    requires obs.id in t.sources && Ready(t, t.sources[obs.id].incident, obs.id)
    ensures Follows(t, ApplyKnown(t, obs, now), obs, now)
  {
    var stored := t.sources[obs.id];
    var existing := t.incidents[stored.incident];
    if IsStale(existing, obs) {
      StaleFollows(t, obs, now);
    } else if IsRepeated(existing, stored, obs) {
      RepeatedFollows(t, obs, now);
    } else if IsWeaker(stored, obs) {
      WeakerFollows(t, obs, now);
    } else {
      MaterialFollows(t, obs, now);
    }
  }

  /** On every consistent store, an event of a known source leaves its source, its incident and the receipts as they
      follow from the stored rows and the observation. */
  lemma KnownSourceFollows(geo: Geography, t: Tables, input: Input)
    requires Consistent(t) && input.obs.id in t.sources
    ensures Follows(t, ApplyEvent(geo, t, input), input.obs, input.now)
  {
    KnownIsFound(geo, t, input);
    ConsistentIsReady(t, t.sources[input.obs.id].incident, input.obs.id);
    KnownFollows(t, input.obs, input.now);
  }
}
