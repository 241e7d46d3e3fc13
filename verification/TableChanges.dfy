/** What one ingestion step changes in the tables: one incident, one source, at most one observation, association and
    revision. A step depends only on the rows around its incident, so steps on different incidents commute. */
module TableChanges {
  import opened Wrappers
  import opened Solutions
  import opened Correlation
  import opened IncidentTables
  import opened IncidentInvariants
  import opened IncidentHistory

  // ----- Tables up to the order of their rows -----

  /** Equal tables, but for the order in which associations and revisions were written. */
  ghost predicate SameRows(t: Tables, u: Tables) {
    && t.incidents == u.incidents && t.sources == u.sources && t.observations == u.observations
    && multiset(t.associations) == multiset(u.associations) && multiset(t.revisions) == multiset(u.revisions)
  }

  lemma SameMembers<T>(a: seq<T>, b: seq<T>)
    requires multiset(a) == multiset(b)
    ensures forall x :: x in a <==> x in b
  {
    forall x ensures x in a <==> x in b {
      assert x in a <==> x in multiset(a);
      assert x in b <==> x in multiset(b);
    }
  }

  lemma SameRowsAssociate(t: Tables, u: Tables)
    requires SameRows(t, u)
    ensures forall s, incident :: Associated(t, s, incident) <==> Associated(u, s, incident)
  {
    SameMembers(t.associations, u.associations);
  }

  // ----- Patches -----

  datatype Patch = Patch(incident: Uuid, source: Identity, row: Incident, record: SourceRecord, key: ObservationKey, receipt: Receipt)

  function Patched(t: Tables, p: Patch): Tables {
    Tables(t.incidents[p.incident := p.row],
           t.sources[p.source := p.record],
           if p.source in t.sources then t.associations else t.associations + [Association(p.source, p.incident)],
           if p.incident in t.incidents && p.row.version != t.incidents[p.incident].version then
             t.revisions + [Revision(p.incident, p.source, p.row.version)]
           else
             t.revisions,
           if p.key in t.observations then t.observations else t.observations[p.key := p.receipt])
  }

  lemma PatchKeepsSameRows(t: Tables, u: Tables, p: Patch)
    requires SameRows(t, u)
    ensures SameRows(Patched(t, p), Patched(u, p))
  {
  }

  lemma AppendsCommute<T>(rows: seq<T>, a: seq<T>, b: seq<T>)
    ensures multiset(rows + a + b) == multiset(rows + b + a)
  {
  }

  lemma UpdatesCommute<K, V>(rows: map<K, V>, a: K, x: V, b: K, y: V)
    requires a != b
    ensures rows[a := x][b := y] == rows[b := y][a := x]
  {
  }

  lemma AdditionsCommute<K, V>(rows: map<K, V>, a: map<K, V>, b: map<K, V>)
    requires a.Keys !! b.Keys
    ensures rows + a + b == rows + b + a
  {
  }

  function NewAssociations(t: Tables, p: Patch): seq<Association> {
    if p.source in t.sources then [] else [Association(p.source, p.incident)]
  }

  function NewRevisions(t: Tables, p: Patch): seq<Revision> {
    if p.incident in t.incidents && p.row.version != t.incidents[p.incident].version then
      [Revision(p.incident, p.source, p.row.version)]
    else
      []
  }

  function NewObservations(t: Tables, p: Patch): map<ObservationKey, Receipt> {
    if p.key in t.observations then map[] else map[p.key := p.receipt]
  }

  lemma PatchedAdds(t: Tables, p: Patch)
    ensures Patched(t, p).associations == t.associations + NewAssociations(t, p)
    ensures Patched(t, p).revisions == t.revisions + NewRevisions(t, p)
    ensures Patched(t, p).observations == t.observations + NewObservations(t, p)
  {
  }

  lemma PatchedTwiceAdds(t: Tables, p: Patch, q: Patch)
    requires p.incident != q.incident && p.source != q.source && p.key != q.key
    ensures Patched(Patched(t, p), q).associations == t.associations + NewAssociations(t, p) + NewAssociations(t, q)
    ensures Patched(Patched(t, p), q).revisions == t.revisions + NewRevisions(t, p) + NewRevisions(t, q)
    ensures Patched(Patched(t, p), q).observations == t.observations + NewObservations(t, p) + NewObservations(t, q)
  {
    PatchedAdds(t, p);
    PatchedAdds(Patched(t, p), q);
  }

  /** Patches of different incidents and sources commute. */
  lemma PatchesCommute(t: Tables, p: Patch, q: Patch)
    requires p.incident != q.incident && p.source != q.source && p.key != q.key
    ensures SameRows(Patched(Patched(t, p), q), Patched(Patched(t, q), p))
  {
    PatchedTwiceAdds(t, p, q);
    PatchedTwiceAdds(t, q, p);
    AppendsCommute(t.associations, NewAssociations(t, p), NewAssociations(t, q));
    AppendsCommute(t.revisions, NewRevisions(t, p), NewRevisions(t, q));
    UpdatesCommute(t.incidents, p.incident, p.row, q.incident, q.row);
    UpdatesCommute(t.sources, p.source, p.record, q.source, q.record);
    AdditionsCommute(t.observations, NewObservations(t, p), NewObservations(t, q));
  }

  /** At most the observation's own key is new. */
  ghost predicate RecordsOnly(t: Tables, next: Tables, obs: Observation) {
    && KeyOf(obs) in next.observations
    && next.observations == if KeyOf(obs) in t.observations then t.observations
                            else t.observations[KeyOf(obs) := next.observations[KeyOf(obs)]]
  }

  /** The result is a step on `incident` that writes these rows. */
  ghost predicate Writes(t: Tables, result: Applied, incident: Uuid, obs: Observation) {
    && result.Success? && result.value.change.incident == incident
    && Step(t, result.value.tables, result.value.change, obs.id)
    && RecordsOnly(t, result.value.tables, obs)
  }

  ghost function PatchOf(result: Applied, incident: Uuid, obs: Observation): Patch
    requires result.Success? && incident in result.value.tables.incidents && obs.id in result.value.tables.sources
    requires KeyOf(obs) in result.value.tables.observations
  {
    var next := result.value.tables;
    Patch(incident, obs.id, next.incidents[incident], next.sources[obs.id], KeyOf(obs), next.observations[KeyOf(obs)])
  }

  lemma WriteIsAPatch(t: Tables, result: Applied, incident: Uuid, obs: Observation)
    requires Writes(t, result, incident, obs)
    ensures result.value.tables == Patched(t, PatchOf(result, incident, obs))
  {
  }

  // ----- What a step depends on -----

  ghost predicate IsAround(t: Tables, s: Identity, incident: Uuid) {
    s in t.sources && (t.sources[s].incident == incident || Associated(t, s, incident))
  }

  /** The tables agree on an incident, its sources and their associations. */
  ghost predicate SameAround(t: Tables, u: Tables, incident: Uuid) {
    && incident in t.incidents && incident in u.incidents && t.incidents[incident] == u.incidents[incident]
    && (forall s :: IsAround(t, s, incident) <==> IsAround(u, s, incident))
    && (forall s :: IsAround(t, s, incident) ==> t.sources[s] == u.sources[s])
    && (forall s :: Associated(t, s, incident) <==> Associated(u, s, incident))
  }

  lemma EvidenceIsLocal(t: Tables, u: Tables, incident: Uuid)
    requires forall s :: Associated(t, s, incident) <==> Associated(u, s, incident)
    requires forall s :: Associated(t, s, incident) && Associated(u, s, incident) ==> t.sources[s] == u.sources[s]
    ensures EvidenceOf(t, incident) == EvidenceOf(u, incident)
  {
  }

  /** The tables agree on whether, and how, an observation is recorded. */
  predicate SameRecord(t: Tables, u: Tables, obs: Observation) {
    && (KeyOf(obs) in t.observations <==> KeyOf(obs) in u.observations)
    && (KeyOf(obs) in t.observations ==> t.observations[KeyOf(obs)] == u.observations[KeyOf(obs)])
  }

  /** Two results write the same rows and report the same change. */
  ghost predicate SameWrite(a: Applied, b: Applied, incident: Uuid, obs: Observation) {
    && a.Success? && b.Success? && a.value.change == b.value.change
    && incident in a.value.tables.incidents && incident in b.value.tables.incidents
    && a.value.tables.incidents[incident] == b.value.tables.incidents[incident]
    && obs.id in a.value.tables.sources && obs.id in b.value.tables.sources
    && a.value.tables.sources[obs.id] == b.value.tables.sources[obs.id]
    && SameRecord(a.value.tables, b.value.tables, obs)
  }

  lemma LifecycleChangeIsLocal(t: Tables, u: Tables, incident: Uuid, existing: Incident, obs: Observation, now: int, kind: ChangeKind)
    requires RevisionFree(t, obs.id, existing.version + 1) && RevisionFree(u, obs.id, existing.version + 1)
    requires EvidenceOf(t, incident) == EvidenceOf(u, incident) && SameRecord(t, u, obs)
    requires obs.id in t.sources && obs.id in u.sources && t.sources[obs.id] == u.sources[obs.id]
    ensures SameWrite(ApplyLifecycleChange(t, incident, existing, obs.id, now, kind),
                      ApplyLifecycleChange(u, incident, existing, obs.id, now, kind), incident, obs)
    ensures ApplyLifecycleChange(t, incident, existing, obs.id, now, kind).value.tables.observations == t.observations
  {
  }

  lemma CanonicalUpdateIsLocal(t: Tables, u: Tables, incident: Uuid, existing: Incident, obs: Observation, version: nat, now: int)
    requires RevisionFree(t, obs.id, existing.version + 1) && RevisionFree(u, obs.id, existing.version + 1)
    requires PreferenceFree(t, incident, obs.id) && PreferenceFree(u, incident, obs.id)
    requires EvidenceOf(t, incident) == EvidenceOf(u, incident) && SameRecord(t, u, obs)
    requires obs.id in t.sources && obs.id in u.sources && t.sources[obs.id] == u.sources[obs.id]
    ensures SameWrite(UpdateCanonicalFromSource(t, incident, existing, obs, version, now),
                      UpdateCanonicalFromSource(u, incident, existing, obs, version, now), incident, obs)
    ensures UpdateCanonicalFromSource(t, incident, existing, obs, version, now).value.tables.observations == t.observations
  {
  }

  lemma AssociationIsLocal(t: Tables, u: Tables, incident: Uuid, existing: Incident, obs: Observation, now: int)
    requires RevisionFree(t, obs.id, existing.version + 1) && RevisionFree(u, obs.id, existing.version + 1)
    requires EvidenceOf(t, incident) == EvidenceOf(u, incident) && SameRecord(t, u, obs)
    requires obs.id in t.sources && obs.id in u.sources && t.sources[obs.id] == u.sources[obs.id]
    ensures SameWrite(UpdateIncidentAssociation(t, incident, existing, obs.id, now),
                      UpdateIncidentAssociation(u, incident, existing, obs.id, now), incident, obs)
    ensures UpdateIncidentAssociation(t, incident, existing, obs.id, now).value.tables.observations == t.observations
  {
  }

  /** A source of the incident, rewritten in both tables. */
  ghost function Rewritten(t: Tables, obs: Observation, record: SourceRecord, version: nat, now: int): Tables {
    SetSource(InsertObservation(t, obs, version, now), obs.id, record)
  }

  lemma RewritingIsLocal(t: Tables, u: Tables, obs: Observation, record: SourceRecord, version: nat, now: int)
    requires SameAround(t, u, record.incident) && SameRecord(t, u, obs)
    requires IsAround(t, obs.id, record.incident)
    ensures var a, b := Rewritten(t, obs, record, version, now), Rewritten(u, obs, record, version, now);
            EvidenceOf(a, record.incident) == EvidenceOf(b, record.incident) && SameRecord(a, b, obs)
            && RecordsOnly(t, a, obs)
  {
    var a, b := Rewritten(t, obs, record, version, now), Rewritten(u, obs, record, version, now);
    assert forall s :: Associated(a, s, record.incident) <==> Associated(t, s, record.incident);
    assert forall s :: Associated(b, s, record.incident) <==> Associated(u, s, record.incident);
    EvidenceIsLocal(a, b, record.incident);
  }

  lemma TouchIsLocal(t: Tables, u: Tables, obs: Observation, record: SourceRecord, now: int, kind: ChangeKind)
    requires SameAround(t, u, record.incident) && SameRecord(t, u, obs) && IsAround(t, obs.id, record.incident)
    requires Ready(t, record.incident, obs.id) && Ready(u, record.incident, obs.id)
    ensures SameWrite(Touch(t, obs, record, now, kind), Touch(u, obs, record, now, kind), record.incident, obs)
    ensures RecordsOnly(t, Touch(t, obs, record, now, kind).value.tables, obs)
  {
    RewritingIsLocal(t, u, obs, record, record.version, now);
    LifecycleChangeIsLocal(Rewritten(t, obs, record, record.version, now), Rewritten(u, obs, record, record.version, now),
                           record.incident, t.incidents[record.incident], obs, now, kind);
  }

  lemma TakesOverIsLocal(t: Tables, u: Tables, obs: Observation, record: SourceRecord, now: int)
    requires obs.id in t.sources && obs.id in u.sources && t.sources[obs.id] == u.sources[obs.id] == record
    requires SameAround(t, u, record.incident) && Ready(t, record.incident, obs.id)
    ensures TakesOver(RewriteSource(t, record, obs, now), record.incident, t.incidents[record.incident], obs)
            == TakesOver(RewriteSource(u, record, obs, now), record.incident, t.incidents[record.incident], obs)
  {
    assert IsAround(t, t.incidents[record.incident].preferred, record.incident);
  }

  lemma MaterialIsLocal(t: Tables, u: Tables, obs: Observation, now: int)
    requires obs.id in t.sources && obs.id in u.sources && t.sources[obs.id] == u.sources[obs.id]
    requires SameAround(t, u, t.sources[obs.id].incident) && SameRecord(t, u, obs) && !IsWeaker(t.sources[obs.id], obs)
    requires Ready(t, t.sources[obs.id].incident, obs.id) && Ready(u, t.sources[obs.id].incident, obs.id)
    ensures SameWrite(ApplyMaterial(t, t.sources[obs.id], obs, now), ApplyMaterial(u, t.sources[obs.id], obs, now),
                      t.sources[obs.id].incident, obs)
    ensures RecordsOnly(t, ApplyMaterial(t, t.sources[obs.id], obs, now).value.tables, obs)
  {
    var stored := t.sources[obs.id];
    var existing := t.incidents[stored.incident];
    var a, b := RewriteSource(t, stored, obs, now), RewriteSource(u, stored, obs, now);
    RewritingIsLocal(t, u, obs, a.sources[obs.id], stored.version + 1, now);
    assert a == Rewritten(t, obs, a.sources[obs.id], stored.version + 1, now);
    assert b == Rewritten(u, obs, a.sources[obs.id], stored.version + 1, now);
    TakesOverIsLocal(t, u, obs, stored, now);
    RewriteSourceIsReady(t, obs, now);
    if TakesOver(a, stored.incident, existing, obs).value {
      CanonicalUpdateIsLocal(a, b, stored.incident, existing, obs, stored.version + 1, now);
    } else {
      LifecycleChangeIsLocal(a, b, stored.incident, existing, obs, now, Updated);
    }
  }

  /** What the branches for a known source write depends on the rows around its incident only. */
  lemma KnownIsLocal(t: Tables, u: Tables, obs: Observation, now: int)
    requires obs.id in t.sources && obs.id in u.sources && t.sources[obs.id] == u.sources[obs.id]
    requires SameAround(t, u, t.sources[obs.id].incident) && SameRecord(t, u, obs)
    requires Ready(t, t.sources[obs.id].incident, obs.id) && Ready(u, t.sources[obs.id].incident, obs.id)
    ensures SameWrite(ApplyKnown(t, obs, now), ApplyKnown(u, obs, now), t.sources[obs.id].incident, obs)
    ensures RecordsOnly(t, ApplyKnown(t, obs, now).value.tables, obs)
  {
    var stored := t.sources[obs.id];
    var existing := t.incidents[stored.incident];
    var promoted := StrongerSolution(stored.solution, obs.solution);
    if IsStale(existing, obs) {
      TouchIsLocal(t, u, obs, Seen(stored, obs, now).(solution := promoted), now, Stale);
    } else if IsRepeated(existing, stored, obs) {
      var channel := if promoted != obs.solution then stored.channel else obs.channel;
      TouchIsLocal(t, u, obs, Seen(stored, obs, now).(channel := channel, solution := promoted), now, Unchanged);
    } else if IsWeaker(stored, obs) {
      TouchIsLocal(t, u, obs, Seen(stored, obs, now), now, Unchanged);
    } else {
      MaterialIsLocal(t, u, obs, now);
    }
  }

  // ----- First sightings -----

  /** The choice that a first sighting comes with: an incident to join, or none. */
  ghost function WriteChoice(t: Tables, choice: Option<Match>, input: Input): Applied {
    match choice
    case Some(best) => InsertCorrelatedSource(t, best.incident, input.obs, input.now)
    case None => InsertIncident(t, input.obs, input.minted, input.now)
  }

  function ChosenIncident(choice: Option<Match>, input: Input): Uuid {
    match choice
    case Some(best) => best.incident
    case None => input.minted
  }

  ghost predicate Joinable(t: Tables, incident: Uuid, provider: string) {
    && incident in t.incidents
    && forall s <- t.sources :: t.sources[s].incident == incident ==> s.provider != provider
  }

  /** The choice can be written: nothing stands in the way of its keys, and what it joins can be joined. */
  ghost predicate IsWritable(t: Tables, choice: Option<Match>, input: Input) {
    && input.obs.id !in t.sources
    && match choice
       case Some(best) => Joinable(t, best.incident, input.obs.id.provider)
       case None => input.minted !in t.incidents
  }

  lemma JoinRecordsOnly(t: Tables, incident: Uuid, obs: Observation, now: int)
    requires InsertCorrelatedSource(t, incident, obs, now).Success?
    ensures RecordsOnly(t, InsertCorrelatedSource(t, incident, obs, now).value.tables, obs)
  {
  }

  lemma OpeningRecordsOnly(t: Tables, obs: Observation, minted: Uuid, now: int)
    requires InsertIncident(t, obs, minted, now).Success?
    ensures RecordsOnly(t, InsertIncident(t, obs, minted, now).value.tables, obs)
  {
  }

  lemma ChoiceWrites(t: Tables, choice: Option<Match>, input: Input)
    requires Consistent(t) && IsWritable(t, choice, input)
    ensures Writes(t, WriteChoice(t, choice, input), ChosenIncident(choice, input), input.obs)
  {
    match choice
    case Some(best) =>
      ConsistentIsReady(t, best.incident, input.obs.id);
      CorrelatedIsStep(t, best.incident, input.obs, input.now);
      JoinRecordsOnly(t, best.incident, input.obs, input.now);
    case None =>
      NewIncidentIsStep(t, input.obs, input.minted, input.now);
      OpeningRecordsOnly(t, input.obs, input.minted, input.now);
  }

  lemma KnownWrites(t: Tables, obs: Observation, now: int)
    requires Consistent(t) && obs.id in t.sources
    ensures Writes(t, ApplyKnown(t, obs, now), t.sources[obs.id].incident, obs)
  {
    ConsistentIsReady(t, t.sources[obs.id].incident, obs.id);
    KnownIsStep(t, obs, now);
    KnownIsLocal(t, t, obs, now);
  }

  lemma UnknownIsUnrecorded(t: Tables, obs: Observation)
    requires Linked(t) && obs.id !in t.sources
    ensures KeyOf(obs) !in t.observations
  {
  }

  /** Tables in which a first record of one source was inserted agree on it and on the evidence it adds to. */
  ghost predicate SameInsertion(a: Tables, b: Tables, incident: Uuid, obs: Observation) {
    && EvidenceOf(a, incident) == EvidenceOf(b, incident) && SameRecord(a, b, obs)
    && obs.id in a.sources && obs.id in b.sources && a.sources[obs.id] == b.sources[obs.id]
  }

  lemma InsertionAssociates(t: Tables, obs: Observation, incident: Uuid, now: int)
    requires Linked(t) && obs.id !in t.sources
    ensures InsertSource(t, obs, incident, now).Success?
    ensures var a := InsertSource(t, obs, incident, now).value;
            && (forall s :: Associated(a, s, incident) <==> Associated(t, s, incident) || s == obs.id)
            && a.incidents == t.incidents && a.revisions == t.revisions
            && a.sources == t.sources[obs.id := SourceRecord(incident, obs.updatedAt, obs.payload, obs.fields, obs.links, 1,
                                                             obs.channel, obs.solution, now, now)]
            && a.observations == t.observations[KeyOf(obs) := Receipt(1, now)]
  {
    UnknownIsUnrecorded(t, obs);
  }

  lemma InsertedEvidenceIsLocal(t: Tables, u: Tables, a: Tables, b: Tables, incident: Uuid, id: Identity)
    requires SameAround(t, u, incident) && id !in t.sources && id !in u.sources && id in a.sources && id in b.sources
    requires a.sources == t.sources[id := a.sources[id]] && b.sources == u.sources[id := a.sources[id]]
    requires forall s :: Associated(a, s, incident) <==> Associated(t, s, incident) || s == id
    requires forall s :: Associated(b, s, incident) <==> Associated(u, s, incident) || s == id
    ensures EvidenceOf(a, incident) == EvidenceOf(b, incident)
  {
    forall s | Associated(a, s, incident) && Associated(b, s, incident) ensures a.sources[s] == b.sources[s] {
      if s != id {
        assert IsAround(t, s, incident);
      }
    }
    EvidenceIsLocal(a, b, incident);
  }

  lemma InsertionIsLocal(t: Tables, u: Tables, obs: Observation, incident: Uuid, now: int)
    requires Linked(t) && Linked(u) && SameAround(t, u, incident) && obs.id !in t.sources && obs.id !in u.sources
    ensures InsertSource(t, obs, incident, now).Success? && InsertSource(u, obs, incident, now).Success?
    ensures var a, b := InsertSource(t, obs, incident, now).value, InsertSource(u, obs, incident, now).value;
            && SameInsertion(a, b, incident, obs)
            && a.incidents == t.incidents && b.incidents == u.incidents
            && a.revisions == t.revisions && b.revisions == u.revisions
  {
    InsertionAssociates(t, obs, incident, now);
    InsertionAssociates(u, obs, incident, now);
    InsertedEvidenceIsLocal(t, u, InsertSource(t, obs, incident, now).value, InsertSource(u, obs, incident, now).value,
                            incident, obs.id);
  }

  lemma WinsIsLocal(t: Tables, u: Tables, incident: Uuid, obs: Observation)
    requires SameAround(t, u, incident) && PreferredIsMirrored(t, incident) && PreferredIsMirrored(u, incident)
    ensures Wins(t, incident, obs) == Wins(u, incident, obs)
  {
    assert IsAround(t, t.incidents[incident].preferred, incident);
  }

  lemma InsertionStaysFree(t: Tables, inserted: Tables, incident: Uuid, obs: Observation)
    requires Ready(t, incident, obs.id) && inserted.incidents == t.incidents && inserted.revisions == t.revisions
    ensures RevisionFree(inserted, obs.id, t.incidents[incident].version + 1) && PreferenceFree(inserted, incident, obs.id)
  {
  }

  lemma JoinIsLocal(t: Tables, u: Tables, incident: Uuid, obs: Observation, now: int)
    requires Consistent(t) && Consistent(u) && SameAround(t, u, incident) && obs.id !in t.sources && obs.id !in u.sources
    requires Joinable(t, incident, obs.id.provider) && Joinable(u, incident, obs.id.provider)
    ensures SameWrite(InsertCorrelatedSource(t, incident, obs, now), InsertCorrelatedSource(u, incident, obs, now), incident, obs)
  {
    ConsistentIsReady(t, incident, obs.id);
    ConsistentIsReady(u, incident, obs.id);
    WinsIsLocal(t, u, incident, obs);
    InsertionIsLocal(t, u, obs, incident, now);
    var a, b := InsertSource(t, obs, incident, now).value, InsertSource(u, obs, incident, now).value;
    InsertionStaysFree(t, a, incident, obs);
    InsertionStaysFree(u, b, incident, obs);
    if Wins(t, incident, obs) {
      TakingOverIsCanonicalUpdate(t, incident, obs, now);
      TakingOverIsCanonicalUpdate(u, incident, obs, now);
      CanonicalUpdateIsLocal(a, b, incident, t.incidents[incident], obs, 1, now);
    } else {
      JoiningIsAssociation(t, incident, obs, now);
      JoiningIsAssociation(u, incident, obs, now);
      AssociationIsLocal(a, b, incident, t.incidents[incident], obs, now);
    }
  }

  lemma OpeningIsLocal(t: Tables, u: Tables, obs: Observation, minted: Uuid, now: int)
    requires Consistent(t) && Consistent(u) && obs.id !in t.sources && obs.id !in u.sources
    requires minted !in t.incidents && minted !in u.incidents
    ensures SameWrite(InsertIncident(t, obs, minted, now), InsertIncident(u, obs, minted, now), minted, obs)
  {
    OpenedTables(t, obs, minted, now);
    OpenedTables(u, obs, minted, now);
    UnknownIsUnrecorded(t, obs);
    UnknownIsUnrecorded(u, obs);
  }

  /** What a first sighting writes depends on the rows around the incident that it joins only. */
  lemma ChoiceIsLocal(t: Tables, u: Tables, choice: Option<Match>, input: Input)
    requires Consistent(t) && Consistent(u) && IsWritable(t, choice, input) && IsWritable(u, choice, input)
    requires choice.Some? ==> SameAround(t, u, choice.value.incident)
    ensures SameWrite(WriteChoice(t, choice, input), WriteChoice(u, choice, input), ChosenIncident(choice, input), input.obs)
  {
    match choice
    case Some(best) => JoinIsLocal(t, u, best.incident, input.obs, input.now);
    case None => OpeningIsLocal(t, u, input.obs, input.minted, input.now);
  }

  // ----- Steps and the order of rows -----

  lemma SameRowsAround(t: Tables, u: Tables, incident: Uuid)
    requires SameRows(t, u) && incident in t.incidents
    ensures SameAround(t, u, incident)
  {
    SameRowsAssociate(t, u);
  }

  lemma SameWritesSamePatch(t: Tables, a: Applied, u: Tables, b: Applied, incident: Uuid, obs: Observation)
    requires Writes(t, a, incident, obs) && Writes(u, b, incident, obs) && SameWrite(a, b, incident, obs)
    ensures a.value.tables == Patched(t, PatchOf(a, incident, obs))
    ensures b.value.tables == Patched(u, PatchOf(a, incident, obs))
  {
    WriteIsAPatch(t, a, incident, obs);
    WriteIsAPatch(u, b, incident, obs);
    assert PatchOf(a, incident, obs) == PatchOf(b, incident, obs);
  }

  lemma KnownIsRowwise(t: Tables, u: Tables, obs: Observation, now: int)
    requires Consistent(t) && Consistent(u) && SameRows(t, u) && obs.id in t.sources
    ensures ApplyKnown(t, obs, now).Success? && ApplyKnown(u, obs, now).Success?
    ensures SameRows(ApplyKnown(t, obs, now).value.tables, ApplyKnown(u, obs, now).value.tables)
  {
    var incident := t.sources[obs.id].incident;
    SameRowsAround(t, u, incident);
    ConsistentIsReady(t, incident, obs.id);
    ConsistentIsReady(u, incident, obs.id);
    KnownIsLocal(t, u, obs, now);
    KnownWrites(t, obs, now);
    KnownWrites(u, obs, now);
    SameWritesSamePatch(t, ApplyKnown(t, obs, now), u, ApplyKnown(u, obs, now), incident, obs);
    PatchKeepsSameRows(t, u, PatchOf(ApplyKnown(t, obs, now), incident, obs));
  }

  lemma ChoiceIsRowwise(t: Tables, u: Tables, choice: Option<Match>, input: Input)
    requires Consistent(t) && Consistent(u) && SameRows(t, u) && IsWritable(t, choice, input)
    ensures WriteChoice(t, choice, input).Success? && WriteChoice(u, choice, input).Success?
    ensures SameRows(WriteChoice(t, choice, input).value.tables, WriteChoice(u, choice, input).value.tables)
  {
    if choice.Some? {
      SameRowsAround(t, u, choice.value.incident);
    }
    ChoiceIsLocal(t, u, choice, input);
    ChoiceWrites(t, choice, input);
    ChoiceWrites(u, choice, input);
    var a, b := WriteChoice(t, choice, input), WriteChoice(u, choice, input);
    SameWritesSamePatch(t, a, u, b, ChosenIncident(choice, input), input.obs);
    PatchKeepsSameRows(t, u, PatchOf(a, ChosenIncident(choice, input), input.obs));
  }

  lemma OtherIncidentStaysEligible(geo: Geography, t: Tables, next: Tables, obs: Observation, incident: Uuid)
    requires incident in t.incidents && incident in next.incidents && next.incidents[incident] == t.incidents[incident]
    requires t.sources.Keys <= next.sources.Keys
    requires forall s :: Associated(next, s, incident) <==> Associated(t, s, incident)
    ensures Eligible(geo, next, obs, incident) <==> Eligible(geo, t, obs, incident)
  {
  }

  lemma SameEligibleSameDecision(geo: Geography, t: Tables, next: Tables, obs: Observation)
    requires EligibleIncidents(geo, next, obs) == EligibleIncidents(geo, t, obs)
    requires forall incident <- EligibleIncidents(geo, t, obs) ::
               incident in t.incidents && incident in next.incidents && CandidateFor(next, incident) == CandidateFor(t, incident)
    ensures CorrelationDecision(geo, next, obs) == CorrelationDecision(geo, t, obs)
  {
    var eligible := EligibleIncidents(geo, t, obs);
    assert (set i | i in eligible :: CandidateFor(next, i)) == (set i | i in eligible :: CandidateFor(t, i));
  }

  lemma DecisionIsRowwise(geo: Geography, t: Tables, u: Tables, obs: Observation)
    requires SameRows(t, u)
    ensures CorrelationDecision(geo, t, obs) == CorrelationDecision(geo, u, obs)
  {
    SameRowsAssociate(t, u);
    forall incident | incident in t.incidents ensures Eligible(geo, u, obs, incident) <==> Eligible(geo, t, obs, incident) {
      OtherIncidentStaysEligible(geo, t, u, obs, incident);
    }
    SameEligibleSameDecision(geo, t, u, obs);
  }

  lemma FirstIsAChoice(geo: Geography, t: Tables, input: Input)
    requires input.obs.id !in t.sources
    ensures ApplyEvent(geo, t, input) == WriteChoice(t, CorrelationDecision(geo, t, input.obs), input)
  {
    UnknownIsFirst(geo, t, input);
  }

  lemma DecisionIsWritable(geo: Geography, t: Tables, input: Input)
    requires Consistent(t) && input.obs.id !in t.sources
    ensures IsWritable(t, CorrelationDecision(geo, t, input.obs), input) <==> ApplyEvent(geo, t, input).Success?
  {
    ApplyEventFailsOnlyOnMintedCollision(geo, t, input);
    if CorrelationDecision(geo, t, input.obs).Some? {
      MatchIsEligible(geo, t, input.obs);
    }
  }

  lemma EventCommits(geo: Geography, t: Tables, input: Input)
    ensures Committed(geo, t, input) == if ApplyEvent(geo, t, input).Success? then ApplyEvent(geo, t, input).value.tables else t
  {
  }

  /** Ingestion does not depend on the order in which rows were written. */
  lemma EventIsRowwise(geo: Geography, t: Tables, u: Tables, input: Input)
    requires Consistent(t) && Consistent(u) && SameRows(t, u)
    ensures SameRows(Committed(geo, t, input), Committed(geo, u, input))
  {
    EventCommits(geo, t, input);
    EventCommits(geo, u, input);
    if input.obs.id in t.sources {
      KnownIsFound(geo, t, input);
      KnownIsFound(geo, u, input);
      KnownIsRowwise(t, u, input.obs, input.now);
    } else {
      DecisionIsRowwise(geo, t, u, input.obs);
      FirstIsAChoice(geo, t, input);
      FirstIsAChoice(geo, u, input);
      DecisionIsWritable(geo, t, input);
      DecisionIsWritable(geo, u, input);
      if IsWritable(t, CorrelationDecision(geo, t, input.obs), input) {
        ChoiceIsRowwise(t, u, CorrelationDecision(geo, t, input.obs), input);
      }
    }
  }

  // ----- Steps on different incidents -----

  lemma PatchKeepsAround(t: Tables, p: Patch, incident: Uuid)
    requires Linked(t) && incident in t.incidents && incident != p.incident
    requires p.record.incident == p.incident && (p.source in t.sources ==> t.sources[p.source].incident == p.incident)
    ensures SameAround(t, Patched(t, p), incident)
  {
    assert forall s :: Associated(Patched(t, p), s, incident) <==> Associated(t, s, incident);
  }

  lemma WriteKeepsAround(t: Tables, result: Applied, written: Uuid, obs: Observation, incident: Uuid)
    requires Linked(t) && Writes(t, result, written, obs) && incident in t.incidents && incident != written
    ensures SameAround(t, result.value.tables, incident)
  {
    WriteIsAPatch(t, result, written, obs);
    PatchKeepsAround(t, PatchOf(result, written, obs), incident);
  }

  lemma WriteKeepsRecord(t: Tables, result: Applied, written: Uuid, obs: Observation, other: Observation)
    requires Writes(t, result, written, obs) && other.id != obs.id
    ensures SameRecord(t, result.value.tables, other)
  {
  }

  /** Writes to different incidents from different sources commute when neither changes what the other writes. */
  lemma LocalWritesCommute(t: Tables, a: Applied, x: Uuid, o: Observation, b: Applied, y: Uuid, p: Observation,
                           ab: Applied, ba: Applied)
    requires Writes(t, a, x, o) && Writes(t, b, y, p) && x != y && o.id != p.id
    requires Writes(a.value.tables, ab, y, p) && SameWrite(b, ab, y, p)
    requires Writes(b.value.tables, ba, x, o) && SameWrite(a, ba, x, o)
    ensures SameRows(ab.value.tables, ba.value.tables)
  {
    SameWritesSamePatch(t, b, a.value.tables, ab, y, p);
    SameWritesSamePatch(t, a, b.value.tables, ba, x, o);
    PatchesCommute(t, PatchOf(a, x, o), PatchOf(b, y, p));
  }

  lemma WriteIsConsistent(t: Tables, result: Applied, incident: Uuid, obs: Observation)
    requires Consistent(t) && Writes(t, result, incident, obs)
    ensures Consistent(result.value.tables)
    ensures t.incidents.Keys + {incident} == result.value.tables.incidents.Keys
    ensures t.sources.Keys + {obs.id} == result.value.tables.sources.Keys
  {
    StepKeepsConsistency(t, result.value.tables, result.value.change, obs.id);
    WriteAddsKeys(t, result, incident, obs);
  }

  lemma WriteAddsKeys(t: Tables, result: Applied, incident: Uuid, obs: Observation)
    requires Writes(t, result, incident, obs)
    ensures t.incidents.Keys + {incident} == result.value.tables.incidents.Keys
    ensures t.sources.Keys + {obs.id} == result.value.tables.sources.Keys
  {
    WriteIsAPatch(t, result, incident, obs);
  }

  lemma WriteKeepsJoinable(t: Tables, result: Applied, written: Uuid, obs: Observation, incident: Uuid, provider: string)
    requires Writes(t, result, written, obs) && written != incident && Joinable(t, incident, provider)
    ensures Joinable(result.value.tables, incident, provider)
  {
  }

  lemma WriteKeepsWritable(t: Tables, result: Applied, written: Uuid, obs: Observation, choice: Option<Match>, input: Input)
    requires Consistent(t) && Writes(t, result, written, obs) && IsWritable(t, choice, input)
    requires obs.id != input.obs.id && written != ChosenIncident(choice, input)
    ensures IsWritable(result.value.tables, choice, input)
  {
    WriteIsConsistent(t, result, written, obs);
    if choice.Some? {
      WriteKeepsJoinable(t, result, written, obs, choice.value.incident, input.obs.id.provider);
    }
  }

  /** A first sighting and an event of a known source of another incident have one effect in both orders. */
  lemma KnownCommutes(t: Tables, choice: Option<Match>, input: Input, obs: Observation, now: int)
    requires Consistent(t) && IsWritable(t, choice, input) && obs.id in t.sources
    requires ChosenIncident(choice, input) != t.sources[obs.id].incident
    ensures ApplyKnown(t, obs, now).Success? && WriteChoice(t, choice, input).Success?
    ensures var rewritten, written := ApplyKnown(t, obs, now).value.tables, WriteChoice(t, choice, input).value.tables;
            && Consistent(written) && obs.id in written.sources
            && WriteChoice(rewritten, choice, input).Success? && ApplyKnown(written, obs, now).Success?
            && SameRows(WriteChoice(rewritten, choice, input).value.tables, ApplyKnown(written, obs, now).value.tables)
  {
    var x, y := t.sources[obs.id].incident, ChosenIncident(choice, input);
    var a, b := ApplyKnown(t, obs, now), WriteChoice(t, choice, input);
    KnownWrites(t, obs, now);
    ChoiceWrites(t, choice, input);
    var rewritten, written := a.value.tables, b.value.tables;
    WriteIsConsistent(t, a, x, obs);
    WriteIsConsistent(t, b, y, input.obs);
    WriteKeepsWritable(t, a, x, obs, choice, input);
    if choice.Some? {
      WriteKeepsAround(t, a, x, obs, y);
    }
    ChoiceIsLocal(t, rewritten, choice, input);
    ChoiceWrites(rewritten, choice, input);
    WriteKeepsAround(t, b, y, input.obs, x);
    WriteKeepsRecord(t, b, y, input.obs, obs);
    KnownReadyIsLocal(t, written, obs, now);
    KnownWrites(written, obs, now);
    LocalWritesCommute(t, a, x, obs, b, y, input.obs, WriteChoice(rewritten, choice, input), ApplyKnown(written, obs, now));
  }

  lemma KnownReadyIsLocal(t: Tables, u: Tables, obs: Observation, now: int)
    requires Consistent(t) && Consistent(u) && obs.id in t.sources && SameAround(t, u, t.sources[obs.id].incident)
    requires SameRecord(t, u, obs)
    ensures obs.id in u.sources && u.sources[obs.id] == t.sources[obs.id]
    ensures SameWrite(ApplyKnown(t, obs, now), ApplyKnown(u, obs, now), t.sources[obs.id].incident, obs)
  {
    var incident := t.sources[obs.id].incident;
    assert IsAround(t, obs.id, incident);
    ConsistentIsReady(t, incident, obs.id);
    ConsistentIsReady(u, incident, obs.id);
    KnownIsLocal(t, u, obs, now);
  }

  /** Two first sightings of different sources that go to different incidents have one effect in both orders. */
  lemma ChoicesCommute(t: Tables, choice: Option<Match>, input: Input, other: Option<Match>, event: Input)
    requires Consistent(t) && IsWritable(t, choice, input) && IsWritable(t, other, event) && input.obs.id != event.obs.id
    requires ChosenIncident(choice, input) != ChosenIncident(other, event)
    ensures WriteChoice(t, choice, input).Success? && WriteChoice(t, other, event).Success?
    ensures var first, second := WriteChoice(t, other, event).value.tables, WriteChoice(t, choice, input).value.tables;
            && Consistent(second) && IsWritable(second, other, event)
            && WriteChoice(first, choice, input).Success? && WriteChoice(second, other, event).Success?
            && SameRows(WriteChoice(first, choice, input).value.tables, WriteChoice(second, other, event).value.tables)
  {
    var x, y := ChosenIncident(other, event), ChosenIncident(choice, input);
    var a, b := WriteChoice(t, other, event), WriteChoice(t, choice, input);
    ChoiceWrites(t, other, event);
    ChoiceWrites(t, choice, input);
    WriteIsConsistent(t, a, x, event.obs);
    WriteIsConsistent(t, b, y, input.obs);
    WriteKeepsWritable(t, a, x, event.obs, choice, input);
    WriteKeepsWritable(t, b, y, input.obs, other, event);
    if choice.Some? {
      WriteKeepsAround(t, a, x, event.obs, y);
    }
    if other.Some? {
      WriteKeepsAround(t, b, y, input.obs, x);
    }
    ChoiceIsLocal(t, a.value.tables, choice, input);
    ChoiceIsLocal(t, b.value.tables, other, event);
    ChoiceWrites(a.value.tables, choice, input);
    ChoiceWrites(b.value.tables, other, event);
    LocalWritesCommute(t, a, x, event.obs, b, y, input.obs, WriteChoice(a.value.tables, choice, input),
                       WriteChoice(b.value.tables, other, event));
  }
}
