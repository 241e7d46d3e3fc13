/** The incident tables as values, and what one ingestion transaction does to them
    (internal/repository/postgres/repository.go, applyEvent and its helpers).

    Each function mirrors one helper of the repository. An error stands for a failed statement, which makes the
    caller roll the transaction back. */
module IncidentTables {
  import opened Wrappers
  import opened Solutions
  import opened Correlation

  datatype Identity = Identity(provider: string, externalID: string)

  /** Canonical fields: those that correlation reads, and `rest` for the ones that are only copied. */
  datatype Fields = Fields(occurredAt: int, place: Place, depthKM: Option<real>, magnitude: Option<real>, rest: string)

  datatype Links = Links(source: Option<string>, detail: Option<string>) {
    /** The links of an observation, each falling back on the one already stored. */
    function Over(stored: Links): Links {
      Links(if source.Some? then source else stored.source, if detail.Some? then detail else stored.detail)
    }
  }

  /** A validated provider observation; `payload` is the canonical raw payload, which its hash identifies. */
  datatype Observation = Observation(id: Identity, channel: string, solution: SolutionClass, updatedAt: int,
                                     fields: Fields, payload: string, links: Links)
  {
    function Quake(): Quake {
      Correlation.Quake(id.provider, fields.occurredAt, fields.place, fields.magnitude, fields.depthKM)
    }

    function Standing(): Standing {
      Solutions.Standing(id.provider, solution)
    }
  }

  /** A row of earthquakes; `sourceVersion` and `channel` are its canonical provenance. */
  datatype Incident = Incident(preferred: Identity, updatedAt: int, fields: Fields, links: Links, version: nat,
                               lifecycle: Lifecycle, sourceVersion: nat, channel: string, firstSeen: int, lastSeen: int)

  /** A row of earthquake_source_records; `fields` are those of the observation whose payload the row stores. */
  datatype SourceRecord = SourceRecord(incident: Uuid, updatedAt: int, payload: string, fields: Fields, links: Links,
                                       version: nat, channel: string, solution: SolutionClass, firstSeen: int, lastSeen: int)

  datatype Association = Association(source: Identity, incident: Uuid)

  datatype Revision = Revision(incident: Uuid, source: Identity, version: nat)

  /** The unique key of provider_observations. */
  datatype ObservationKey = ObservationKey(source: Identity, channel: string, solution: SolutionClass, updatedAt: int, payload: string)

  datatype Receipt = Receipt(sourceVersion: nat, receivedAt: int)

  datatype Tables = Tables(incidents: map<Uuid, Incident>, sources: map<Identity, SourceRecord>,
                           associations: seq<Association>, revisions: seq<Revision>,
                           observations: map<ObservationKey, Receipt>)

  const EMPTY: Tables := Tables(map[], map[], [], [], map[])

  datatype ChangeKind = Inserted | Updated | Unchanged | Stale

  datatype Change = Change(kind: ChangeKind, incident: Uuid, previous: Option<Incident>, current: Incident)

  datatype Error =
    | DuplicateKey  // a unique or primary key is violated
    | MissingRow    // a row that must exist is not there
    | IdentityRace  // the preferred identity is taken, so the event is applied again from the start

  datatype Outcome = Outcome(tables: Tables, change: Change)

  type Applied = Result<Outcome, Error>

  /** The database's geography: whether two places lie within a number of metres, and the distance that scores use. */
  datatype Geography = Geography(within: (Place, Place, real) -> bool, surface: Surface)

  // ----- Reading -----

  predicate Known(t: Tables, id: Identity) {
    id in t.sources && t.sources[id].incident in t.incidents
  }

  predicate Associated(t: Tables, source: Identity, incident: Uuid) {
    source in t.sources && Association(source, incident) in t.associations
  }

  /** The solution classes of all sources associated with an incident. */
  ghost function EvidenceOf(t: Tables, incident: Uuid): iset<SolutionClass> {
    iset source | Associated(t, source, incident) :: t.sources[source].solution
  }

  /** Incidents near enough in time and place that a catalogue provider supports, and not yet the incoming one. */
  predicate Eligible(geo: Geography, t: Tables, obs: Observation, incident: Uuid)
    requires incident in t.incidents
  {
    var e := t.incidents[incident];
    && obs.fields.occurredAt - PRODUCTION.maximumTimeDelta <= e.fields.occurredAt
    && e.fields.occurredAt <= obs.fields.occurredAt + PRODUCTION.maximumTimeDelta
    && e.fields.magnitude.Some?
    && geo.within(e.fields.place, obs.fields.place, PRODUCTION.maximumDistanceKM * 1000.0)
    && (exists source <- t.sources.Keys ::
          Associated(t, source, incident) && CorrelatedCatalogProvider(source.provider) && source.provider != obs.id.provider)
    && !(exists source <- t.sources.Keys :: Associated(t, source, incident) && source.provider == obs.id.provider)
  }

  function EligibleIncidents(geo: Geography, t: Tables, obs: Observation): set<Uuid> {
    set incident | incident in t.incidents.Keys && Eligible(geo, t, obs, incident)
  }

  function CandidateFor(t: Tables, incident: Uuid): Candidate
    requires incident in t.incidents
  {
    var e := t.incidents[incident];
    Candidate(incident, Quake(e.preferred.provider, e.fields.occurredAt, e.fields.place, e.fields.magnitude, e.fields.depthKM))
  }

  const CANDIDATE_LIMIT: nat := 100

  /** The incident that a first sighting joins. A full candidate page may be missing candidates, so it settles nothing. */
  ghost function CorrelationDecision(geo: Geography, t: Tables, obs: Observation): Option<Match> {
    if !CorrelatedCatalogProvider(obs.id.provider) || obs.fields.magnitude.None? then
      None
    else
      var eligible := EligibleIncidents(geo, t, obs);
      if |eligible| >= CANDIDATE_LIMIT then
        None
      else
        PRODUCTION.Winner(PRODUCTION.Matches(geo.surface, obs.Quake(), set i | i in eligible :: CandidateFor(t, i)))
  }

  /** The class of the source that an incident prefers, found by joining on its preferred identity. */
  function PreferredSolution(t: Tables, incident: Uuid): Result<SolutionClass, Error> {
    if incident in t.incidents && t.incidents[incident].preferred in t.sources
       && t.sources[t.incidents[incident].preferred].incident == incident then
      Success(t.sources[t.incidents[incident].preferred].solution)
    else
      Failure(MissingRow)
  }

  // ----- Writing -----

  function KeyOf(obs: Observation): ObservationKey {
    ObservationKey(obs.id, obs.channel, obs.solution, obs.updatedAt, obs.payload)
  }

  function InsertObservation(t: Tables, obs: Observation, sourceVersion: nat, now: int): Tables {
    if KeyOf(obs) in t.observations then
      t
    else
      t.(observations := t.observations[KeyOf(obs) := Receipt(sourceVersion, now)])
  }

  function InsertRevision(t: Tables, revision: Revision): Result<Tables, Error> {
    if exists r <- t.revisions :: r.source == revision.source && r.version == revision.version then
      Failure(DuplicateKey)
    else
      Success(t.(revisions := t.revisions + [revision]))
  }

  /** A first record of a source, with its observation and its one active association. */
  function InsertSource(t: Tables, obs: Observation, incident: Uuid, now: int): Result<Tables, Error> {
    if obs.id in t.sources || (exists a <- t.associations :: a.source == obs.id) then
      Failure(DuplicateKey)
    else
      var record := SourceRecord(incident, obs.updatedAt, obs.payload, obs.fields, obs.links, 1, obs.channel,
                                 obs.solution, now, now);
      var inserted := InsertObservation(t.(sources := t.sources[obs.id := record]), obs, 1, now);
      Success(inserted.(associations := t.associations + [Association(obs.id, incident)]))
  }

  function SetSource(t: Tables, id: Identity, record: SourceRecord): Tables {
    t.(sources := t.sources[id := record])
  }

  /** Writes an incident that was loaded as `existing`, with a revision: every change of version leaves one. */
  function Revise(t: Tables, incident: Uuid, existing: Incident, current: Incident, source: Identity): Applied {
    var revised :- InsertRevision(t.(incidents := t.incidents[incident := current]),
                                  Revision(incident, source, current.version));
    Success(Outcome(revised, Change(Updated, incident, Some(existing), current)))
  }

  /** Brings the lifecycle up to date with the evidence; without a change of lifecycle the version stays. */
  ghost function ApplyLifecycleChange(t: Tables, incident: Uuid, existing: Incident, source: Identity, now: int,
                                      unchangedKind: ChangeKind): Applied
  {
    var lifecycle := Resolve(EvidenceOf(t, incident));
    if lifecycle == existing.lifecycle then
      Success(Outcome(t.(incidents := t.incidents[incident := existing.(lastSeen := now)]),
                      Change(unchangedKind, incident, Some(existing), existing)))
    else
      var current := existing.(lifecycle := lifecycle, version := existing.version + 1, lastSeen := now);
      Revise(t, incident, existing, current, source)
  }

  /** Makes the observation the canonical one of its incident. */
  ghost function UpdateCanonicalFromSource(t: Tables, incident: Uuid, existing: Incident, obs: Observation,
                                           sourceVersion: nat, now: int): Applied
  {
    var current := Incident(obs.id, obs.updatedAt, obs.fields, obs.links, existing.version + 1,
                            Resolve(EvidenceOf(t, incident)), sourceVersion, obs.channel, existing.firstSeen, now);
    if exists other <- t.incidents.Keys :: other != incident && t.incidents[other].preferred == obs.id then
      Failure(DuplicateKey)
    else
      Revise(t, incident, existing, current, obs.id)
  }

  /** Records that an incident gained a source that does not become its canonical one. */
  ghost function UpdateIncidentAssociation(t: Tables, incident: Uuid, existing: Incident, source: Identity, now: int): Applied {
    var current := existing.(lifecycle := Resolve(EvidenceOf(t, incident)), version := existing.version + 1, lastSeen := now);
    Revise(t, incident, existing, current, source)
  }

  ghost function InsertCorrelatedSource(t: Tables, incident: Uuid, obs: Observation, now: int): Applied {
    var preferredSolution :- PreferredSolution(t, incident);
    var existing := t.incidents[incident];
    var inserted :- InsertSource(t, obs, incident, now);
    if PreferCanonicalSource(existing.preferred.provider, preferredSolution, obs.id.provider, obs.solution) then
      UpdateCanonicalFromSource(inserted, incident, existing, obs, 1, now)
    else
      UpdateIncidentAssociation(inserted, incident, existing, obs.id, now)
  }

  ghost function InsertIncident(t: Tables, obs: Observation, minted: Uuid, now: int): Applied {
    if exists other <- t.incidents.Keys :: t.incidents[other].preferred == obs.id then
      Failure(IdentityRace)
    else if minted in t.incidents then
      Failure(DuplicateKey)
    else
      var current := Incident(obs.id, obs.updatedAt, obs.fields, obs.links, 1, Resolve(iset{obs.solution}), 1,
                              obs.channel, now, now);
      var inserted :- InsertSource(t.(incidents := t.incidents[minted := current]), obs, minted, now);
      Success(Outcome(inserted, Change(Inserted, minted, None, current)))
  }

  /** Rewrites a source record without a new version of it, and settles the lifecycle. */
  ghost function Touch(t: Tables, obs: Observation, record: SourceRecord, now: int, unchangedKind: ChangeKind): Applied
    requires record.incident in t.incidents
  {
    var written := SetSource(InsertObservation(t, obs, record.version, now), obs.id, record);
    ApplyLifecycleChange(written, record.incident, t.incidents[record.incident], obs.id, now, unchangedKind)
  }

  function Seen(stored: SourceRecord, obs: Observation, now: int): SourceRecord {
    stored.(links := obs.links.Over(stored.links), lastSeen := now)
  }

  /** An older observation than the canonical one: only its class can still count. */
  ghost function ApplyStale(t: Tables, stored: SourceRecord, obs: Observation, now: int): Applied
    requires stored.incident in t.incidents
  {
    var promoted := StrongerSolution(stored.solution, obs.solution);
    Touch(t, obs, Seen(stored, obs, now).(solution := promoted), now, Stale)
  }

  /** The payload already stored, perhaps seen again through a better channel. */
  ghost function ApplyRepeated(t: Tables, stored: SourceRecord, obs: Observation, now: int): Applied
    requires stored.incident in t.incidents
  {
    var promoted := StrongerSolution(stored.solution, obs.solution);
    var channel := if promoted != obs.solution then stored.channel else obs.channel;
    Touch(t, obs, Seen(stored, obs, now).(channel := channel, solution := promoted), now, Unchanged)
  }

  /** A solution of a weaker class than the one stored. */
  ghost function ApplyWeaker(t: Tables, stored: SourceRecord, obs: Observation, now: int): Applied
    requires stored.incident in t.incidents
  {
    Touch(t, obs, Seen(stored, obs, now), now, Unchanged)
  }

  /** The next version of a source record, with its observation. */
  function RewriteSource(t: Tables, stored: SourceRecord, obs: Observation, now: int): Tables {
    var version := stored.version + 1;
    var record := SourceRecord(stored.incident, obs.updatedAt, obs.payload, obs.fields, obs.links.Over(stored.links),
                               version, obs.channel, obs.solution, stored.firstSeen, now);
    InsertObservation(SetSource(t, obs.id, record), obs, version, now)
  }

  /** Whether a rewritten source is, or becomes, the canonical one of the incident it belongs to. */
  function TakesOver(t: Tables, incident: Uuid, existing: Incident, obs: Observation): Result<bool, Error> {
    if existing.preferred == obs.id then
      Success(true)
    else
      var preferredSolution :- PreferredSolution(t, incident);
      Success(PreferCanonicalSource(existing.preferred.provider, preferredSolution, obs.id.provider, obs.solution))
  }

  /** A material update of a source. */
  ghost function ApplyMaterial(t: Tables, stored: SourceRecord, obs: Observation, now: int): Applied
    requires stored.incident in t.incidents
  {
    var existing := t.incidents[stored.incident];
    var written := RewriteSource(t, stored, obs, now);
    var takesOver :- TakesOver(written, stored.incident, existing, obs);
    if takesOver then
      UpdateCanonicalFromSource(written, stored.incident, existing, obs, stored.version + 1, now)
    else
      ApplyLifecycleChange(written, stored.incident, existing, obs.id, now, Updated)
  }

  predicate IsStale(existing: Incident, obs: Observation) {
    obs.updatedAt < existing.updatedAt
  }

  predicate IsRepeated(existing: Incident, stored: SourceRecord, obs: Observation) {
    obs.updatedAt == existing.updatedAt && stored.payload == obs.payload
  }

  predicate IsWeaker(stored: SourceRecord, obs: Observation) {
    && obs.solution != RetractedSolution
    && StrongerSolution(stored.solution, obs.solution) == stored.solution
    && obs.solution != stored.solution
  }

  ghost function ApplyKnown(t: Tables, obs: Observation, now: int): Applied
    requires Known(t, obs.id)
  {
    var stored := t.sources[obs.id];
    var existing := t.incidents[stored.incident];
    if IsStale(existing, obs) then ApplyStale(t, stored, obs, now)
    else if IsRepeated(existing, stored, obs) then ApplyRepeated(t, stored, obs, now)
    else if IsWeaker(stored, obs) then ApplyWeaker(t, stored, obs, now)
    else ApplyMaterial(t, stored, obs, now)
  }

  ghost function ApplyFirst(geo: Geography, t: Tables, obs: Observation, minted: Uuid, now: int): Applied {
    match CorrelationDecision(geo, t, obs)
    case Some(best) => InsertCorrelatedSource(t, best.incident, obs, now)
    case None => InsertIncident(t, obs, minted, now)
  }

  /** One observation, with the identity that the database would give a new incident and the time of ingestion. */
  datatype Input = Input(obs: Observation, minted: Uuid, now: int)

  ghost function ApplyEvent(geo: Geography, t: Tables, input: Input): Applied {
    if Known(t, input.obs.id) then
      ApplyKnown(t, input.obs, input.now)
    else
      ApplyFirst(geo, t, input.obs, input.minted, input.now)
  }

  /** A whole batch in one transaction: the tables after it and the changes in order, or the first error. */
  ghost function ApplyAll(geo: Geography, t: Tables, inputs: seq<Input>): Result<(Tables, seq<Change>), Error> {
    if inputs == [] then
      Success((t, []))
    else
      var before :- ApplyAll(geo, t, inputs[..|inputs| - 1]);
      var outcome :- ApplyEvent(geo, before.0, inputs[|inputs| - 1]);
      Success((outcome.tables, before.1 + [outcome.change]))
  }

  datatype RunStats = RunStats(fetched: nat, inserted: nat, updated: nat, same: nat)

  function Count(stats: RunStats, kind: ChangeKind): RunStats {
    var fetched := stats.(fetched := stats.fetched + 1);
    match kind
    case Inserted => fetched.(inserted := stats.inserted + 1)
    case Updated => fetched.(updated := stats.updated + 1)
    case Unchanged => fetched.(same := stats.same + 1)
    case Stale => fetched.(same := stats.same + 1)
  }

  ghost function Tally(changes: seq<Change>): (stats: RunStats)
    ensures stats.fetched == |changes| == stats.inserted + stats.updated + stats.same
  {
    if changes == [] then RunStats(0, 0, 0, 0)
    else Count(Tally(changes[..|changes| - 1]), changes[|changes| - 1].kind)
  }

  /** How many of the changes are of the kind. */
  ghost function Of(changes: seq<Change>, kind: ChangeKind): nat {
    if changes == [] then 0
    else Of(changes[..|changes| - 1], kind) + if changes[|changes| - 1].kind == kind then 1 else 0
  }

  /** The tally counts insertions and updates each by themselves, and what changed nothing or came late together. */
  lemma {:induction false} TallyCountsKinds(changes: seq<Change>)
    ensures Tally(changes).inserted == Of(changes, Inserted) && Tally(changes).updated == Of(changes, Updated)
    ensures Tally(changes).same == Of(changes, Unchanged) + Of(changes, Stale)
  {
    if changes != [] {
      TallyCountsKinds(changes[..|changes| - 1]);
    }
  }
}
