/** The two event contracts and their checks (internal/eventstream/contracts.go). Deterministic identifiers are the
    values they are computed from, since the hash that computes them is taken to be injective. */
module Contracts {
  import opened Wrappers
  import opened Solutions
  import opened Correlation
  import opened IncidentTables

  const PROVIDER_OBSERVATIONS_TOPIC := "provider.observations.v1"
  const INCIDENT_CHANGES_TOPIC := "incident.changes.v1"
  const PROVIDER_OBSERVATION_SCHEMA := "provider.observation.v1"
  const INCIDENT_CHANGED_SCHEMA := "incident.changed.v1"

  datatype ContractError =
    | UnsupportedSchema
    | IncompleteEnvelope
    | InvalidMode
    | InvalidObservation
    | InvalidOperation
    | EligibilityMismatch
    | IncompleteIdentity

  /** The modes that an observation may come in. */
  const MODES: set<string> := {"baseline", "realtime", "backfill", "recovery"}

  predicate ValidIngestionMode(mode: string) {
    mode == "baseline" || mode == "realtime" || mode == "backfill" || mode == "recovery"
  }

  // ----- Provider observations -----

  /** What identifies a material provider observation; the solution class is not part of it. */
  datatype ObservationId = ObservationId(source: Identity, channel: string, updatedAt: int, payload: string)

  function DeterministicId(obs: Observation): ObservationId {
    ObservationId(obs.id, obs.channel, obs.updatedAt, obs.payload)
  }

  /** No identifier is the nil UUID; a production time of zero is the zero time. */
  datatype ProviderObservation = ProviderObservation(
    schema: string, id: Option<ObservationId>, producedAt: int, mode: string, baselineComplete: bool, observation: Observation)

  /** Identity and times are present, and the place is on Earth; a time of zero is the zero time. */
  predicate ValidObservation(obs: Observation) {
    && obs.id.provider != "" && obs.id.externalID != "" && obs.fields.occurredAt != 0 && obs.updatedAt != 0
    && -90.0 <= obs.fields.place.latitude <= 90.0 && -180.0 <= obs.fields.place.longitude <= 180.0
  }

  function NewProviderObservation(obs: Observation, mode: string, baselineComplete: bool, producedAt: int)
    : Result<ProviderObservation, ContractError>
  {
    if !ValidObservation(obs) then
      Failure(InvalidObservation)
    else if !ValidIngestionMode(mode) then
      Failure(InvalidMode)
    else
      Success(ProviderObservation(PROVIDER_OBSERVATION_SCHEMA, Some(DeterministicId(obs)), producedAt, mode,
                                  baselineComplete, obs))
  }

  function UnmarshalProviderObservation(message: ProviderObservation): Result<ProviderObservation, ContractError> {
    if message.schema != PROVIDER_OBSERVATION_SCHEMA then Failure(UnsupportedSchema)
    else if message.id.None? || message.producedAt == 0 || message.mode == "" then Failure(IncompleteEnvelope)
    else if !ValidIngestionMode(message.mode) then Failure(InvalidMode)
    else
      var _ :- EventOf(message);
      Success(message)
  }

  function EventOf(message: ProviderObservation): Result<Observation, ContractError> {
    if message.schema != PROVIDER_OBSERVATION_SCHEMA then Failure(UnsupportedSchema)
    else if !ValidObservation(message.observation) then Failure(InvalidObservation)
    else Success(message.observation)
  }

  // ----- Incident changes -----

  /** What identifies a version of an incident. */
  datatype ChangeId = ChangeId(incident: Uuid, version: nat)

  /** What a message keeps of an incident, which is all but its provenance; no identity is the nil UUID. */
  datatype Snapshot = Snapshot(incident: Option<Uuid>, preferred: Identity, updatedAt: int, fields: Fields, links: Links,
                               version: nat, lifecycle: Lifecycle, firstSeen: int, lastSeen: int)

  function CanonicalIncident(incident: Uuid, state: Incident): Snapshot {
    Snapshot(Some(incident), state.preferred, state.updatedAt, state.fields, state.links, state.version, state.lifecycle,
             state.firstSeen, state.lastSeen)
  }

  /** Equal but for the provenance, which stays in the database. */
  predicate SameButProvenance(a: Incident, b: Incident) {
    a == b.(sourceVersion := a.sourceVersion, channel := a.channel)
  }

  /** A change as a consumer receives it. */
  datatype ReceivedChange = ReceivedChange(kind: ChangeKind, incident: Uuid, previous: Option<Snapshot>, current: Snapshot)

  datatype IncidentChanged = IncidentChanged(
    schema: string, id: Option<ChangeId>, producedAt: int, operation: ChangeKind, mode: string, baselineComplete: bool,
    notificationsEligible: bool, previous: Option<Snapshot>, current: Snapshot)

  predicate Eligible(mode: string, baselineComplete: bool) {
    mode == "realtime" && baselineComplete
  }

  function NewIncidentChanged(change: Change, mode: string, baselineComplete: bool, producedAt: int): IncidentChanged {
    var previous := match change.previous case Some(state) => Some(CanonicalIncident(change.incident, state)) case None => None;
    IncidentChanged(INCIDENT_CHANGED_SCHEMA, Some(ChangeId(change.incident, change.current.version)), producedAt,
                    change.kind, mode, baselineComplete, Eligible(mode, baselineComplete), previous,
                    CanonicalIncident(change.incident, change.current))
  }

  function ChangeOf(message: IncidentChanged): Result<ReceivedChange, ContractError> {
    if message.schema != INCIDENT_CHANGED_SCHEMA then Failure(UnsupportedSchema)
    else if message.operation != Inserted && message.operation != Updated then Failure(InvalidOperation)
    else if !ValidIngestionMode(message.mode) then Failure(InvalidMode)
    else if message.notificationsEligible != Eligible(message.mode, message.baselineComplete) then Failure(EligibilityMismatch)
    else if message.current.incident.None? || message.current.version <= 0 then Failure(IncompleteIdentity)
    else
      Success(ReceivedChange(message.operation, message.current.incident.value, message.previous, message.current))
  }

  function UnmarshalIncidentChanged(message: IncidentChanged): Result<IncidentChanged, ContractError> {
    if message.schema != INCIDENT_CHANGED_SCHEMA then Failure(UnsupportedSchema)
    else if message.id.None? || message.producedAt == 0 then Failure(IncompleteEnvelope)
    else
      var _ :- ChangeOf(message);
      Success(message)
  }

  /** A consumer accepts a message, whoever made it, if and only if it is an insertion or update of a version of an incident,
      with an identifier, a time and a known mode, and eligible exactly if it came in realtime after a complete baseline. */
  lemma ChangeIsAcceptedExactlyWhen(message: IncidentChanged)
    ensures UnmarshalIncidentChanged(message).Success? <==>
            && message.schema == "incident.changed.v1" && message.id.Some? && message.producedAt != 0
            && message.operation in {Inserted, Updated} && message.mode in MODES
            && message.notificationsEligible == (message.mode == "realtime" && message.baselineComplete)
            && message.current.incident.Some? && message.current.version >= 1
    ensures UnmarshalIncidentChanged(message).Success? ==> UnmarshalIncidentChanged(message).value == message
  {
  }

  /** A consumer accepts an observation if and only if it has an identifier, a time and a known mode, names its source, has
      both times, and lies on Earth. */
  lemma ObservationIsAcceptedExactlyWhen(message: ProviderObservation)
    ensures var obs := message.observation;
            UnmarshalProviderObservation(message).Success? <==>
            && message.schema == "provider.observation.v1" && message.id.Some? && message.producedAt != 0
            && message.mode in MODES
            && |obs.id.provider| > 0 && |obs.id.externalID| > 0 && obs.fields.occurredAt != 0 && obs.updatedAt != 0
            && -90.0 <= obs.fields.place.latitude <= 90.0 && -180.0 <= obs.fields.place.longitude <= 180.0
    ensures UnmarshalProviderObservation(message).Success? ==> UnmarshalProviderObservation(message).value == message
  {
  }

  /** The message of a valid observation shows it, under an identifier that another observation has exactly if it is of the
      same source, channel, time and payload. */
  lemma MessagesAgreeExactlyWhen(a: Observation, b: Observation, mode: string, baselineComplete: bool, producedAt: int)
    requires NewProviderObservation(a, mode, baselineComplete, producedAt).Success?
    requires NewProviderObservation(b, mode, baselineComplete, producedAt).Success?
    ensures NewProviderObservation(a, mode, baselineComplete, producedAt).value.id
            == NewProviderObservation(b, mode, baselineComplete, producedAt).value.id <==>
            a.id == b.id && a.channel == b.channel && a.updatedAt == b.updatedAt && a.payload == b.payload
    ensures NewProviderObservation(a, mode, baselineComplete, producedAt).value.mode == mode
    ensures NewProviderObservation(a, mode, baselineComplete, producedAt).value.baselineComplete == baselineComplete
  {
  }

  /** A change is accepted exactly when a consumer may act on it, and then a consumer receives all of it but provenance. */
  lemma IncidentChangeRoundTrip(change: Change, mode: string, baselineComplete: bool, producedAt: int)
    ensures var message := NewIncidentChanged(change, mode, baselineComplete, producedAt);
            && (message.notificationsEligible <==> mode == "realtime" && baselineComplete)
            && message.mode == mode && message.baselineComplete == baselineComplete && message.operation == change.kind
            && message.id == Some(ChangeId(change.incident, change.current.version)) && message.producedAt == producedAt
            && (UnmarshalIncidentChanged(message).Success? <==>
                && producedAt != 0 && change.kind in {Inserted, Updated} && mode in MODES
                && change.current.version > 0)
            && (UnmarshalIncidentChanged(message).Success? ==>
                  var received := ChangeOf(message).value;
                  && received.kind == change.kind && received.incident == change.incident
                  && received.current == CanonicalIncident(change.incident, change.current)
                  && (received.previous.Some? <==> change.previous.Some?)
                  && (change.previous.Some? ==> received.previous.value == CanonicalIncident(change.incident, change.previous.value)))
  {
  }

  /** Each value of a snapshot is the incident's. */
  lemma SnapshotShowsTheIncident(incident: Uuid, e: Incident)
    ensures var s := CanonicalIncident(incident, e);
            && s.incident == Some(incident) && s.preferred == e.preferred && s.updatedAt == e.updatedAt
            && s.fields == e.fields && s.links == e.links && s.version == e.version && s.lifecycle == e.lifecycle
            && s.firstSeen == e.firstSeen && s.lastSeen == e.lastSeen
  {
  }

  /** Two states look alike to a consumer if and only if they differ in provenance at most. */
  lemma SnapshotKeepsAllButProvenance(incident: Uuid, a: Incident, b: Incident)
    ensures CanonicalIncident(incident, a) == CanonicalIncident(incident, b) <==> SameButProvenance(a, b)
  {
  }

  /** A valid observation survives its message, which is refused only for a production time of zero. */
  lemma ProviderObservationRoundTrip(obs: Observation, mode: string, baselineComplete: bool, producedAt: int)
    ensures NewProviderObservation(obs, mode, baselineComplete, producedAt).Success? <==>
            ValidObservation(obs) && ValidIngestionMode(mode)
    ensures ValidObservation(obs) && ValidIngestionMode(mode) ==>
              var message := NewProviderObservation(obs, mode, baselineComplete, producedAt).value;
              EventOf(message) == Success(obs) && (UnmarshalProviderObservation(message).Success? <==> producedAt != 0)
  {
  }
}
