/** The whole path of an observation: provider log, core transaction, outbox, relays, change log, notification inbox
    (internal/core/consumer.go, internal/core/outbox.go, internal/notification/consumer.go and
    internal/repository/postgres/messaging.go). Consumers and relays are any number, and may stop at any point. */
module Pipelines {
  import opened Wrappers
  import opened Correlation
  import opened IncidentTables
  import opened Contracts
  import opened CoreMessaging
  import opened OutboxRelay
  import opened ConsumerGroups

  datatype ProviderRecord = ProviderRecord(key: string, message: ProviderObservation)

  datatype ChangeRecord = ChangeRecord(key: Uuid, message: IncidentChanged)

  /** A row of notification_message_inbox, which its transaction writes together with the notifications. */
  datatype NotificationRow = NotificationRow(id: ChangeId, position: Position)

  datatype Pipeline = Pipeline(observations: Group<ProviderRecord>, tables: Tables, inbox: seq<InboxRow>, relays: Relays,
                               changes: Group<ChangeRecord>, notifications: seq<NotificationRow>)

  datatype Setting = Setting(geo: Geography, lockTimeout: nat)

  function CoreOf(p: Pipeline): Core {
    Core(p.tables, p.inbox, p.relays.rows)
  }

  // ----- One notification message -----

  predicate NotificationConflicts(rows: seq<NotificationRow>, id: ChangeId, position: Position) {
    exists row <- rows :: row.id == id || row.position == position
  }

  predicate IsDuplicateNotification(rows: seq<NotificationRow>, id: ChangeId, position: Position) {
    if exists row <- rows :: row.position == position then
      exists row <- rows :: row.position == position && row.id == id
    else
      exists row <- rows :: row.id == id
  }

  /** The inbox after one message, and whether its notifications were made now. */
  function ApplyIncidentMessage(rows: seq<NotificationRow>, position: Position, message: IncidentChanged)
    : Result<(seq<NotificationRow>, bool), MessageError>
  {
    if position.topic != INCIDENT_CHANGES_TOPIC || position.partition < 0 || position.offset < 0 then
      Failure(InvalidPosition)
    else if message.id.None? || message.producedAt == 0 then
      Failure(Envelope(IncompleteEnvelope))
    else if ChangeOf(message).Failure? then
      Failure(Envelope(ChangeOf(message).error))
    else if NotificationConflicts(rows, message.id.value, position) then
      if IsDuplicateNotification(rows, message.id.value, position) then Success((rows, false)) else Failure(PositionConflict)
    else
      Success((rows + [NotificationRow(message.id.value, position)], true))
  }

  // ----- Steps -----

  datatype Event =
    | Produce(partition: nat, record: ProviderRecord)
    | ReadObservations(session: nat, partition: nat)
    | ConsumeObservation(session: nat, minted: Uuid, now: int)
    | CommitObservation(session: nat)
    | StopObservations(session: nat)
    | Relay(action: Action)
    | Publish(worker: Worker, id: ChangeId, partition: nat, acknowledged: bool)
    | ReadChanges(session: nat, partition: nat)
    | ConsumeChange(session: nat)
    | CommitChange(session: nat)
    | StopChanges(session: nat)

  function ExpectedKey(message: ProviderObservation): string {
    message.observation.id.provider + ":" + message.observation.id.externalID
  }

  predicate Consumable(record: ProviderRecord) {
    UnmarshalProviderObservation(record.message).Success? && record.key == ExpectedKey(record.message)
  }

  predicate ConsumableChange(record: ChangeRecord) {
    UnmarshalIncidentChanged(record.message).Success? && record.message.current.incident == Some(record.key)
  }

  function ObservationPosition(s: Session): Position {
    Position(PROVIDER_OBSERVATIONS_TOPIC, s.partition, s.next)
  }

  function ChangePosition(s: Session): Position {
    Position(INCIDENT_CHANGES_TOPIC, s.partition, s.next)
  }

  /** A consumer applies the next observation in one transaction, or stops on an error. No clock shows the zero time. */
  ghost function Consume(setting: Setting, p: Pipeline, session: nat, minted: Uuid, now: int): Pipeline {
    if !p.observations.CanApply(session) || now == 0 then
      p
    else
      var record := p.observations.Current(session);
      var stopped := p.(observations := p.observations.Drop(session));
      if !Consumable(record) then
        stopped
      else
        match ApplyProviderMessage(setting.geo, CoreOf(p), ObservationPosition(p.observations.sessions[session]),
                                   record.message, minted, now)
        case Failure(_) => stopped
        case Success((core, _)) =>
          p.(tables := core.tables, inbox := core.inbox, relays := p.relays.(rows := core.outbox),
             observations := p.observations.MarkApplied(session))
  }

  function ConsumeNotification(p: Pipeline, session: nat): Pipeline {
    if !p.changes.CanApply(session) then
      p
    else
      var record := p.changes.Current(session);
      var stopped := p.(changes := p.changes.Drop(session));
      if !ConsumableChange(record) then
        stopped
      else
        match ApplyIncidentMessage(p.notifications, ChangePosition(p.changes.sessions[session]), record.message)
        case Failure(_) => stopped
        case Success((rows, _)) => p.(notifications := rows, changes := p.changes.MarkApplied(session))
  }

  function RecordOf(row: OutboxRow): ChangeRecord {
    ChangeRecord(row.key, row.message)
  }

  /** The broker appends what a relay publishes; the relay may or may not learn of it. */
  ghost function PublishRow(setting: Setting, p: Pipeline, worker: Worker, id: ChangeId, partition: nat, acknowledged: bool): Pipeline {
    if Grip(worker, id) !in p.relays.grips || id !in p.relays.rows then
      p
    else
      p.(changes := p.changes.Append(partition, RecordOf(p.relays.rows[id])),
         relays := if acknowledged then Act(setting.lockTimeout, p.relays, Acknowledge(worker, id)) else p.relays)
  }

  /** The relay steps that neither the core's transaction nor the broker makes. */
  predicate OwnStep(action: Action) {
    action.Claim? || action.Complete? || action.Fail? || action.Crash?
  }

  ghost function Next(setting: Setting, p: Pipeline, event: Event): Pipeline {
    match event
    case Produce(partition, record) => p.(observations := p.observations.Append(partition, record))
    case ReadObservations(session, partition) => p.(observations := p.observations.Assign(session, partition))
    case ConsumeObservation(session, minted, now) => Consume(setting, p, session, minted, now)
    case CommitObservation(session) =>
      if session in p.observations.sessions && p.observations.sessions[session].applied then
        p.(observations := p.observations.Commit(session))
      else
        p
    case StopObservations(session) => p.(observations := p.observations.Drop(session))
    case Relay(action) =>
      if OwnStep(action) then p.(relays := Act(setting.lockTimeout, p.relays, action)) else p
    case Publish(worker, id, partition, acknowledged) => PublishRow(setting, p, worker, id, partition, acknowledged)
    case ReadChanges(session, partition) => p.(changes := p.changes.Assign(session, partition))
    case ConsumeChange(session) => ConsumeNotification(p, session)
    case CommitChange(session) =>
      if session in p.changes.sessions && p.changes.sessions[session].applied then
        p.(changes := p.changes.Commit(session))
      else
        p
    case StopChanges(session) => p.(changes := p.changes.Drop(session))
  }

  ghost function Execute(setting: Setting, p: Pipeline, events: seq<Event>): Pipeline {
    if events == [] then p
    else Next(setting, Execute(setting, p, events[..|events| - 1]), events[|events| - 1])
  }

  const START: Pipeline := Pipeline(Group(map[], map[], map[]), EMPTY, [], IDLE, Group(map[], map[], map[]), [])

  // ----- The invariant -----

  function ObservationIdOf(record: ProviderRecord): Option<ObservationId> {
    record.message.id
  }

  function ChangeIdOf(record: ChangeRecord): Option<ChangeId> {
    record.message.id
  }

  ghost function Consumed(inbox: seq<InboxRow>): iset<Option<ObservationId>> {
    iset row | row in inbox :: Some(row.id)
  }

  ghost function Notified(rows: seq<NotificationRow>): iset<Option<ChangeId>> {
    iset row | row in rows :: Some(row.id)
  }

  /** The position holds a record with this message identifier. */
  predicate Holds<R, I(==)>(g: Group<R>, idOf: R -> Option<I>, topic: string, position: Position, id: I) {
    && position.topic == topic && 0 <= position.partition && 0 <= position.offset
    && position.offset < |g.Log(position.partition)|
    && idOf(g.Log(position.partition)[position.offset]) == Some(id)
  }

  /** The position holds the observation that was applied. */
  predicate HoldsObservation(g: Group<ProviderRecord>, position: Position, obs: Observation) {
    && 0 <= position.partition && 0 <= position.offset < |g.Log(position.partition)|
    && g.Log(position.partition)[position.offset].message.observation == obs
  }

  /** What was applied is what the log holds, and every record before the one that a message was first processed at had
      been processed by then. */
  ghost predicate LogOrderIsKept(p: Pipeline) {
    forall k | 0 <= k < |p.inbox| ::
      && HoldsObservation(p.observations, p.inbox[k].position, p.inbox[k].input.obs)
      && Holds(p.observations, ObservationIdOf, PROVIDER_OBSERVATIONS_TOPIC, p.inbox[k].position, p.inbox[k].id)
      && DoneUpTo(p.observations.Log(p.inbox[k].position.partition), ObservationIdOf, Consumed(p.inbox[..k]),
                  p.inbox[k].position.offset)
  }

  ghost predicate CoreSide(setting: Setting, p: Pipeline) {
    && CoreInvariant(setting.geo, CoreOf(p))
    && Tracks(p.observations, ObservationIdOf, Consumed(p.inbox))
    && LogOrderIsKept(p)
  }

  predicate InLog(g: Group<ChangeRecord>, partition: nat, offset: nat, id: ChangeId) {
    offset < |g.Log(partition)| && g.Log(partition)[offset].message.id == Some(id)
  }

  predicate Carries(rows: Outbox, record: ChangeRecord) {
    exists id <- rows.Keys :: record == RecordOf(rows[id])
  }

  /** Whatever is in the change log was in the outbox. */
  ghost predicate LogCarriesRows(p: Pipeline) {
    forall partition: nat, offset: nat :: offset < |p.changes.Log(partition)| ==>
      Carries(p.relays.rows, p.changes.Log(partition)[offset])
  }

  /** Whatever the broker acknowledged is in the change log. */
  ghost predicate AcknowledgedIsLogged(p: Pipeline) {
    forall id <- p.relays.acknowledged :: exists partition: nat, offset: nat :: InLog(p.changes, partition, offset, id)
  }

  ghost predicate RelaySide(setting: Setting, p: Pipeline) {
    Fenced(setting.lockTimeout, p.relays) && LogCarriesRows(p) && AcknowledgedIsLogged(p)
  }

  /** No version of an incident is notified twice. */
  ghost predicate NotifiedOnce(rows: seq<NotificationRow>) {
    forall i, j :: 0 <= i < j < |rows| ==> rows[i].id != rows[j].id
  }

  ghost predicate NotificationsArePlaced(p: Pipeline) {
    forall row <- p.notifications ::
      Holds(p.changes, ChangeIdOf, INCIDENT_CHANGES_TOPIC, row.position, row.id) && row.id in p.relays.rows
  }

  ghost predicate NotificationSide(p: Pipeline) {
    && Tracks(p.changes, ChangeIdOf, Notified(p.notifications))
    && NotifiedOnce(p.notifications)
    && NotificationsArePlaced(p)
  }

  ghost predicate PipelineInvariant(setting: Setting, p: Pipeline) {
    CoreSide(setting, p) && RelaySide(setting, p) && NotificationSide(p)
  }
}
