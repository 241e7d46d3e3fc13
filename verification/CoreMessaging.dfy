/** The core's inbox and outbox as values: what one message, and each outbox statement, does to them
    (internal/repository/postgres/messaging.go). */
module CoreMessaging {
  import opened Wrappers
  import opened Correlation
  import opened IncidentTables
  import Contracts
  import opened IncidentInvariants
  import opened IncidentHistory

  type Worker = string

  datatype Position = Position(topic: string, partition: int, offset: int)

  datatype MessageError = InvalidPosition | Envelope(reason: Contracts.ContractError) | PositionConflict | Storage(cause: Error)

  /** A row of core_message_inbox; `input` is what the transaction that wrote it applied. */
  datatype InboxRow = InboxRow(id: Contracts.ObservationId, position: Position, input: Input)

  /** A row of core_outbox_messages; the key is the incident's identity. */
  datatype OutboxRow = OutboxRow(message: Contracts.IncidentChanged, key: Uuid, attempts: nat, nextAttemptAt: int,
                                 createdAt: int, lockedAt: Option<int>, lockedBy: Option<Worker>, publishedAt: Option<int>)

  type Outbox = map<Contracts.ChangeId, OutboxRow>

  datatype Core = Core(tables: Tables, inbox: seq<InboxRow>, outbox: Outbox)

  // ----- Consuming observations -----

  predicate Conflicts(inbox: seq<InboxRow>, id: Contracts.ObservationId, position: Position) {
    exists row <- inbox :: row.id == id || row.position == position
  }

  /** After a conflict: whether the message was stored at this position, or else at any. */
  predicate IsDuplicate(inbox: seq<InboxRow>, id: Contracts.ObservationId, position: Position) {
    if exists row <- inbox :: row.position == position then
      exists row <- inbox :: row.position == position && row.id == id
    else
      exists row <- inbox :: row.id == id
  }

  function EnqueueIncidentChange(outbox: Outbox, change: Change, mode: string, baselineComplete: bool, now: int): Outbox {
    var message := Contracts.NewIncidentChanged(change, mode, baselineComplete, now);
    var id := message.id.value;
    if id in outbox then
      outbox
    else
      outbox[id := OutboxRow(message, change.incident, 0, now, now, None, None, None)]
  }

  function Publishable(outbox: Outbox, change: Change, mode: string, baselineComplete: bool, now: int): Outbox {
    if change.kind == Inserted || change.kind == Updated then
      EnqueueIncidentChange(outbox, change, mode, baselineComplete, now)
    else
      outbox
  }

  /** One message in one transaction: the new state and whether it was processed or found to be a duplicate. */
  ghost function ApplyProviderMessage(geo: Geography, core: Core, position: Position, message: Contracts.ProviderObservation,
                                      minted: Uuid, receivedAt: int): Result<(Core, bool), MessageError>
  {
    if position.topic != Contracts.PROVIDER_OBSERVATIONS_TOPIC || position.partition < 0 || position.offset < 0 then
      Failure(InvalidPosition)
    else if message.id.None? || message.producedAt == 0 || message.mode == "" then
      Failure(Envelope(Contracts.IncompleteEnvelope))
    else if Contracts.EventOf(message).Failure? then
      Failure(Envelope(Contracts.EventOf(message).error))
    else if Conflicts(core.inbox, message.id.value, position) then
      if IsDuplicate(core.inbox, message.id.value, position) then Success((core, false)) else Failure(PositionConflict)
    else
      var input := Input(message.observation, minted, receivedAt);
      match ApplyEvent(geo, core.tables, input)
      case Failure(error) => Failure(Storage(error))
      case Success(outcome) =>
        var outbox := Publishable(core.outbox, outcome.change, message.mode, message.baselineComplete, receivedAt);
        Success((Core(outcome.tables, core.inbox + [InboxRow(message.id.value, position, input)], outbox), true))
  }

  // ----- The outbox -----

  predicate Claimable(row: OutboxRow, lockTimeout: int, now: int) {
    && row.publishedAt.None? && row.nextAttemptAt <= now
    && (row.lockedAt.None? || row.lockedAt.value < now - lockTimeout)
  }

  function Claimed(row: OutboxRow, worker: Worker, now: int): OutboxRow {
    row.(lockedAt := Some(now), lockedBy := Some(worker))
  }

  predicate HeldBy(row: OutboxRow, worker: Worker) {
    row.lockedBy == Some(worker) && row.publishedAt.None?
  }

  function Completed(row: OutboxRow, now: int): OutboxRow {
    row.(publishedAt := Some(now), lockedAt := None, lockedBy := None, attempts := row.attempts + 1)
  }

  function Failed(row: OutboxRow, nextAttemptAt: int): OutboxRow {
    row.(lockedAt := None, lockedBy := None, attempts := row.attempts + 1, nextAttemptAt := nextAttemptAt)
  }

  function ClaimAll(outbox: Outbox, ids: set<Contracts.ChangeId>, worker: Worker, now: int): Outbox {
    map id | id in outbox :: if id in ids then Claimed(outbox[id], worker, now) else outbox[id]
  }

  /** Rows are claimed by next attempt, then by creation. */
  predicate DueBefore(a: OutboxRow, b: OutboxRow) {
    a.nextAttemptAt < b.nextAttemptAt || (a.nextAttemptAt == b.nextAttemptAt && a.createdAt <= b.createdAt)
  }

  /** `ids` is a claim of at most `batch` rows: all claimable ones, or the most overdue `batch` of them, but for the rows
      that other transactions keep busy. */
  ghost predicate IsClaim(outbox: Outbox, ids: set<Contracts.ChangeId>, busy: set<Contracts.ChangeId>, batch: nat,
                          lockTimeout: int, now: int)
  {
    && ids <= outbox.Keys - busy && |ids| <= batch
    && (forall id <- ids :: Claimable(outbox[id], lockTimeout, now))
    && (forall id <- outbox :: Claimable(outbox[id], lockTimeout, now) && id !in ids && id !in busy ==>
          |ids| == batch && forall chosen <- ids :: DueBefore(outbox[chosen], outbox[id]))
  }

  /** Not published, its next attempt come, and not under a lock that is younger than the timeout. */
  predicate IsWaiting(row: OutboxRow, lockTimeout: int, now: int) {
    row.publishedAt.None? && row.nextAttemptAt <= now && (row.lockedAt.Some? ==> row.lockedAt.value + lockTimeout < now)
  }

  /** A claim takes waiting rows only, and leaves one behind only if it is full of rows that go first: by next attempt, then
      by creation. */
  ghost predicate TakesTheMostOverdue(outbox: Outbox, ids: set<Contracts.ChangeId>, busy: set<Contracts.ChangeId>, batch: nat,
                                      lockTimeout: int, now: int)
  {
    && |ids| <= batch
    && (forall id <- ids :: id in outbox && id !in busy && IsWaiting(outbox[id], lockTimeout, now))
    && (forall id <- outbox :: id !in ids && id !in busy && IsWaiting(outbox[id], lockTimeout, now) ==>
          && |ids| == batch
          && forall chosen <- ids ::
               if outbox[chosen].nextAttemptAt != outbox[id].nextAttemptAt then
                 outbox[chosen].nextAttemptAt < outbox[id].nextAttemptAt
               else
                 outbox[chosen].createdAt <= outbox[id].createdAt)
  }

  lemma ClaimTakesTheMostOverdue(outbox: Outbox, ids: set<Contracts.ChangeId>, busy: set<Contracts.ChangeId>, batch: nat,
                                 lockTimeout: int, now: int)
    requires IsClaim(outbox, ids, busy, batch, lockTimeout, now)
    ensures TakesTheMostOverdue(outbox, ids, busy, batch, lockTimeout, now)
  {
    forall id | id in outbox ensures Claimable(outbox[id], lockTimeout, now) <==> IsWaiting(outbox[id], lockTimeout, now) {
    }
  }

  // ----- What becomes of a message -----

  ghost predicate IsStoredAt(inbox: seq<InboxRow>, position: Position) {
    exists row <- inbox :: row.position == position
  }

  ghost predicate IsStored(inbox: seq<InboxRow>, id: Contracts.ObservationId) {
    exists row <- inbox :: row.id == id
  }

  /** Of the messages that consumers accept, one whose position holds another is refused, one that is stored, here or
      elsewhere, is skipped, and any other is applied. */
  lemma MessageIsAppliedExactlyWhen(geo: Geography, core: Core, position: Position, message: Contracts.ProviderObservation,
                                    minted: Uuid, receivedAt: int)
    requires Contracts.UnmarshalProviderObservation(message).Success? && position.topic == "provider.observations.v1"
    requires position.partition >= 0 && position.offset >= 0 && DistinctInbox(core.inbox)
    ensures var id, result := message.id.value, ApplyProviderMessage(geo, core, position, message, minted, receivedAt);
            && (result == Failure(PositionConflict) <==>
                exists row <- core.inbox :: row.position == position && row.id != id)
            && (result.Success? && !result.value.1 <==>
                if IsStoredAt(core.inbox, position) then InboxHolds(core.inbox, id, position) else IsStored(core.inbox, id))
            && (result.Success? && !result.value.1 ==> result.value.0 == core)
            && (!IsStoredAt(core.inbox, position) && !IsStored(core.inbox, id) ==>
                  (result.Success? <==> ApplyEvent(geo, core.tables, Input(message.observation, minted, receivedAt)).Success?))
  {
    if exists row <- core.inbox :: row.position == position && row.id != message.id.value {
      var row :| row in core.inbox && row.position == position && row.id != message.id.value;
      forall other | other in core.inbox && other.position == position ensures other == row {
        SamePositionSameRow(core.inbox, row, other);
      }
    }
  }

  ghost predicate InboxHolds(inbox: seq<InboxRow>, id: Contracts.ObservationId, position: Position) {
    exists row <- inbox :: row.position == position && row.id == id
  }

  lemma SamePositionSameRow(inbox: seq<InboxRow>, a: InboxRow, b: InboxRow)
    requires DistinctInbox(inbox) && a in inbox && b in inbox && a.position == b.position
    ensures a == b
  {
    var i :| 0 <= i < |inbox| && inbox[i] == a;
    var j :| 0 <= j < |inbox| && inbox[j] == b;
  }

  /** A new outbox row waits to be published at once, and has never been tried. */
  lemma NewRowWaits(outbox: Outbox, change: Change, mode: string, baselineComplete: bool, now: int, id: Contracts.ChangeId,
                    lockTimeout: int)
    requires id !in outbox && id in Publishable(outbox, change, mode, baselineComplete, now)
    ensures var row := Publishable(outbox, change, mode, baselineComplete, now)[id];
            IsWaiting(row, lockTimeout, now) && row.attempts == 0 && row.createdAt == now && row.lockedBy.None?
            && row.message.producedAt == now && id == Contracts.ChangeId(change.incident, change.current.version)
  {
  }

  // ----- What a message leaves behind -----

  ghost predicate Versioned(tables: Tables, id: Contracts.ChangeId) {
    id.incident in tables.incidents && 1 <= id.version <= tables.incidents[id.incident].version
  }

  /** The row carries a change of the version it is filed under, which every consumer will accept. */
  ghost predicate WellFormed(id: Contracts.ChangeId, row: OutboxRow) {
    && row.key == id.incident
    && row.message.id == Some(id)
    && Contracts.UnmarshalIncidentChanged(row.message).Success?
    && row.message.current.incident == Some(id.incident) && row.message.current.version == id.version
  }

  /** The message of an incident's present version shows the incident, but for the time it was last seen. */
  ghost predicate ShowsIncident(message: Contracts.IncidentChanged, incident: Uuid, e: Incident) {
    message.current == Contracts.CanonicalIncident(incident, e.(lastSeen := message.current.lastSeen))
  }

  ghost predicate NewestIsShown(tables: Tables, outbox: Outbox) {
    forall incident <- tables.incidents ::
      var id := Contracts.ChangeId(incident, tables.incidents[incident].version);
      id in outbox ==> ShowsIncident(outbox[id].message, incident, tables.incidents[incident])
  }

  /** The outbox holds exactly the versions 1..current of every incident, each in a message that consumers accept, and the
      newest of them shows the incident as it is. */
  ghost predicate OutboxIsComplete(core: Core) {
    && NewestIsShown(core.tables, core.outbox)
    && (forall id :: id in core.outbox <==> Versioned(core.tables, id))
    && (forall id <- core.outbox :: WellFormed(id, core.outbox[id]))
  }

  lemma PublishableShowsNewest(t: Tables, next: Tables, outbox: Outbox, change: Change, id: Identity,
                               mode: string, baselineComplete: bool, now: int)
    requires Step(t, next, change, id) && NewestIsShown(t, outbox)
    requires forall id <- outbox :: Versioned(t, id)
    ensures NewestIsShown(next, Publishable(outbox, change, mode, baselineComplete, now))
  {
    var after := Publishable(outbox, change, mode, baselineComplete, now);
    forall incident | incident in next.incidents
      ensures var version := Contracts.ChangeId(incident, next.incidents[incident].version);
              version in after ==> ShowsIncident(after[version].message, incident, next.incidents[incident])
    {
      if incident != change.incident {
        assert next.incidents[incident] == t.incidents[incident];
      }
    }
  }

  lemma PublishableHoldsVersions(t: Tables, next: Tables, outbox: Outbox, change: Change, id: Identity,
                                 mode: string, baselineComplete: bool, now: int)
    requires Step(t, next, change, id) && change.current.version >= 1
    requires forall id :: id in outbox <==> Versioned(t, id)
    ensures forall id :: id in Publishable(outbox, change, mode, baselineComplete, now) <==> Versioned(next, id)
  {
    forall id ensures id in Publishable(outbox, change, mode, baselineComplete, now) <==> Versioned(next, id) {
      assert id in outbox <==> Versioned(t, id);
    }
  }

  lemma PublishableIsWellFormed(outbox: Outbox, change: Change, mode: string, baselineComplete: bool, now: int)
    requires change.current.version >= 1 && Contracts.ValidIngestionMode(mode) && now != 0
    requires forall id <- outbox :: WellFormed(id, outbox[id])
    ensures var after := Publishable(outbox, change, mode, baselineComplete, now); forall id <- after :: WellFormed(id, after[id])
  {
    Contracts.IncidentChangeRoundTrip(change, mode, baselineComplete, now);
  }

  lemma PublishableKeepsComplete(t: Tables, next: Tables, outbox: Outbox, change: Change, id: Identity,
                                 mode: string, baselineComplete: bool, now: int)
    requires Step(t, next, change, id) && change.current.version >= 1
    requires OutboxIsComplete(Core(t, [], outbox)) && Contracts.ValidIngestionMode(mode) && now != 0
    ensures OutboxIsComplete(Core(next, [], Publishable(outbox, change, mode, baselineComplete, now)))
  {
    PublishableShowsNewest(t, next, outbox, change, id, mode, baselineComplete, now);
    PublishableHoldsVersions(t, next, outbox, change, id, mode, baselineComplete, now);
    PublishableIsWellFormed(outbox, change, mode, baselineComplete, now);
  }

  lemma KnownVersionIsNotPublished(t: Tables, outbox: Outbox, change: Change, mode: string, baselineComplete: bool, now: int)
    requires OutboxIsComplete(Core(t, [], outbox)) && change.incident in t.incidents
    requires 1 <= change.current.version <= t.incidents[change.incident].version
    ensures Publishable(outbox, change, mode, baselineComplete, now) == outbox
  {
    assert Versioned(t, Contracts.ChangeId(change.incident, change.current.version));
  }

  /** Replaying an observation right after it was applied adds no outbox row either. */
  lemma ReplayPublishesNothing(geo: Geography, t: Tables, input: Input, again: Input, outbox: Outbox,
                               mode: string, baselineComplete: bool, now: int)
    requires Consistent(t) && ApplyEvent(geo, t, input).Success? && again.obs == input.obs
    requires OutboxIsComplete(Core(ApplyEvent(geo, t, input).value.tables, [], outbox))
    ensures var next := ApplyEvent(geo, t, input).value.tables;
            && ApplyEvent(geo, next, again).Success?
            && Publishable(outbox, ApplyEvent(geo, next, again).value.change, mode, baselineComplete, now) == outbox
  {
    ReplayChangesNothing(geo, t, input, again);
    ApplyEventKeepsConsistency(geo, t, input);
    var next := ApplyEvent(geo, t, input).value.tables;
    KnownVersionIsNotPublished(next, outbox, ApplyEvent(geo, next, again).value.change, mode, baselineComplete, now);
  }

  /** Core history: the tables are the fold of the inputs that the inbox recorded, in its order. */
  ghost function Inputs(inbox: seq<InboxRow>): seq<Input> {
    seq(|inbox|, i requires 0 <= i < |inbox| => inbox[i].input)
  }

  ghost predicate IsFold(geo: Geography, core: Core) {
    core.tables == Run(geo, EMPTY, Inputs(core.inbox))
  }

  ghost predicate DistinctInbox(inbox: seq<InboxRow>) {
    forall i, j :: 0 <= i < j < |inbox| ==> inbox[i].id != inbox[j].id && inbox[i].position != inbox[j].position
  }

  ghost predicate CoreInvariant(geo: Geography, core: Core) {
    IsFold(geo, core) && DistinctInbox(core.inbox) && OutboxIsComplete(core)
  }

  lemma FoldExtends(geo: Geography, inbox: seq<InboxRow>, row: InboxRow)
    ensures Run(geo, EMPTY, Inputs(inbox + [row])) == Committed(geo, Run(geo, EMPTY, Inputs(inbox)), row.input)
  {
    assert Inputs(inbox + [row]) == Inputs(inbox) + [row.input];
    assert Inputs(inbox + [row])[..|inbox|] == Inputs(inbox);
  }

  lemma ProcessedKeepsComplete(geo: Geography, core: Core, row: InboxRow, mode: string, baselineComplete: bool)
    requires IsFold(geo, core) && OutboxIsComplete(core) && ApplyEvent(geo, core.tables, row.input).Success?
    requires Contracts.ValidIngestionMode(mode) && row.input.now != 0
    ensures var outcome := ApplyEvent(geo, core.tables, row.input).value;
            OutboxIsComplete(Core(outcome.tables, core.inbox + [row],
                                  Publishable(core.outbox, outcome.change, mode, baselineComplete, row.input.now)))
  {
    EveryReachableStoreIsConsistent(geo, Inputs(core.inbox));
    var outcome := ApplyEvent(geo, core.tables, row.input).value;
    ApplyEventKeepsConsistency(geo, core.tables, row.input);
    StepReportsVersion(core.tables, outcome.tables, outcome.change, row.input.obs.id);
    PublishableKeepsComplete(core.tables, outcome.tables, core.outbox, outcome.change, row.input.obs.id,
                             mode, baselineComplete, row.input.now);
  }

  lemma StepReportsVersion(t: Tables, next: Tables, change: Change, id: Identity)
    requires Audited(next) && Step(t, next, change, id)
    ensures change.current.version >= 1
  {
  }

  lemma ProcessedKeepsFold(geo: Geography, core: Core, row: InboxRow, outbox: Outbox)
    requires IsFold(geo, core) && ApplyEvent(geo, core.tables, row.input).Success?
    ensures IsFold(geo, Core(ApplyEvent(geo, core.tables, row.input).value.tables, core.inbox + [row], outbox))
  {
    FoldExtends(geo, core.inbox, row);
  }

  lemma ProcessedKeepsInbox(inbox: seq<InboxRow>, row: InboxRow)
    requires DistinctInbox(inbox) && !Conflicts(inbox, row.id, row.position)
    ensures DistinctInbox(inbox + [row]) && row in inbox + [row]
  {
    assert (inbox + [row])[|inbox|] == row;
  }

  ghost predicate OutboxGrows(outbox: Outbox, next: Outbox) {
    && (forall id <- outbox :: id in next && next[id] == outbox[id])
    && (forall id <- next :: id !in outbox ==>
          next[id].publishedAt.None? && next[id].lockedBy.None? && next[id].lockedAt.None?)
  }

  lemma ProcessedKeepsInvariant(geo: Geography, core: Core, row: InboxRow, mode: string, baselineComplete: bool, next: Core)
    requires CoreInvariant(geo, core) && ApplyEvent(geo, core.tables, row.input).Success?
    requires Contracts.ValidIngestionMode(mode) && row.input.now != 0 && !Conflicts(core.inbox, row.id, row.position)
    requires var outcome := ApplyEvent(geo, core.tables, row.input).value;
             next == Core(outcome.tables, core.inbox + [row],
                          Publishable(core.outbox, outcome.change, mode, baselineComplete, row.input.now))
    ensures CoreInvariant(geo, next) && row in next.inbox
  {
    ProcessedKeepsComplete(geo, core, row, mode, baselineComplete);
    ProcessedKeepsFold(geo, core, row, next.outbox);
    ProcessedKeepsInbox(core.inbox, row);
  }

  /** A message is skipped, and its identifier is in the inbox, or it is recorded and applied. */
  lemma ApplyProviderMessageCases(geo: Geography, core: Core, position: Position, message: Contracts.ProviderObservation,
                                  minted: Uuid, receivedAt: int)
    requires ApplyProviderMessage(geo, core, position, message, minted, receivedAt).Success?
    ensures message.id.Some?
    ensures var (next, processed) := ApplyProviderMessage(geo, core, position, message, minted, receivedAt).value;
            if processed then
              var input := Input(message.observation, minted, receivedAt);
              && !Conflicts(core.inbox, message.id.value, position) && ApplyEvent(geo, core.tables, input).Success?
              && var outcome := ApplyEvent(geo, core.tables, input).value;
                 next == Core(outcome.tables, core.inbox + [InboxRow(message.id.value, position, input)],
                              Publishable(core.outbox, outcome.change, message.mode, message.baselineComplete, receivedAt))
            else
              next == core && exists row <- next.inbox :: row.id == message.id.value
  {
  }

  lemma PublishableGrows(outbox: Outbox, change: Change, mode: string, baselineComplete: bool, now: int)
    ensures OutboxGrows(outbox, Publishable(outbox, change, mode, baselineComplete, now))
  {
  }

  /** Applying a message that consumers accept keeps the core's invariant, and records the message. */
  lemma ApplyProviderMessageKeepsInvariant(geo: Geography, core: Core, position: Position,
                                           message: Contracts.ProviderObservation, minted: Uuid, receivedAt: int)
    requires CoreInvariant(geo, core) && receivedAt != 0
    requires Contracts.UnmarshalProviderObservation(message).Success?
    requires ApplyProviderMessage(geo, core, position, message, minted, receivedAt).Success?
    ensures var (next, processed) := ApplyProviderMessage(geo, core, position, message, minted, receivedAt).value;
            && CoreInvariant(geo, next)
            && (exists row <- next.inbox :: row.id == message.id.value)
            && (if processed then
                  next.inbox == core.inbox + [InboxRow(message.id.value, position, Input(message.observation, minted, receivedAt))]
                else next == core)
            && OutboxGrows(core.outbox, next.outbox)
  {
    var (next, processed) := ApplyProviderMessage(geo, core, position, message, minted, receivedAt).value;
    ApplyProviderMessageCases(geo, core, position, message, minted, receivedAt);
    if processed {
      PublishableGrows(core.outbox, ApplyEvent(geo, core.tables, Input(message.observation, minted, receivedAt)).value.change,
                       message.mode, message.baselineComplete, receivedAt);
      var row := InboxRow(message.id.value, position, Input(message.observation, minted, receivedAt));
      ProcessedKeepsInvariant(geo, core, row, message.mode, message.baselineComplete, next);
    }
  }
}
