/** Every run of the pipeline keeps its invariant; a drained one has notified every version of every incident exactly
    once. */
module PipelineTheorems {
  import opened Wrappers
  import opened Correlation
  import opened IncidentTables
  import opened IncidentHistory
  import opened Contracts
  import opened CoreMessaging
  import opened OutboxRelay
  import opened ConsumerGroups
  import opened Pipelines

  // ----- Consuming an observation -----

  lemma ConsumedGrows(inbox: seq<InboxRow>, row: InboxRow)
    ensures Consumed(inbox + [row]) == Consumed(inbox) + iset{Some(row.id)}
  {
    forall r ensures r in inbox + [row] <==> r in inbox || r == row {
    }
  }

  /** A stored row for a position always holds the identifier of the record there: the log never changes. */
  lemma PositionNeverConflicts(p: Pipeline, position: Position, id: ObservationId)
    requires LogOrderIsKept(p)
    requires Holds(p.observations, ObservationIdOf, PROVIDER_OBSERVATIONS_TOPIC, position, id)
    ensures Conflicts(p.inbox, id, position) ==> IsDuplicate(p.inbox, id, position)
  {
    forall row | row in p.inbox && row.position == position ensures row.id == id {
      var k :| 0 <= k < |p.inbox| && p.inbox[k] == row;
      assert Holds(p.observations, ObservationIdOf, PROVIDER_OBSERVATIONS_TOPIC, row.position, row.id);
    }
  }

  /** Over an immutable log, applying a record that the consumer accepts fails only in the store. */
  lemma ConsumingFailsOnlyInTheStore(setting: Setting, p: Pipeline, session: nat, minted: Uuid, now: int)
    requires LogOrderIsKept(p) && p.observations.CanApply(session) && Consumable(p.observations.Current(session))
    ensures var applied := ApplyProviderMessage(setting.geo, CoreOf(p), ObservationPosition(p.observations.sessions[session]),
                                                p.observations.Current(session).message, minted, now);
            applied.Failure? ==> applied.error.Storage?
  {
    PositionNeverConflicts(p, ObservationPosition(p.observations.sessions[session]),
                           p.observations.Current(session).message.id.value);
  }

  lemma OrderSurvives(p: Pipeline, next: Pipeline)
    requires LogOrderIsKept(p) && next.inbox == p.inbox
    requires forall partition :: p.observations.Log(partition) <= next.observations.Log(partition)
    ensures LogOrderIsKept(next)
  {
    forall k | 0 <= k < |p.inbox|
      ensures HoldsObservation(next.observations, p.inbox[k].position, p.inbox[k].input.obs)
      ensures Holds(next.observations, ObservationIdOf, PROVIDER_OBSERVATIONS_TOPIC, p.inbox[k].position, p.inbox[k].id)
      ensures DoneUpTo(next.observations.Log(p.inbox[k].position.partition), ObservationIdOf, Consumed(p.inbox[..k]),
                       p.inbox[k].position.offset)
    {
      var position := p.inbox[k].position;
      assert Holds(p.observations, ObservationIdOf, PROVIDER_OBSERVATIONS_TOPIC, position, p.inbox[k].id);
      assert HoldsObservation(p.observations, position, p.inbox[k].input.obs);
      assert p.observations.Log(position.partition) <= next.observations.Log(position.partition);
    }
  }

  lemma OrderExtends(p: Pipeline, next: Pipeline, session: nat, row: InboxRow)
    requires LogOrderIsKept(p) && p.observations.CanApply(session)
    requires Tracks(p.observations, ObservationIdOf, Consumed(p.inbox))
    requires row.position == ObservationPosition(p.observations.sessions[session])
    requires p.observations.Current(session).message.id == Some(row.id)
    requires p.observations.Current(session).message.observation == row.input.obs
    requires next.inbox == p.inbox + [row] && next.observations.logs == p.observations.logs
    ensures LogOrderIsKept(next)
  {
    var s := p.observations.sessions[session];
    assert DoneUpTo(p.observations.Log(s.partition), ObservationIdOf, Consumed(p.inbox), Reached(s));
    forall partition ensures next.observations.Log(partition) == p.observations.Log(partition) {
    }
    forall k | 0 <= k < |next.inbox|
      ensures HoldsObservation(next.observations, next.inbox[k].position, next.inbox[k].input.obs)
      ensures Holds(next.observations, ObservationIdOf, PROVIDER_OBSERVATIONS_TOPIC, next.inbox[k].position, next.inbox[k].id)
      ensures DoneUpTo(next.observations.Log(next.inbox[k].position.partition), ObservationIdOf, Consumed(next.inbox[..k]),
                       next.inbox[k].position.offset)
    {
      if k < |p.inbox| {
        assert next.inbox[..k] == p.inbox[..k];
        assert Holds(p.observations, ObservationIdOf, PROVIDER_OBSERVATIONS_TOPIC, p.inbox[k].position, p.inbox[k].id);
        assert HoldsObservation(p.observations, p.inbox[k].position, p.inbox[k].input.obs);
      } else {
        assert next.inbox[..k] == p.inbox;
      }
    }
  }

  lemma StoppingKeepsCoreSide(setting: Setting, p: Pipeline, session: nat)
    requires CoreSide(setting, p)
    ensures CoreSide(setting, p.(observations := p.observations.Drop(session)))
  {
    var next := p.(observations := p.observations.Drop(session));
    DropKeepsTrack(p.observations, ObservationIdOf, Consumed(p.inbox), session);
    OrderSurvives(p, next);
  }

  lemma DuplicateKeepsCoreSide(setting: Setting, p: Pipeline, session: nat, row: InboxRow)
    requires CoreSide(setting, p) && p.observations.CanApply(session)
    requires row in p.inbox && p.observations.Current(session).message.id == Some(row.id)
    ensures CoreSide(setting, p.(observations := p.observations.MarkApplied(session)))
  {
    var next := p.(observations := p.observations.MarkApplied(session));
    ApplyKeepsTrack(p.observations, ObservationIdOf, Consumed(p.inbox), session);
    OrderSurvives(p, next);
  }

  lemma ProcessedKeepsCoreSide(setting: Setting, p: Pipeline, next: Pipeline, session: nat, row: InboxRow)
    requires CoreSide(setting, p) && p.observations.CanApply(session)
    requires row.position == ObservationPosition(p.observations.sessions[session])
    requires p.observations.Current(session).message.id == Some(row.id)
    requires p.observations.Current(session).message.observation == row.input.obs
    requires CoreInvariant(setting.geo, CoreOf(next)) && next.inbox == p.inbox + [row]
    requires next.observations == p.observations.MarkApplied(session)
    ensures CoreSide(setting, next)
  {
    ConsumedGrows(p.inbox, row);
    MoreDoneKeepsTrack(p.observations, ObservationIdOf, Consumed(p.inbox), Consumed(next.inbox));
    ApplyKeepsTrack(p.observations, ObservationIdOf, Consumed(next.inbox), session);
    OrderExtends(p, next, session, row);
  }

  lemma ConsumeKeepsCoreSide(setting: Setting, p: Pipeline, session: nat, minted: Uuid, now: int)
    requires CoreSide(setting, p)
    ensures CoreSide(setting, Consume(setting, p, session, minted, now))
    ensures OutboxGrows(p.relays.rows, Consume(setting, p, session, minted, now).relays.rows)
  {
    StoppingKeepsCoreSide(setting, p, session);
    if p.observations.CanApply(session) && now != 0 && Consumable(p.observations.Current(session)) {
      var message := p.observations.Current(session).message;
      var position := ObservationPosition(p.observations.sessions[session]);
      var applied := ApplyProviderMessage(setting.geo, CoreOf(p), position, message, minted, now);
      if applied.Success? {
        ApplyProviderMessageKeepsInvariant(setting.geo, CoreOf(p), position, message, minted, now);
        var (core, processed) := applied.value;
        if processed {
          ProcessedKeepsCoreSide(setting, p, Consume(setting, p, session, minted, now), session,
                                 InboxRow(message.id.value, position, Input(message.observation, minted, now)));
        } else {
          var row :| row in p.inbox && row.id == message.id.value;
          DuplicateKeepsCoreSide(setting, p, session, row);
        }
      }
    }
  }

  // ----- What the relays do to the outbox -----

  /** The outbox's messages are immutable. */
  ghost predicate SameMessages(rows: Outbox, next: Outbox) {
    next.Keys == rows.Keys && forall id <- rows :: RecordOf(next[id]) == RecordOf(rows[id])
  }

  lemma OwnStepKeepsMessages(lockTimeout: nat, r: Relays, action: Action)
    requires OwnStep(action) || action.Acknowledge?
    ensures SameMessages(r.rows, Act(lockTimeout, r, action).rows)
    ensures Act(lockTimeout, r, action).acknowledged
            == if action.Acknowledge? && Enabled(lockTimeout, r, action) then r.acknowledged + {action.id} else r.acknowledged
  {
  }

  lemma SameMessagesKeepCoreSide(setting: Setting, p: Pipeline, relays: Relays)
    requires CoreSide(setting, p) && SameMessages(p.relays.rows, relays.rows)
    ensures CoreSide(setting, p.(relays := relays))
  {
    var next := p.(relays := relays);
    assert OutboxIsComplete(CoreOf(next)) by {
      forall id | id in relays.rows ensures WellFormed(id, relays.rows[id]) {
        assert WellFormed(id, p.relays.rows[id]);
      }
    }
    OrderSurvives(p, next);
  }

  lemma GrowthIsFenced(lockTimeout: nat, r: Relays, rows: Outbox)
    requires Fenced(lockTimeout, r) && OutboxGrows(r.rows, rows)
    ensures Fenced(lockTimeout, r.(rows := rows))
  {
    var next := r.(rows := rows);
    forall grip | grip in r.grips ensures IsCurrent(next, grip) <==> IsCurrent(r, grip) {
    }
  }

  lemma LogStillCarriesRows(p: Pipeline, next: Pipeline)
    requires LogCarriesRows(p) && next.changes.logs == p.changes.logs
    requires forall id <- p.relays.rows :: id in next.relays.rows && RecordOf(next.relays.rows[id]) == RecordOf(p.relays.rows[id])
    ensures LogCarriesRows(next)
  {
    forall partition: nat, offset: nat | offset < |next.changes.Log(partition)|
      ensures Carries(next.relays.rows, next.changes.Log(partition)[offset])
    {
      assert next.changes.Log(partition) == p.changes.Log(partition);
      assert Carries(p.relays.rows, p.changes.Log(partition)[offset]);
      var id :| id in p.relays.rows.Keys && p.changes.Log(partition)[offset] == RecordOf(p.relays.rows[id]);
      assert id in next.relays.rows.Keys;
    }
  }

  lemma AcknowledgedStaysLogged(p: Pipeline, next: Pipeline)
    requires AcknowledgedIsLogged(p) && next.relays.acknowledged == p.relays.acknowledged
    requires forall partition :: p.changes.Log(partition) <= next.changes.Log(partition)
    ensures AcknowledgedIsLogged(next)
  {
    forall id | id in next.relays.acknowledged
      ensures exists partition: nat, offset: nat :: InLog(next.changes, partition, offset, id)
    {
      var partition: nat, offset: nat :| InLog(p.changes, partition, offset, id);
      assert p.changes.Log(partition) <= next.changes.Log(partition);
      assert InLog(next.changes, partition, offset, id);
    }
  }

  lemma PublishKeepsRelaySide(setting: Setting, p: Pipeline, worker: Worker, id: ChangeId, partition: nat, acknowledged: bool)
    requires RelaySide(setting, p) && CoreSide(setting, p)
    ensures RelaySide(setting, PublishRow(setting, p, worker, id, partition, acknowledged))
  {
    var next := PublishRow(setting, p, worker, id, partition, acknowledged);
    if Grip(worker, id) in p.relays.grips && id in p.relays.rows {
      var record := RecordOf(p.relays.rows[id]);
      assert WellFormed(id, p.relays.rows[id]);
      ActIsFenced(setting.lockTimeout, p.relays, Acknowledge(worker, id));
      OwnStepKeepsMessages(setting.lockTimeout, p.relays, Acknowledge(worker, id));
      PublishedIsCarried(p, next, id, partition);
      PublishedIsLogged(p, next, id, partition);
    }
  }

  lemma PublishedIsCarried(p: Pipeline, next: Pipeline, id: ChangeId, partition: nat)
    requires LogCarriesRows(p) && id in p.relays.rows && SameMessages(p.relays.rows, next.relays.rows)
    requires next.changes == p.changes.Append(partition, RecordOf(p.relays.rows[id]))
    ensures LogCarriesRows(next)
  {
    forall q: nat, offset: nat | offset < |next.changes.Log(q)| ensures Carries(next.relays.rows, next.changes.Log(q)[offset]) {
      if offset < |p.changes.Log(q)| {
        assert next.changes.Log(q)[offset] == p.changes.Log(q)[offset];
        assert Carries(p.relays.rows, p.changes.Log(q)[offset]);
        var other :| other in p.relays.rows.Keys && p.changes.Log(q)[offset] == RecordOf(p.relays.rows[other]);
        assert other in next.relays.rows.Keys;
      } else {
        assert next.changes.Log(q)[offset] == RecordOf(p.relays.rows[id]);
        assert id in next.relays.rows.Keys;
      }
    }
  }

  lemma PublishedIsLogged(p: Pipeline, next: Pipeline, id: ChangeId, partition: nat)
    requires AcknowledgedIsLogged(p) && id in p.relays.rows && p.relays.rows[id].message.id == Some(id)
    requires next.changes == p.changes.Append(partition, RecordOf(p.relays.rows[id]))
    requires next.relays.acknowledged <= p.relays.acknowledged + {id}
    ensures AcknowledgedIsLogged(next)
  {
    forall other | other in next.relays.acknowledged
      ensures exists q: nat, offset: nat :: InLog(next.changes, q, offset, other)
    {
      if other == id {
        assert InLog(next.changes, partition, |p.changes.Log(partition)|, id);
      } else {
        var q: nat, offset: nat :| InLog(p.changes, q, offset, other);
        assert InLog(next.changes, q, offset, other);
      }
    }
  }

  // ----- Consuming a change -----

  lemma NotifiedGrows(rows: seq<NotificationRow>, row: NotificationRow)
    ensures Notified(rows + [row]) == Notified(rows) + iset{Some(row.id)}
  {
    forall r ensures r in rows + [row] <==> r in rows || r == row {
    }
  }

  /** Every record in the change log passes the decoder and the key check of the consumer. */
  lemma EveryChangeIsConsumable(setting: Setting, p: Pipeline, partition: nat, offset: nat)
    requires CoreSide(setting, p) && LogCarriesRows(p) && offset < |p.changes.Log(partition)|
    ensures var record := p.changes.Log(partition)[offset];
            ConsumableChange(record) && record.message.id.Some? && record.message.id.value in p.relays.rows
  {
    assert Carries(p.relays.rows, p.changes.Log(partition)[offset]);
    var id :| id in p.relays.rows.Keys && p.changes.Log(partition)[offset] == RecordOf(p.relays.rows[id]);
    assert WellFormed(id, p.relays.rows[id]);
  }

  lemma NotificationPositionNeverConflicts(p: Pipeline, position: Position, id: ChangeId)
    requires NotificationsArePlaced(p) && Holds(p.changes, ChangeIdOf, INCIDENT_CHANGES_TOPIC, position, id)
    ensures NotificationConflicts(p.notifications, id, position) ==> IsDuplicateNotification(p.notifications, id, position)
  {
    forall row | row in p.notifications && row.position == position ensures row.id == id {
      assert Holds(p.changes, ChangeIdOf, INCIDENT_CHANGES_TOPIC, row.position, row.id);
    }
  }

  lemma PlacesSurvive(p: Pipeline, next: Pipeline)
    requires NotificationsArePlaced(p) && next.notifications == p.notifications
    requires forall partition :: p.changes.Log(partition) <= next.changes.Log(partition)
    requires p.relays.rows.Keys <= next.relays.rows.Keys
    ensures NotificationsArePlaced(next)
  {
    forall row | row in next.notifications
      ensures Holds(next.changes, ChangeIdOf, INCIDENT_CHANGES_TOPIC, row.position, row.id)
    {
      assert Holds(p.changes, ChangeIdOf, INCIDENT_CHANGES_TOPIC, row.position, row.id);
      assert p.changes.Log(row.position.partition) <= next.changes.Log(row.position.partition);
    }
  }

  lemma AcceptedOrRepeated(rows: seq<NotificationRow>, position: Position, message: IncidentChanged)
    requires position.topic == INCIDENT_CHANGES_TOPIC && 0 <= position.partition && 0 <= position.offset
    requires UnmarshalIncidentChanged(message).Success?
    requires NotificationConflicts(rows, message.id.value, position) ==> IsDuplicateNotification(rows, message.id.value, position)
    ensures ApplyIncidentMessage(rows, position, message).Success?
  {
  }

  /** A consumer never stops on a change: it makes its notifications now, or finds that they were made before. */
  lemma ConsumingAChangeSucceeds(setting: Setting, p: Pipeline, session: nat)
    requires CoreSide(setting, p) && LogCarriesRows(p) && NotificationSide(p) && p.changes.CanApply(session)
    ensures ConsumableChange(p.changes.Current(session))
    ensures ApplyIncidentMessage(p.notifications, ChangePosition(p.changes.sessions[session]),
                                 p.changes.Current(session).message).Success?
  {
    var s := p.changes.sessions[session];
    EveryChangeIsConsumable(setting, p, s.partition, s.next);
    NotificationPositionNeverConflicts(p, ChangePosition(s), p.changes.Current(session).message.id.value);
    AcceptedOrRepeated(p.notifications, ChangePosition(s), p.changes.Current(session).message);
  }

  lemma RepeatedNotificationKeepsSide(p: Pipeline, session: nat, row: NotificationRow, next: Pipeline)
    requires NotificationSide(p) && p.changes.CanApply(session)
    requires row in p.notifications && p.changes.Current(session).message.id == Some(row.id)
    requires next == p.(changes := p.changes.MarkApplied(session))
    ensures NotificationSide(next)
  {
    ApplyKeepsTrack(p.changes, ChangeIdOf, Notified(p.notifications), session);
    PlacesSurvive(p, next);
  }

  lemma NewNotificationKeepsSide(p: Pipeline, next: Pipeline, session: nat, row: NotificationRow)
    requires NotificationSide(p) && p.changes.CanApply(session)
    requires row.position == ChangePosition(p.changes.sessions[session])
    requires p.changes.Current(session).message.id == Some(row.id) && row.id in p.relays.rows
    requires !NotificationConflicts(p.notifications, row.id, row.position)
    requires next == p.(notifications := p.notifications + [row], changes := p.changes.MarkApplied(session))
    ensures NotificationSide(next)
  {
    NotifiedGrows(p.notifications, row);
    MoreDoneKeepsTrack(p.changes, ChangeIdOf, Notified(p.notifications), Notified(next.notifications));
    ApplyKeepsTrack(p.changes, ChangeIdOf, Notified(next.notifications), session);
    NewNotificationIsPlaced(p, next, row);
  }

  /** What consuming an accepted change does: nothing but moving on, when its notifications were made before. */
  lemma RepeatedChange(p: Pipeline, session: nat) returns (row: NotificationRow)
    requires p.changes.CanApply(session) && ConsumableChange(p.changes.Current(session))
    requires var position := ChangePosition(p.changes.sessions[session]);
             && ApplyIncidentMessage(p.notifications, position, p.changes.Current(session).message).Success?
             && NotificationConflicts(p.notifications, p.changes.Current(session).message.id.value, position)
    ensures row in p.notifications && p.changes.Current(session).message.id == Some(row.id)
    ensures ConsumeNotification(p, session) == p.(changes := p.changes.MarkApplied(session))
  {
    var id := p.changes.Current(session).message.id.value;
    assert exists row <- p.notifications :: row.id == id;
    row :| row in p.notifications && row.id == id;
  }

  lemma NewChange(p: Pipeline, session: nat)
    requires p.changes.CanApply(session) && ConsumableChange(p.changes.Current(session))
    requires var position := ChangePosition(p.changes.sessions[session]);
             && ApplyIncidentMessage(p.notifications, position, p.changes.Current(session).message).Success?
             && !NotificationConflicts(p.notifications, p.changes.Current(session).message.id.value, position)
    ensures var row := NotificationRow(p.changes.Current(session).message.id.value, ChangePosition(p.changes.sessions[session]));
            ConsumeNotification(p, session)
            == p.(notifications := p.notifications + [row], changes := p.changes.MarkApplied(session))
  {
  }

  lemma AcceptedKeepsNotificationSide(p: Pipeline, session: nat, next: Pipeline)
    requires NotificationSide(p) && p.changes.CanApply(session) && ConsumableChange(p.changes.Current(session))
    requires p.changes.Current(session).message.id.value in p.relays.rows
    requires ApplyIncidentMessage(p.notifications, ChangePosition(p.changes.sessions[session]),
                                  p.changes.Current(session).message).Success?
    requires next == ConsumeNotification(p, session)
    ensures NotificationSide(next)
  {
    var position := ChangePosition(p.changes.sessions[session]);
    var id := p.changes.Current(session).message.id.value;
    if NotificationConflicts(p.notifications, id, position) {
      var row := RepeatedChange(p, session);
      RepeatedNotificationKeepsSide(p, session, row, next);
    } else {
      NewChange(p, session);
      NewNotificationKeepsSide(p, next, session, NotificationRow(id, position));
    }
  }

  lemma NewNotificationIsPlaced(p: Pipeline, next: Pipeline, row: NotificationRow)
    requires NotificationsArePlaced(p) && next.notifications == p.notifications + [row]
    requires next.changes.logs == p.changes.logs && next.relays == p.relays && row.id in p.relays.rows
    requires Holds(p.changes, ChangeIdOf, INCIDENT_CHANGES_TOPIC, row.position, row.id)
    ensures NotificationsArePlaced(next)
  {
    forall r | r in next.notifications
      ensures Holds(next.changes, ChangeIdOf, INCIDENT_CHANGES_TOPIC, r.position, r.id) && r.id in next.relays.rows
    {
      assert r == row || r in p.notifications;
      assert Holds(p.changes, ChangeIdOf, INCIDENT_CHANGES_TOPIC, r.position, r.id);
      assert next.changes.Log(r.position.partition) == p.changes.Log(r.position.partition);
    }
  }

  // ----- Every step keeps the invariant -----

  /** Sessions and logs of observations may move without touching the core. */
  lemma ObservationsMoveKeepsCoreSide(setting: Setting, p: Pipeline, observations: Group<ProviderRecord>)
    requires CoreSide(setting, p) && Tracks(observations, ObservationIdOf, Consumed(p.inbox))
    requires forall partition :: p.observations.Log(partition) <= observations.Log(partition)
    ensures CoreSide(setting, p.(observations := observations))
  {
    OrderSurvives(p, p.(observations := observations));
  }

  lemma SameCoreKeepsCoreSide(setting: Setting, p: Pipeline, next: Pipeline)
    requires CoreSide(setting, p) && CoreOf(next) == CoreOf(p) && next.observations == p.observations
    ensures CoreSide(setting, next)
  {
    OrderSurvives(p, next);
  }

  lemma SameLogsKeepRelaySide(setting: Setting, p: Pipeline, next: Pipeline)
    requires RelaySide(setting, p) && next.relays == p.relays && next.changes.logs == p.changes.logs
    ensures RelaySide(setting, next)
  {
    LogStillCarriesRows(p, next);
    AcknowledgedStaysLogged(p, next);
  }

  /** Sessions of the change log may move without touching anything else. */
  lemma ChangeSessionsMoveKeepsInvariant(setting: Setting, p: Pipeline, changes: Group<ChangeRecord>)
    requires PipelineInvariant(setting, p) && Tracks(changes, ChangeIdOf, Notified(p.notifications))
    requires changes.logs == p.changes.logs
    ensures PipelineInvariant(setting, p.(changes := changes))
  {
    var next := p.(changes := changes);
    SameCoreKeepsCoreSide(setting, p, next);
    SameLogsKeepRelaySide(setting, p, next);
    PlacesSurvive(p, next);
  }

  lemma CoreMovesKeepOtherSides(setting: Setting, p: Pipeline, next: Pipeline)
    requires RelaySide(setting, p) && NotificationSide(p)
    requires next.changes == p.changes && next.notifications == p.notifications
    requires OutboxGrows(p.relays.rows, next.relays.rows) && next.relays == p.relays.(rows := next.relays.rows)
    ensures RelaySide(setting, next) && NotificationSide(next)
  {
    GrowthIsFenced(setting.lockTimeout, p.relays, next.relays.rows);
    LogStillCarriesRows(p, next);
    AcknowledgedStaysLogged(p, next);
    PlacesSurvive(p, next);
  }

  lemma RelayKeepsInvariant(setting: Setting, p: Pipeline, action: Action)
    requires PipelineInvariant(setting, p) && OwnStep(action)
    ensures PipelineInvariant(setting, p.(relays := Act(setting.lockTimeout, p.relays, action)))
  {
    var next := p.(relays := Act(setting.lockTimeout, p.relays, action));
    ActIsFenced(setting.lockTimeout, p.relays, action);
    OwnStepKeepsMessages(setting.lockTimeout, p.relays, action);
    SameMessagesKeepCoreSide(setting, p, next.relays);
    LogStillCarriesRows(p, next);
    AcknowledgedStaysLogged(p, next);
    PlacesSurvive(p, next);
  }

  lemma PublishKeepsCoreSide(setting: Setting, p: Pipeline, worker: Worker, id: ChangeId, partition: nat, acknowledged: bool)
    requires PipelineInvariant(setting, p) && Grip(worker, id) in p.relays.grips && id in p.relays.rows
    ensures CoreSide(setting, PublishRow(setting, p, worker, id, partition, acknowledged))
  {
    var next := PublishRow(setting, p, worker, id, partition, acknowledged);
    OwnStepKeepsMessages(setting.lockTimeout, p.relays, Acknowledge(worker, id));
    SameMessagesKeepCoreSide(setting, p, next.relays);
    OrderSurvives(p, next);
  }

  lemma PublishKeepsNotificationSide(setting: Setting, p: Pipeline, worker: Worker, id: ChangeId, partition: nat, acknowledged: bool)
    requires PipelineInvariant(setting, p) && Grip(worker, id) in p.relays.grips && id in p.relays.rows
    ensures NotificationSide(PublishRow(setting, p, worker, id, partition, acknowledged))
  {
    AppendKeepsTrack(p.changes, ChangeIdOf, Notified(p.notifications), partition, RecordOf(p.relays.rows[id]));
    PlacesSurvive(p, PublishRow(setting, p, worker, id, partition, acknowledged));
  }

  lemma PublishKeepsInvariant(setting: Setting, p: Pipeline, worker: Worker, id: ChangeId, partition: nat, acknowledged: bool)
    requires PipelineInvariant(setting, p)
    ensures PipelineInvariant(setting, PublishRow(setting, p, worker, id, partition, acknowledged))
  {
    if Grip(worker, id) in p.relays.grips && id in p.relays.rows {
      PublishKeepsCoreSide(setting, p, worker, id, partition, acknowledged);
      PublishKeepsRelaySide(setting, p, worker, id, partition, acknowledged);
      PublishKeepsNotificationSide(setting, p, worker, id, partition, acknowledged);
    }
  }

  /** Sessions and logs of observations may move without touching anything else. */
  lemma ObservationsMoveKeepsInvariant(setting: Setting, p: Pipeline, observations: Group<ProviderRecord>)
    requires PipelineInvariant(setting, p) && Tracks(observations, ObservationIdOf, Consumed(p.inbox))
    requires forall partition :: p.observations.Log(partition) <= observations.Log(partition)
    ensures PipelineInvariant(setting, p.(observations := observations))
  {
    var next := p.(observations := observations);
    ObservationsMoveKeepsCoreSide(setting, p, observations);
    SameLogsKeepRelaySide(setting, p, next);
    PlacesSurvive(p, next);
  }

  lemma ProduceKeepsInvariant(setting: Setting, p: Pipeline, partition: nat, record: ProviderRecord)
    requires PipelineInvariant(setting, p)
    ensures PipelineInvariant(setting, p.(observations := p.observations.Append(partition, record)))
  {
    AppendKeepsTrack(p.observations, ObservationIdOf, Consumed(p.inbox), partition, record);
    ObservationsMoveKeepsInvariant(setting, p, p.observations.Append(partition, record));
  }

  lemma ReadObservationsKeepsInvariant(setting: Setting, p: Pipeline, session: nat, partition: nat)
    requires PipelineInvariant(setting, p)
    ensures PipelineInvariant(setting, p.(observations := p.observations.Assign(session, partition)))
  {
    AssignKeepsTrack(p.observations, ObservationIdOf, Consumed(p.inbox), session, partition);
    ObservationsMoveKeepsInvariant(setting, p, p.observations.Assign(session, partition));
  }

  lemma CommitObservationKeepsInvariant(setting: Setting, p: Pipeline, session: nat)
    requires PipelineInvariant(setting, p) && session in p.observations.sessions && p.observations.sessions[session].applied
    ensures PipelineInvariant(setting, p.(observations := p.observations.Commit(session)))
  {
    CommitKeepsTrack(p.observations, ObservationIdOf, Consumed(p.inbox), session);
    ObservationsMoveKeepsInvariant(setting, p, p.observations.Commit(session));
  }

  lemma StopObservationsKeepsInvariant(setting: Setting, p: Pipeline, session: nat)
    requires PipelineInvariant(setting, p)
    ensures PipelineInvariant(setting, p.(observations := p.observations.Drop(session)))
  {
    DropKeepsTrack(p.observations, ObservationIdOf, Consumed(p.inbox), session);
    ObservationsMoveKeepsInvariant(setting, p, p.observations.Drop(session));
  }

  lemma ReadChangesKeepsInvariant(setting: Setting, p: Pipeline, session: nat, partition: nat)
    requires PipelineInvariant(setting, p)
    ensures PipelineInvariant(setting, p.(changes := p.changes.Assign(session, partition)))
  {
    AssignKeepsTrack(p.changes, ChangeIdOf, Notified(p.notifications), session, partition);
    ChangeSessionsMoveKeepsInvariant(setting, p, p.changes.Assign(session, partition));
  }

  lemma CommitChangeKeepsInvariant(setting: Setting, p: Pipeline, session: nat)
    requires PipelineInvariant(setting, p) && session in p.changes.sessions && p.changes.sessions[session].applied
    ensures PipelineInvariant(setting, p.(changes := p.changes.Commit(session)))
  {
    CommitKeepsTrack(p.changes, ChangeIdOf, Notified(p.notifications), session);
    ChangeSessionsMoveKeepsInvariant(setting, p, p.changes.Commit(session));
  }

  lemma StopChangesKeepsInvariant(setting: Setting, p: Pipeline, session: nat)
    requires PipelineInvariant(setting, p)
    ensures PipelineInvariant(setting, p.(changes := p.changes.Drop(session)))
  {
    DropKeepsTrack(p.changes, ChangeIdOf, Notified(p.notifications), session);
    ChangeSessionsMoveKeepsInvariant(setting, p, p.changes.Drop(session));
  }

  lemma ConsumeChangeKeepsInvariant(setting: Setting, p: Pipeline, session: nat)
    requires PipelineInvariant(setting, p)
    ensures PipelineInvariant(setting, ConsumeNotification(p, session))
  {
    if p.changes.CanApply(session) {
      var s := p.changes.sessions[session];
      ConsumingAChangeSucceeds(setting, p, session);
      EveryChangeIsConsumable(setting, p, s.partition, s.next);
      AcceptedKeepsNotificationSide(p, session, ConsumeNotification(p, session));
      SameCoreKeepsCoreSide(setting, p, ConsumeNotification(p, session));
      SameLogsKeepRelaySide(setting, p, ConsumeNotification(p, session));
    }
  }

  lemma ConsumeObservationKeepsInvariant(setting: Setting, p: Pipeline, session: nat, minted: Uuid, now: int)
    requires PipelineInvariant(setting, p)
    ensures PipelineInvariant(setting, Consume(setting, p, session, minted, now))
  {
    ConsumeKeepsCoreSide(setting, p, session, minted, now);
    CoreMovesKeepOtherSides(setting, p, Consume(setting, p, session, minted, now));
  }

  lemma NextKeepsInvariant(setting: Setting, p: Pipeline, event: Event)
    requires PipelineInvariant(setting, p)
    ensures PipelineInvariant(setting, Next(setting, p, event))
  {
    match event
    case Produce(partition, record) => ProduceKeepsInvariant(setting, p, partition, record);
    case ReadObservations(session, partition) => ReadObservationsKeepsInvariant(setting, p, session, partition);
    case ConsumeObservation(session, minted, now) => ConsumeObservationKeepsInvariant(setting, p, session, minted, now);
    case CommitObservation(session) =>
      if session in p.observations.sessions && p.observations.sessions[session].applied {
        CommitObservationKeepsInvariant(setting, p, session);
      }
    case StopObservations(session) => StopObservationsKeepsInvariant(setting, p, session);
    case Relay(action) =>
      if OwnStep(action) {
        RelayKeepsInvariant(setting, p, action);
      }
    case Publish(worker, id, partition, acknowledged) => PublishKeepsInvariant(setting, p, worker, id, partition, acknowledged);
    case ReadChanges(session, partition) => ReadChangesKeepsInvariant(setting, p, session, partition);
    case ConsumeChange(session) => ConsumeChangeKeepsInvariant(setting, p, session);
    case CommitChange(session) =>
      if session in p.changes.sessions && p.changes.sessions[session].applied {
        CommitChangeKeepsInvariant(setting, p, session);
      }
    case StopChanges(session) => StopChangesKeepsInvariant(setting, p, session);
  }

  lemma StartIsInvariant(setting: Setting)
    ensures PipelineInvariant(setting, START)
  {
    assert Inputs(START.inbox) == [];
  }

  /** Every run keeps the invariant: any observations, consumers, relays, clocks, crashes and redeliveries. */
  lemma {:induction false} EveryRunKeepsInvariant(setting: Setting, events: seq<Event>)
    ensures PipelineInvariant(setting, Execute(setting, START, events))
  {
    if events == [] {
      StartIsInvariant(setting);
    } else {
      EveryRunKeepsInvariant(setting, events[..|events| - 1]);
      NextKeepsInvariant(setting, Execute(setting, START, events[..|events| - 1]), events[|events| - 1]);
    }
  }

  // ----- What consumers apply -----

  /** A consumer that has a record to apply and knows the time either stops without a trace, or has applied the record. It stops
      if and only if the message is not acceptable, the key does not name its source, or the store refuses it. */
  lemma ConsumerStopsExactlyWhen(setting: Setting, p: Pipeline, session: nat, minted: Uuid, now: int)
    requires LogOrderIsKept(p) && p.observations.CanApply(session) && now != 0
    ensures var record, next := p.observations.Current(session), Consume(setting, p, session, minted, now);
            var stops := || UnmarshalProviderObservation(record.message).Failure?
                         || record.key != record.message.observation.id.provider + ":" + record.message.observation.id.externalID
                         || ApplyProviderMessage(setting.geo, CoreOf(p), ObservationPosition(p.observations.sessions[session]),
                                                 record.message, minted, now).Failure?;
            && (stops ==> next == p.(observations := p.observations.(sessions := p.observations.sessions - {session})))
            && (!stops ==> session in next.observations.sessions && next.observations.sessions[session].applied)
  {
  }

  /** So does the notification consumer, whose key names the incident. */
  lemma NotificationConsumerStopsExactlyWhen(p: Pipeline, session: nat)
    requires p.changes.CanApply(session)
    ensures var record, next := p.changes.Current(session), ConsumeNotification(p, session);
            var stops := || UnmarshalIncidentChanged(record.message).Failure?
                         || Some(record.key) != record.message.current.incident
                         || ApplyIncidentMessage(p.notifications, ChangePosition(p.changes.sessions[session]), record.message).Failure?;
            && (stops ==> next == p.(changes := p.changes.(sessions := p.changes.sessions - {session})))
            && (!stops ==> session in next.changes.sessions && next.changes.sessions[session].applied)
  {
  }

  /** Of the messages that the consumer accepts, one whose position holds another is refused, one that is stored, here or
      elsewhere, is skipped, and any other makes its notifications. */
  lemma NotificationIsMadeExactlyWhen(rows: seq<NotificationRow>, position: Position, message: IncidentChanged)
    requires UnmarshalIncidentChanged(message).Success? && position.topic == "incident.changes.v1"
    requires position.partition >= 0 && position.offset >= 0
    requires forall a, b | a in rows && b in rows :: a.position == b.position ==> a == b
    ensures var id, result := message.id.value, ApplyIncidentMessage(rows, position, message);
            && (result == Failure(PositionConflict) <==> exists row <- rows :: row.position == position && row.id != id)
            && (result == Success((rows + [NotificationRow(id, position)], true)) <==>
                forall row <- rows :: row.position != position && row.id != id)
            && (result.Success? && !result.value.1 ==> result.value.0 == rows)
  {
    if exists row <- rows :: row.position == position && row.id != message.id.value {
      var row :| row in rows && row.position == position && row.id != message.id.value;
      assert forall other | other in rows && other.position == position :: other == row;
    }
  }

  // ----- Main results -----

  /** The relays have published every row, and the notification consumers have committed the whole change log. */
  ghost predicate Drained(p: Pipeline) {
    && (forall id <- p.relays.rows :: p.relays.rows[id].publishedAt.Some?)
    && (forall partition :: p.changes.Committed(partition) == |p.changes.Log(partition)|)
  }

  lemma DrainedNotifies(p: Pipeline, id: ChangeId)
    requires PublishedOnce(p.relays) && AcknowledgedIsLogged(p) && Drained(p) && id in p.relays.rows
    requires CommitsTrack(p.changes, ChangeIdOf, Notified(p.notifications))
    ensures Some(id) in Notified(p.notifications)
  {
    assert p.relays.rows[id].publishedAt.Some?;
    assert id in p.relays.acknowledged;
    var partition: nat, offset: nat :| InLog(p.changes, partition, offset, id);
    assert DoneUpTo(p.changes.Log(partition), ChangeIdOf, Notified(p.notifications), p.changes.Committed(partition));
    assert ChangeIdOf(p.changes.Log(partition)[offset]) == Some(id);
  }

  /** Notifications are made at most once for a version of an incident, only for versions that exist, and once the
      pipeline is drained, for every version from the first to the current one of every incident. */
  lemma NotificationsAreExactlyOnce(setting: Setting, events: seq<Event>)
    ensures var p := Execute(setting, START, events);
            && NotifiedOnce(p.notifications)
            && (forall row <- p.notifications :: Versioned(p.tables, row.id))
            && (Drained(p) ==> forall id :: Versioned(p.tables, id) <==> Some(id) in Notified(p.notifications))
  {
    EveryRunKeepsInvariant(setting, events);
    var p := Execute(setting, START, events);
    if Drained(p) {
      forall id ensures Versioned(p.tables, id) <==> Some(id) in Notified(p.notifications) {
        if Versioned(p.tables, id) {
          DrainedNotifies(p, id);
        }
      }
    }
  }

  /** The observation that the log holds where a message was first processed. */
  function Logged(p: Pipeline, position: Position): Option<Observation> {
    if 0 <= position.partition && 0 <= position.offset < |p.observations.Log(position.partition)| then
      Some(p.observations.Log(position.partition)[position.offset].message.observation)
    else
      None
  }

  /** Consuming the observation log refines a plain fold: the tables are what observations of the log make of an empty
      store, each message once and in the order of first processing; no record is skipped, and each partition's order is
      kept. A group that has committed a whole partition has consumed all of it. */
  lemma ConsumptionIsAFold(setting: Setting, events: seq<Event>)
    ensures var p := Execute(setting, START, events);
            && p.tables == Run(setting.geo, EMPTY, Inputs(p.inbox))
            && (forall k | 0 <= k < |p.inbox| :: Logged(p, p.inbox[k].position) == Some(Inputs(p.inbox)[k].obs))
            && DistinctInbox(p.inbox)
            && LogOrderIsKept(p)
            && (forall partition :: DoneUpTo(p.observations.Log(partition), ObservationIdOf, Consumed(p.inbox),
                                             p.observations.Committed(partition)))
  {
    EveryRunKeepsInvariant(setting, events);
    var p := Execute(setting, START, events);
    forall k | 0 <= k < |p.inbox| ensures Logged(p, p.inbox[k].position) == Some(Inputs(p.inbox)[k].obs) {
      assert HoldsObservation(p.observations, p.inbox[k].position, p.inbox[k].input.obs);
    }
  }

  /** The newest message of every incident shows the incident as the tables have it, in every run. */
  lemma NewestMessageShowsTheIncident(setting: Setting, events: seq<Event>, incident: Uuid)
    requires incident in Execute(setting, START, events).tables.incidents
    ensures var p := Execute(setting, START, events);
            var id := ChangeId(incident, p.tables.incidents[incident].version);
            id in p.relays.rows && ShowsIncident(p.relays.rows[id].message, incident, p.tables.incidents[incident])
  {
    EveryRunKeepsInvariant(setting, events);
    var p := Execute(setting, START, events);
    RunIsAudited(setting, p);
    assert Versioned(p.tables, ChangeId(incident, p.tables.incidents[incident].version));
  }

  lemma RunIsAudited(setting: Setting, p: Pipeline)
    requires IsFold(setting.geo, CoreOf(p))
    ensures forall incident <- p.tables.incidents :: p.tables.incidents[incident].version >= 1
  {
    EveryReachableStoreIsConsistent(setting.geo, Inputs(p.inbox));
  }

  /** Whatever the relays publish, in any run, the notification consumers accept. */
  lemma EveryPublicationIsAccepted(setting: Setting, events: seq<Event>, partition: nat, offset: nat)
    requires offset < |Execute(setting, START, events).changes.Log(partition)|
    ensures ConsumableChange(Execute(setting, START, events).changes.Log(partition)[offset])
  {
    EveryRunKeepsInvariant(setting, events);
    EveryChangeIsConsumable(setting, Execute(setting, START, events), partition, offset);
  }

  /** Over the logs of any run, neither consumer ever meets the position conflict that would stop it for good. */
  lemma NoPositionEverConflicts(setting: Setting, events: seq<Event>, session: nat, minted: Uuid, now: int)
    ensures var p := Execute(setting, START, events);
            && (p.observations.CanApply(session) && Consumable(p.observations.Current(session)) ==>
                ApplyProviderMessage(setting.geo, CoreOf(p), ObservationPosition(p.observations.sessions[session]),
                                     p.observations.Current(session).message, minted, now) != Failure(PositionConflict))
            && (p.changes.CanApply(session) ==>
                ApplyIncidentMessage(p.notifications, ChangePosition(p.changes.sessions[session]),
                                     p.changes.Current(session).message).Success?)
  {
    EveryRunKeepsInvariant(setting, events);
    var p := Execute(setting, START, events);
    if p.observations.CanApply(session) && Consumable(p.observations.Current(session)) {
      ConsumingFailsOnlyInTheStore(setting, p, session, minted, now);
    }
    if p.changes.CanApply(session) {
      ConsumingAChangeSucceeds(setting, p, session);
    }
  }
}
