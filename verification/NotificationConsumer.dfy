/** What the notification consumer does with one message, in one transaction (internal/notification/consumer.go,
    ApplyIncidentMessage in internal/repository/postgres/messaging.go): the inbox row, the refresh of existing alerts, and
    matching. */
module NotificationConsumers {
  import opened Wrappers
  import opened IncidentTables
  import opened Contracts
  import opened CoreMessaging
  import opened MessagingRepositories
  import opened NotificationRepositories
  import Subscriptions
  import Pipelines
  import TelegramAlerts

  /** How the values of a message that the model keeps together are told apart, and what is written to a subscriber. */
  datatype Reading = Reading(tsunami: string -> Option<bool>, alertLevel: string -> Option<string>,
                             eventType: string -> Option<string>,
                             payload: (Snapshot, SubscriptionId, Option<Subscriptions.Trigger>) -> string)
  {
    function EventOf(s: Snapshot): Subscriptions.Event {
      Subscriptions.Event(s.fields.occurredAt, s.fields.place, s.fields.magnitude, s.fields.depthKM,
                          tsunami(s.fields.rest), alertLevel(s.fields.rest), eventType(s.fields.rest))
    }

    function NoticeOf(message: IncidentChanged, now: int): Notice
      requires message.current.incident.Some?
    {
      var previous := match message.previous case Some(s) => Some(EventOf(s)) case None => None;
      Notice(message.current.incident.value, message.current.version, message.current.lifecycle,
             Subscriptions.Arrival(previous, EventOf(message.current), message.mode, message.baselineComplete, now),
             (id: SubscriptionId, trigger) => payload(message.current, id, trigger))
    }
  }

  datatype ConsumerError = Message(reason: MessageError) | Notifying(cause: NotificationError)

  /** The alerts before matching: an update brings the existing ones to its version. */
  function AlertsBefore(subscriptions: map<SubscriptionId, Subscriptions.Subscription>, alerts: map<AlertKey, TelegramAlerts.Alert>,
                        notice: Notice, operation: ChangeKind, now: int): map<AlertKey, TelegramAlerts.Alert>
  {
    if operation == Updated then Refreshed(subscriptions, alerts, notice, now) else alerts
  }

  /** Alerts belong to Telegram subscriptions with a chat. */
  ghost predicate IsRefreshable(repo: NotificationRepository, alerts: map<AlertKey, TelegramAlerts.Alert>, notice: Notice,
                                operation: ChangeKind)
    reads repo
  {
    operation == Updated ==>
      forall key <- alerts :: Refreshes(repo.subscriptions, notice, key) ==> CanAlert(repo.subscriptions, key.subscription)
  }

  ghost predicate IsStorable(repo: NotificationRepository, alerts: map<AlertKey, TelegramAlerts.Alert>, notice: Notice,
                             message: IncidentChanged, radius: real)
    reads repo
  {
    && IsRefreshable(repo, alerts, notice, message.operation)
    && (message.notificationsEligible ==> ChatsKnown({}, repo.geodesy, repo.subscriptions, notice, radius))
  }

  /** What the message makes of the alerts and deliveries. */
  ghost predicate IsNotified(repo: NotificationRepository, alerts: map<AlertKey, TelegramAlerts.Alert>,
                             deliveries: map<DeliveryKey, Delivery>, notice: Notice, message: IncidentChanged, radius: real, now: int)
    reads repo
  {
    var before := AlertsBefore(repo.subscriptions, alerts, notice, message.operation, now);
    if message.notificationsEligible then
      && AlertsMatched(before, repo.alerts, {}, repo.geodesy, repo.subscriptions, notice, radius, now)
      && DeliveriesMatched(deliveries, repo.deliveries, {}, repo.geodesy, repo.subscriptions, notice, radius, now)
    else
      repo.alerts == before && repo.deliveries == deliveries
  }

  /** Refreshes the alerts of an updated incident, and matches an eligible message; after an error nothing has changed. */
  method Notify(repo: NotificationRepository, notice: Notice, message: IncidentChanged, now: int)
    returns (stored: bool, ghost radius: real)
    modifies repo`alerts, repo`deliveries
    ensures message.notificationsEligible && IsRefreshable(repo, old(repo.alerts), notice, message.operation) ==>
              Subscriptions.CandidateRadiusOf(repo.geodesy, notice.arrival.current, radius)
    ensures stored <==> IsStorable(repo, old(repo.alerts), notice, message, radius)
    ensures if stored then IsNotified(repo, old(repo.alerts), old(repo.deliveries), notice, message, radius, now)
            else repo.alerts == old(repo.alerts) && repo.deliveries == old(repo.deliveries)
  {
    radius := 0.0;
    var begun := repo.alerts;
    if message.operation == Updated {
      var refreshed := repo.RefreshAlerts(notice, now);
      if refreshed.Failure? {
        return false, radius;
      }
    }
    if message.notificationsEligible {
      var counted;
      counted, radius := repo.CreateDeliveries(notice, now);
      if counted.Failure? {
        repo.alerts := begun;
        return false, radius;
      }
    }
    return true, radius;
  }

  /** A message that is refused, a duplicate, or one whose alerts cannot be stored leaves nothing behind; any other leaves
      its inbox row together with all its notifications. */
  method ApplyIncidentMessage(inbox: MessagingRepository, repo: NotificationRepository, reading: Reading, position: Position,
                              message: IncidentChanged, now: int)
    returns (processed: Result<bool, ConsumerError>, ghost radius: real)
    modifies inbox`notifications, repo`alerts, repo`deliveries
    ensures match Pipelines.ApplyIncidentMessage(old(inbox.notifications), position, message)
            case Failure(reason) => processed == Failure(Message(reason))
            case Success((rows, false)) => processed == Success(false)
            case Success((rows, true)) =>
              && message.current.incident.Some?
              && var notice := reading.NoticeOf(message, now);
                 && (message.notificationsEligible && IsRefreshable(repo, old(repo.alerts), notice, message.operation) ==>
                       Subscriptions.CandidateRadiusOf(repo.geodesy, notice.arrival.current, radius))
                 && if IsStorable(repo, old(repo.alerts), notice, message, radius) then
                      && processed == Success(true) && inbox.notifications == rows
                      && IsNotified(repo, old(repo.alerts), old(repo.deliveries), notice, message, radius, now)
                    else
                      processed == Failure(Notifying(NotFound))
    ensures message.mode != "realtime" || !message.baselineComplete ==>
              repo.alerts.Keys == old(repo.alerts.Keys) && repo.deliveries == old(repo.deliveries)
    ensures processed != Success(true) ==>
              inbox.notifications == old(inbox.notifications)
              && repo.alerts == old(repo.alerts) && repo.deliveries == old(repo.deliveries)
  {
    radius := 0.0;
    var begun := inbox.notifications;
    var accepted := inbox.ApplyIncident(position, message);
    if accepted.Failure? {
      return Failure(Message(accepted.error)), radius;
    }
    if !accepted.value {
      return Success(false), radius;
    }
    var stored;
    stored, radius := Notify(repo, reading.NoticeOf(message, now), message, now);
    if !stored {
      inbox.notifications := begun;
      return Failure(Notifying(NotFound)), radius;
    }
    return Success(true), radius;
  }

  // ----- What a message leaves -----

  /** The notice of a message is about its version of its incident, shows the earlier state that it tells of, if any, and
      came as it did. */
  lemma NoticeShowsTheMessage(reading: Reading, message: IncidentChanged, now: int)
    requires message.current.incident.Some?
    ensures var notice := reading.NoticeOf(message, now);
            && Some(notice.incident) == message.current.incident && notice.version == message.current.version
            && notice.lifecycle == message.current.lifecycle
            && notice.arrival.mode == message.mode && notice.arrival.baselineComplete == message.baselineComplete
            && notice.arrival.now == now && Shows(reading, message.current, notice.arrival.current)
            && (notice.arrival.previous.Some? <==> message.previous.Some?)
            && (message.previous.Some? ==> Shows(reading, message.previous.value, notice.arrival.previous.value))
            && forall id, trigger :: notice.payload(id, trigger) == reading.payload(message.current, id, trigger)
  {
  }

  predicate Shows(reading: Reading, s: Snapshot, e: Subscriptions.Event) {
    && e.occurredAt == s.fields.occurredAt && e.place == s.fields.place && e.magnitude == s.fields.magnitude
    && e.depthKM == s.fields.depthKM && e.tsunami == reading.tsunami(s.fields.rest)
    && e.alertLevel == reading.alertLevel(s.fields.rest) && e.eventType == reading.eventType(s.fields.rest)
  }

  /** An update brings every alert of its incident to its version, whether the subscription is active or paused, and leaves
      those of disabled subscriptions and of other incidents alone. */
  lemma UpdateReachesAlertsExactlyWhen(subscriptions: map<SubscriptionId, Subscriptions.Subscription>,
                                       alerts: map<AlertKey, TelegramAlerts.Alert>, notice: Notice, now: int, key: AlertKey)
    requires key in alerts && key.subscription in subscriptions && alerts[key].desired.version < notice.version
    ensures var after := AlertsBefore(subscriptions, alerts, notice, Updated, now);
            && after.Keys == alerts.Keys
            && (after[key].desired.version == notice.version <==>
                key.incident == notice.incident
                && subscriptions[key.subscription].status in {Subscriptions.Active, Subscriptions.Paused})
            && (after[key].desired.version != notice.version ==> after[key] == alerts[key])
    ensures AlertsBefore(subscriptions, alerts, notice, Inserted, now) == alerts
  {
  }

  /** A message of a change that did not come in realtime, after a complete baseline, notifies nobody: at most it refreshes
      alerts that exist. */
  lemma OnlyRealtimeNotifies(repo: NotificationRepository, alerts: map<AlertKey, TelegramAlerts.Alert>,
                             deliveries: map<DeliveryKey, Delivery>, notice: Notice, message: IncidentChanged, radius: real,
                             now: int)
    requires ChangeOf(message).Success? && IsNotified(repo, alerts, deliveries, notice, message, radius, now)
    requires message.mode in {"baseline", "backfill", "recovery"} || !message.baselineComplete
    ensures repo.alerts.Keys == alerts.Keys && repo.deliveries == deliveries
  {
  }

  /** An alert that an update refreshes carries the text of the refresh: a trigger's text is for new alerts. */
  lemma RefreshedAlertsKeepTheirText(subscriptions: map<SubscriptionId, Subscriptions.Subscription>, g: Subscriptions.Geodesy,
                                     alerts: map<AlertKey, TelegramAlerts.Alert>, after: map<AlertKey, TelegramAlerts.Alert>,
                                     notice: Notice, radius: real, now: int, key: AlertKey)
    requires AlertsMatched(Refreshed(subscriptions, alerts, notice, now), after, {}, g, subscriptions, notice, radius, now)
    requires key in alerts && Refreshes(subscriptions, notice, key)
    ensures key in after && after[key] == TelegramAlerts.Upserted(alerts[key], notice.Content(key.subscription, None), now)
  {
    assert Lookup(after, key).Some?;
  }


  /** Matching what was matched changes nothing, even without the inbox. */
  lemma MatchingAgainChangesNothing(alerts: map<AlertKey, TelegramAlerts.Alert>, a: map<AlertKey, TelegramAlerts.Alert>,
                                    nextA: map<AlertKey, TelegramAlerts.Alert>, deliveries: map<DeliveryKey, Delivery>,
                                    d: map<DeliveryKey, Delivery>, nextD: map<DeliveryKey, Delivery>, g: Subscriptions.Geodesy,
                                    subscriptions: map<SubscriptionId, Subscriptions.Subscription>, notice: Notice, radius: real,
                                    now: int, later: int)
    requires AlertsMatched(alerts, a, {}, g, subscriptions, notice, radius, now)
    requires AlertsMatched(a, nextA, {}, g, subscriptions, notice, radius, later)
    requires DeliveriesMatched(deliveries, d, {}, g, subscriptions, notice, radius, now)
    requires DeliveriesMatched(d, nextD, {}, g, subscriptions, notice, radius, later)
    ensures nextA == a && nextD == d
  {
    forall key ensures Lookup(nextA, key) == Lookup(a, key) {
    }
    SameTable(a, nextA);
    forall key ensures Lookup(nextD, key) == Lookup(d, key) {
    }
    SameTable(d, nextD);
  }

  lemma SameTable<K, V>(a: map<K, V>, b: map<K, V>)
    requires forall key :: Lookup(a, key) == Lookup(b, key)
    ensures a == b
  {
    forall key ensures key in a <==> key in b {
      assert Lookup(a, key) == Lookup(b, key);
    }
    forall key | key in a ensures a[key] == b[key] {
      assert Lookup(a, key) == Lookup(b, key);
    }
  }
}
