/** The notification tables as the program keeps them: matching of incident changes, and the Telegram alert projection
    (internal/repository/postgres/repository.go, internal/repository/postgres/telegram_alert.go). */
module NotificationRepositories {
  import opened Wrappers
  import opened Solutions
  import opened Correlation
  import opened Subscriptions
  import opened TelegramAlerts

  type SubscriptionId = nat

  datatype AlertKey = AlertKey(subscription: SubscriptionId, incident: Uuid)

  /** The unique key of webhook deliveries. */
  datatype DeliveryKey = DeliveryKey(subscription: SubscriptionId, incident: Uuid, version: nat, trigger: Trigger)

  datatype Delivery = Delivery(payload: string, createdAt: int)

  datatype NotificationError = NotFound

  /** An incident change to match; `payload` renders it for a subscription, with no trigger for a refresh. */
  datatype Notice = Notice(incident: Uuid, version: nat, lifecycle: Lifecycle, arrival: Arrival,
                           payload: (SubscriptionId, Option<Trigger>) -> string)
  {
    function Content(id: SubscriptionId, trigger: Option<Trigger>): TelegramAlerts.Content {
      TelegramAlerts.Content(version, payload(id, trigger), lifecycle)
    }
  }

  datatype Counters = Counters(selected: nat, candidates: nat, evaluations: nat, errors: nat, notify: nat, below: nat)

  // ----- What one change should leave behind -----

  function Lookup<K, V>(table: map<K, V>, key: K): Option<V> {
    if key in table then Some(table[key]) else None
  }

  function Projected(stored: Option<Alert>, content: TelegramAlerts.Content, now: int): Alert {
    match stored
    case None => Inserted(content, now)
    case Some(a) => Upserted(a, content, now)
  }

  predicate CanAlert(subscriptions: map<SubscriptionId, Subscription>, id: SubscriptionId) {
    id in subscriptions && subscriptions[id].channel == Telegram && subscriptions[id].chat.Some?
  }

  /** The first of several triggers gives the message its payload; the others find the version there already. */
  function AlertAfter(stored: Option<Alert>, notice: Notice, id: SubscriptionId, triggers: seq<Trigger>, now: int): Option<Alert> {
    if triggers == [] then stored else Some(Projected(stored, notice.Content(id, Some(triggers[0])), now))
  }

  function DeliveryAfter(stored: Option<Delivery>, notice: Notice, key: DeliveryKey, triggers: seq<Trigger>, now: int)
    : Option<Delivery>
  {
    if stored.None? && key.incident == notice.incident && key.version == notice.version && key.trigger in triggers then
      Some(Delivery(notice.payload(key.subscription, Some(key.trigger)), now))
    else
      stored
  }

  /** What matching gives a subscription over a channel. */
  function Sent(g: Geodesy, subscriptions: map<SubscriptionId, Subscription>, notice: Notice, radius: real,
                channel: Channel, id: SubscriptionId): seq<Trigger>
  {
    if id in subscriptions && subscriptions[id].channel == channel then
      Notified(g, subscriptions[id], notice.arrival, radius)
    else
      []
  }

  predicate Refreshes(subscriptions: map<SubscriptionId, Subscription>, notice: Notice, key: AlertKey) {
    && key.incident == notice.incident
    && key.subscription in subscriptions && subscriptions[key.subscription].status != Disabled
  }

  /** The existing alerts of the incident, those of disabled subscriptions excepted, at its version. */
  function Refreshed(subscriptions: map<SubscriptionId, Subscription>, alerts: map<AlertKey, Alert>, notice: Notice, now: int)
    : map<AlertKey, Alert>
  {
    map key <- alerts ::
      if Refreshes(subscriptions, notice, key) then Upserted(alerts[key], notice.Content(key.subscription, None), now)
      else alerts[key]
  }

  /** One subscription's triggers, and no others, are in the alerts. */
  ghost predicate AlertsGain(before: map<AlertKey, Alert>, after: map<AlertKey, Alert>, channel: Channel, notice: Notice,
                             id: SubscriptionId, triggers: seq<Trigger>, now: int)
  {
    forall key ::
      Lookup(after, key) == if channel == Telegram && key == AlertKey(id, notice.incident) then
                              AlertAfter(Lookup(before, key), notice, id, triggers, now)
                            else
                              Lookup(before, key)
  }

  ghost predicate DeliveriesGain(before: map<DeliveryKey, Delivery>, after: map<DeliveryKey, Delivery>, channel: Channel,
                                 notice: Notice, id: SubscriptionId, triggers: seq<Trigger>, now: int)
  {
    forall key ::
      Lookup(after, key) == if channel == Webhook && key.subscription == id then
                              DeliveryAfter(Lookup(before, key), notice, key, triggers, now)
                            else
                              Lookup(before, key)
  }

  /** Every alert of the incident is what its subscription's triggers make of it, and no other alert changes;
      `pending` subscriptions are still to be matched. */
  ghost predicate AlertsMatched(before: map<AlertKey, Alert>, after: map<AlertKey, Alert>, pending: set<SubscriptionId>,
                                g: Geodesy, subscriptions: map<SubscriptionId, Subscription>, notice: Notice, radius: real,
                                now: int)
  {
    forall key ::
      Lookup(after, key) == if key.incident == notice.incident && key.subscription !in pending then
                              AlertAfter(Lookup(before, key), notice, key.subscription,
                                         Sent(g, subscriptions, notice, radius, Telegram, key.subscription), now)
                            else
                              Lookup(before, key)
  }

  ghost predicate DeliveriesMatched(before: map<DeliveryKey, Delivery>, after: map<DeliveryKey, Delivery>,
                                    pending: set<SubscriptionId>, g: Geodesy,
                                    subscriptions: map<SubscriptionId, Subscription>, notice: Notice, radius: real, now: int)
  {
    forall key ::
      Lookup(after, key) == if key.subscription !in pending then
                              DeliveryAfter(Lookup(before, key), notice, key,
                                            Sent(g, subscriptions, notice, radius, Webhook, key.subscription), now)
                            else
                              Lookup(before, key)
  }

  /** Every subscription that needs a chat has one, those apart whose turn is still to come. */
  ghost predicate ChatsKnown(pending: set<SubscriptionId>, g: Geodesy, subscriptions: map<SubscriptionId, Subscription>,
                             notice: Notice, radius: real)
  {
    forall id <- subscriptions ::
      id !in pending && Sent(g, subscriptions, notice, radius, Telegram, id) != [] ==> subscriptions[id].chat.Some?
  }

  ghost predicate MatchedUpTo(beforeA: map<AlertKey, Alert>, a: map<AlertKey, Alert>, beforeD: map<DeliveryKey, Delivery>,
                              d: map<DeliveryKey, Delivery>, pending: set<SubscriptionId>, g: Geodesy,
                              subscriptions: map<SubscriptionId, Subscription>, notice: Notice, radius: real, now: int)
  {
    && AlertsMatched(beforeA, a, pending, g, subscriptions, notice, radius, now)
    && DeliveriesMatched(beforeD, d, pending, g, subscriptions, notice, radius, now)
    && ChatsKnown(pending, g, subscriptions, notice, radius)
  }

  ghost function SelectedIds(g: Geodesy, subscriptions: map<SubscriptionId, Subscription>, notice: Notice, radius: real)
    : set<SubscriptionId>
  {
    set id | id in subscriptions && Selected(g, subscriptions[id], notice.arrival.current, radius)
  }

  lemma MatchingBegins(a: map<AlertKey, Alert>, d: map<DeliveryKey, Delivery>, ids: set<SubscriptionId>, g: Geodesy,
                       subscriptions: map<SubscriptionId, Subscription>, notice: Notice, radius: real, now: int)
    requires ids == SelectedIds(g, subscriptions, notice, radius)
    ensures MatchedUpTo(a, a, d, d, ids, g, subscriptions, notice, radius, now)
  {
  }

  lemma MissingChatIsKnown(id: SubscriptionId, g: Geodesy, subscriptions: map<SubscriptionId, Subscription>, notice: Notice,
                           radius: real)
    requires id in subscriptions && Notified(g, subscriptions[id], notice.arrival, radius) != []
    requires subscriptions[id].channel == Telegram && subscriptions[id].chat.None?
    ensures !ChatsKnown({}, g, subscriptions, notice, radius)
  {
    assert Sent(g, subscriptions, notice, radius, Telegram, id) != [];
  }

  lemma ChatsOneMore(pending: set<SubscriptionId>, id: SubscriptionId, g: Geodesy,
                     subscriptions: map<SubscriptionId, Subscription>, notice: Notice, radius: real)
    requires ChatsKnown(pending, g, subscriptions, notice, radius) && id in pending && id in subscriptions
    requires Notified(g, subscriptions[id], notice.arrival, radius) == [] || subscriptions[id].channel == Webhook
             || subscriptions[id].chat.Some?
    ensures ChatsKnown(pending - {id}, g, subscriptions, notice, radius)
  {
  }

  lemma AlertsOneMore(before: map<AlertKey, Alert>, a: map<AlertKey, Alert>, next: map<AlertKey, Alert>,
                      pending: set<SubscriptionId>, id: SubscriptionId, g: Geodesy,
                      subscriptions: map<SubscriptionId, Subscription>, notice: Notice, radius: real, now: int)
    requires AlertsMatched(before, a, pending, g, subscriptions, notice, radius, now) && id in pending && id in subscriptions
    requires AlertsGain(a, next, subscriptions[id].channel, notice, id, Notified(g, subscriptions[id], notice.arrival, radius), now)
    ensures AlertsMatched(before, next, pending - {id}, g, subscriptions, notice, radius, now)
  {
  }

  lemma DeliveriesOneMore(before: map<DeliveryKey, Delivery>, d: map<DeliveryKey, Delivery>, next: map<DeliveryKey, Delivery>,
                          pending: set<SubscriptionId>, id: SubscriptionId, g: Geodesy,
                          subscriptions: map<SubscriptionId, Subscription>, notice: Notice, radius: real, now: int)
    requires DeliveriesMatched(before, d, pending, g, subscriptions, notice, radius, now) && id in pending && id in subscriptions
    requires DeliveriesGain(d, next, subscriptions[id].channel, notice, id, Notified(g, subscriptions[id], notice.arrival, radius), now)
    ensures DeliveriesMatched(before, next, pending - {id}, g, subscriptions, notice, radius, now)
  {
  }

  lemma MatchingOneMore(beforeA: map<AlertKey, Alert>, a: map<AlertKey, Alert>, nextA: map<AlertKey, Alert>,
                        beforeD: map<DeliveryKey, Delivery>, d: map<DeliveryKey, Delivery>, nextD: map<DeliveryKey, Delivery>,
                        pending: set<SubscriptionId>, id: SubscriptionId, g: Geodesy,
                        subscriptions: map<SubscriptionId, Subscription>, notice: Notice, radius: real, now: int)
    requires MatchedUpTo(beforeA, a, beforeD, d, pending, g, subscriptions, notice, radius, now)
    requires id in pending && id in subscriptions
    requires AlertsGain(a, nextA, subscriptions[id].channel, notice, id, Notified(g, subscriptions[id], notice.arrival, radius), now)
    requires DeliveriesGain(d, nextD, subscriptions[id].channel, notice, id, Notified(g, subscriptions[id], notice.arrival, radius), now)
    requires Notified(g, subscriptions[id], notice.arrival, radius) == [] || subscriptions[id].channel == Webhook
             || subscriptions[id].chat.Some?
    ensures MatchedUpTo(beforeA, nextA, beforeD, nextD, pending - {id}, g, subscriptions, notice, radius, now)
  {
    AlertsOneMore(beforeA, a, nextA, pending, id, g, subscriptions, notice, radius, now);
    DeliveriesOneMore(beforeD, d, nextD, pending, id, g, subscriptions, notice, radius, now);
    ChatsOneMore(pending, id, g, subscriptions, notice, radius);
  }

  // ----- What matching counts -----

  ghost function Among(ids: set<SubscriptionId>, group: iset<SubscriptionId>): set<SubscriptionId> {
    set id | id in ids && id in group
  }

  lemma AmongOneMore(ids: set<SubscriptionId>, group: iset<SubscriptionId>, id: SubscriptionId)
    requires id !in ids
    ensures |Among(ids + {id}, group)| == |Among(ids, group)| + if id in group then 1 else 0
  {
    assert Among(ids + {id}, group) == Among(ids, group) + if id in group then {id} else {};
  }

  /** The subscriptions that are matched by the estimate. */
  ghost function Candidates(subscriptions: map<SubscriptionId, Subscription>): iset<SubscriptionId> {
    iset id | id in subscriptions && ByIntensity(subscriptions[id])
  }

  /** Those whose estimate fails. */
  ghost function Failing(g: Geodesy, subscriptions: map<SubscriptionId, Subscription>, notice: Notice): iset<SubscriptionId> {
    iset id | id in subscriptions && ByIntensity(subscriptions[id])
              && CurrentEstimate(g, subscriptions[id], notice.arrival.current).Failure?
  }

  /** Those that the estimate notifies. */
  ghost function Notifying(g: Geodesy, subscriptions: map<SubscriptionId, Subscription>, notice: Notice): iset<SubscriptionId> {
    iset id | id in subscriptions && ByIntensity(subscriptions[id]) && TriggersFor(g, subscriptions[id], notice.arrival) != []
  }

  /** The counters of the matching of `ids`. */
  ghost predicate Counts(c: Counters, g: Geodesy, subscriptions: map<SubscriptionId, Subscription>, notice: Notice,
                         ids: set<SubscriptionId>)
  {
    && c.candidates == |Among(ids, Candidates(subscriptions))|
    && c.errors == |Among(ids, Failing(g, subscriptions, notice))|
    && c.notify == |Among(ids, Notifying(g, subscriptions, notice))|
    && c.candidates == c.evaluations + c.errors && c.evaluations == c.notify + c.below
  }

  function Evaluated(c: Counters, estimated: bool, notified: bool): Counters {
    if !estimated then
      c.(candidates := c.candidates + 1, errors := c.errors + 1)
    else if notified then
      c.(candidates := c.candidates + 1, evaluations := c.evaluations + 1, notify := c.notify + 1)
    else
      c.(candidates := c.candidates + 1, evaluations := c.evaluations + 1, below := c.below + 1)
  }

  function Counted(c: Counters, g: Geodesy, s: Subscription, notice: Notice): Counters {
    if ByIntensity(s) then
      Evaluated(c, CurrentEstimate(g, s, notice.arrival.current).Success?, TriggersFor(g, s, notice.arrival) != [])
    else
      c
  }

  lemma NothingCounted(g: Geodesy, subscriptions: map<SubscriptionId, Subscription>, notice: Notice, selected: nat)
    ensures Counts(Counters(selected, 0, 0, 0, 0, 0), g, subscriptions, notice, {})
  {
  }

  lemma CountsOneMore(c: Counters, g: Geodesy, subscriptions: map<SubscriptionId, Subscription>, notice: Notice,
                      ids: set<SubscriptionId>, id: SubscriptionId)
    requires Counts(c, g, subscriptions, notice, ids) && id !in ids && id in subscriptions
    ensures Counts(Counted(c, g, subscriptions[id], notice), g, subscriptions, notice, ids + {id})
    ensures Counted(c, g, subscriptions[id], notice).selected == c.selected
  {
    AmongOneMore(ids, Candidates(subscriptions), id);
    AmongOneMore(ids, Failing(g, subscriptions, notice), id);
    AmongOneMore(ids, Notifying(g, subscriptions, notice), id);
  }

  /** Matching under way: the selected subscriptions are `done`, stored and counted, or `pending`. */
  ghost predicate IsMatching(beforeA: map<AlertKey, Alert>, a: map<AlertKey, Alert>, beforeD: map<DeliveryKey, Delivery>,
                             d: map<DeliveryKey, Delivery>, c: Counters, ids: set<SubscriptionId>, pending: set<SubscriptionId>,
                             g: Geodesy, subscriptions: map<SubscriptionId, Subscription>, notice: Notice, radius: real, now: int)
  {
    && pending <= ids && c.selected == |ids| && Counts(c, g, subscriptions, notice, ids - pending)
    && MatchedUpTo(beforeA, a, beforeD, d, pending, g, subscriptions, notice, radius, now)
  }

  lemma MatchingGoesOn(beforeA: map<AlertKey, Alert>, a: map<AlertKey, Alert>, nextA: map<AlertKey, Alert>,
                       beforeD: map<DeliveryKey, Delivery>, d: map<DeliveryKey, Delivery>, nextD: map<DeliveryKey, Delivery>,
                       c: Counters, next: Counters, ids: set<SubscriptionId>, pending: set<SubscriptionId>, id: SubscriptionId,
                       g: Geodesy, subscriptions: map<SubscriptionId, Subscription>, notice: Notice, radius: real, now: int)
    requires IsMatching(beforeA, a, beforeD, d, c, ids, pending, g, subscriptions, notice, radius, now)
    requires id in pending && id in subscriptions && next == Counted(c, g, subscriptions[id], notice)
    requires AlertsGain(a, nextA, subscriptions[id].channel, notice, id, Notified(g, subscriptions[id], notice.arrival, radius), now)
    requires DeliveriesGain(d, nextD, subscriptions[id].channel, notice, id, Notified(g, subscriptions[id], notice.arrival, radius), now)
    requires Notified(g, subscriptions[id], notice.arrival, radius) == [] || subscriptions[id].channel == Webhook
             || subscriptions[id].chat.Some?
    ensures IsMatching(beforeA, nextA, beforeD, nextD, next, ids, pending - {id}, g, subscriptions, notice, radius, now)
  {
    MatchingOneMore(beforeA, a, nextA, beforeD, d, nextD, pending, id, g, subscriptions, notice, radius, now);
    CountsOneMore(c, g, subscriptions, notice, ids - pending, id);
    assert ids - (pending - {id}) == ids - pending + {id};
  }

  // ----- Claims -----

  predicate IsClaimable(subscriptions: map<SubscriptionId, Subscription>, alerts: map<AlertKey, Alert>, key: AlertKey,
                        lockTimeout: int, now: int)
    requires key in alerts
  {
    key.subscription in subscriptions && IsDue(alerts[key], lockTimeout, now)
  }

  /** Users come before the global channel, then the row that has been due longest. */
  predicate Precedes(subscriptions: map<SubscriptionId, Subscription>, alerts: map<AlertKey, Alert>, a: AlertKey, b: AlertKey) {
    && a in alerts && b in alerts && a.subscription in subscriptions && b.subscription in subscriptions
    && var userA, userB := subscriptions[a.subscription].kind == User, subscriptions[b.subscription].kind == User;
       if userA != userB then userA else alerts[a].nextAttemptAt <= alerts[b].nextAttemptAt
  }

  ghost predicate IsAlertClaim(subscriptions: map<SubscriptionId, Subscription>, alerts: map<AlertKey, Alert>,
                               keys: set<AlertKey>, busy: set<AlertKey>, batch: nat, lockTimeout: int, now: int)
  {
    && keys <= alerts.Keys - busy && |keys| <= batch
    && (forall key <- keys :: IsClaimable(subscriptions, alerts, key, lockTimeout, now))
    && (forall key <- alerts :: key !in keys && key !in busy && IsClaimable(subscriptions, alerts, key, lockTimeout, now) ==>
          |keys| == batch && forall chosen <- keys :: Precedes(subscriptions, alerts, chosen, key))
  }

  /** Waiting for its next attempt, which has come, or in processing under a lock that has outlived the timeout; a row that
      is active or dead waits for nothing. */
  predicate IsWaiting(a: Alert, lockTimeout: int, now: int) {
    match a.status
    case Processing => a.lockedAt.Some? && a.lockedAt.value + lockTimeout < now
    case Active => false
    case Dead => false
    case _ => a.nextAttemptAt <= now
  }

  predicate IsOfUser(subscriptions: map<SubscriptionId, Subscription>, key: AlertKey) {
    key.subscription in subscriptions && subscriptions[key.subscription].kind == User
  }

  /** A claim takes waiting rows only, and leaves one behind only if it is full of rows that go first: rows of users before
      those of the channel, then the ones that have waited longest. */
  ghost predicate TakesTheMostUrgent(subscriptions: map<SubscriptionId, Subscription>, alerts: map<AlertKey, Alert>,
                                     keys: set<AlertKey>, busy: set<AlertKey>, batch: nat, lockTimeout: int, now: int)
  {
    && |keys| <= batch
    && (forall key <- keys ::
          key in alerts && key !in busy && key.subscription in subscriptions && IsWaiting(alerts[key], lockTimeout, now))
    && (forall key <- alerts ::
          key !in keys && key !in busy && key.subscription in subscriptions && IsWaiting(alerts[key], lockTimeout, now) ==>
            && |keys| == batch
            && forall chosen <- keys ::
                 if IsOfUser(subscriptions, chosen) != IsOfUser(subscriptions, key) then IsOfUser(subscriptions, chosen)
                 else alerts[chosen].nextAttemptAt <= alerts[key].nextAttemptAt)
  }

  lemma DueIsWaiting(a: Alert, lockTimeout: int, now: int)
    ensures IsDue(a, lockTimeout, now) <==> IsWaiting(a, lockTimeout, now)
  {
  }

  lemma AlertClaimTakesTheMostUrgent(subscriptions: map<SubscriptionId, Subscription>, alerts: map<AlertKey, Alert>,
                                     keys: set<AlertKey>, busy: set<AlertKey>, batch: nat, lockTimeout: int, now: int)
    requires IsAlertClaim(subscriptions, alerts, keys, busy, batch, lockTimeout, now)
    ensures TakesTheMostUrgent(subscriptions, alerts, keys, busy, batch, lockTimeout, now)
  {
    forall key | key in alerts ensures IsDue(alerts[key], lockTimeout, now) <==> IsWaiting(alerts[key], lockTimeout, now) {
      DueIsWaiting(alerts[key], lockTimeout, now);
    }
    forall key, chosen | key in alerts && key !in keys && key !in busy && key.subscription in subscriptions
                         && IsWaiting(alerts[key], lockTimeout, now) && chosen in keys
      ensures if IsOfUser(subscriptions, chosen) != IsOfUser(subscriptions, key) then IsOfUser(subscriptions, chosen)
              else alerts[chosen].nextAttemptAt <= alerts[key].nextAttemptAt
    {
      assert Precedes(subscriptions, alerts, chosen, key);
    }
  }

  method MostUrgent(subscriptions: map<SubscriptionId, Subscription>, alerts: map<AlertKey, Alert>, keys: set<AlertKey>)
    returns (first: AlertKey)
    requires keys != {} && forall key <- keys :: key in alerts && key.subscription in subscriptions
    ensures first in keys && forall key <- keys :: Precedes(subscriptions, alerts, first, key)
  {
    first :| first in keys;
    var rest := keys - {first};
    while rest != {}
      invariant rest <= keys && first in keys
      invariant forall key <- keys - rest :: Precedes(subscriptions, alerts, first, key)
      decreases |rest|
    {
      var key :| key in rest;
      if !Precedes(subscriptions, alerts, first, key) {
        forall other | other in keys - rest ensures Precedes(subscriptions, alerts, key, other) {
          assert Precedes(subscriptions, alerts, first, other);
        }
        first := key;
      }
      rest := rest - {key};
    }
  }

  // ----- The tables -----

  class NotificationRepository {
    const geodesy: Geodesy
    var subscriptions: map<SubscriptionId, Subscription>
    var alerts: map<AlertKey, Alert>
    var deliveries: map<DeliveryKey, Delivery>

    constructor (geodesy: Geodesy, subscriptions: map<SubscriptionId, Subscription>)
      ensures this.geodesy == geodesy && this.subscriptions == subscriptions && alerts == map[] && deliveries == map[]
    {
      this.geodesy, this.subscriptions, alerts, deliveries := geodesy, subscriptions, map[], map[];
    }

    /** Creates the alert or moves it to a newer version; only a Telegram subscription with a chat has alerts. */
    method UpsertAlert(key: AlertKey, content: TelegramAlerts.Content, now: int) returns (found: bool)
      modifies this`alerts
      ensures found <==> CanAlert(subscriptions, key.subscription)
      ensures alerts == if found then old(alerts)[key := Projected(Lookup(old(alerts), key), content, now)] else old(alerts)
    {
      if key.subscription !in subscriptions {
        return false;
      }
      var s := subscriptions[key.subscription];
      if s.channel != Telegram || s.chat.None? {
        return false;
      }
      if key !in alerts {
        alerts := alerts[key := Inserted(content, now)];
      } else if content.version > alerts[key].desired.version {
        var a := alerts[key];
        alerts := alerts[key := a.(desired := content,
                                   status := if a.messageId.None? then PendingSend else PendingEdit,
                                   nextAttemptAt := if now < a.nextAttemptAt then now else a.nextAttemptAt)];
      } else {
        alerts := alerts[key := alerts[key]];
      }
      return true;
    }

    /** Stores what one subscription is sent, trigger by trigger. */
    method Deliver(id: SubscriptionId, notice: Notice, triggers: seq<Trigger>, now: int) returns (stored: bool)
      requires id in subscriptions
      modifies this`alerts, this`deliveries
      ensures stored <==> triggers == [] || subscriptions[id].channel == Webhook || subscriptions[id].chat.Some?
      ensures stored ==> AlertsGain(old(alerts), alerts, subscriptions[id].channel, notice, id, triggers, now)
      ensures stored ==> DeliveriesGain(old(deliveries), deliveries, subscriptions[id].channel, notice, id, triggers, now)
    {
      var telegram := subscriptions[id].channel == Telegram;
      for i := 0 to |triggers|
        invariant i > 0 ==> !telegram || subscriptions[id].chat.Some?
        invariant AlertsGain(old(alerts), alerts, subscriptions[id].channel, notice, id, triggers[..i], now)
        invariant DeliveriesGain(old(deliveries), deliveries, subscriptions[id].channel, notice, id, triggers[..i], now)
      {
        assert triggers[..i + 1] == triggers[..i] + [triggers[i]];
        if telegram {
          var before := Lookup(alerts, AlertKey(id, notice.incident));
          var found := UpsertAlert(AlertKey(id, notice.incident), notice.Content(id, Some(triggers[i])), now);
          if !found {
            return false;
          }
          assert Lookup(alerts, AlertKey(id, notice.incident)) == Some(Projected(before, notice.Content(id, Some(triggers[i])), now));
        } else {
          var key := DeliveryKey(id, notice.incident, notice.version, triggers[i]);
          if key !in deliveries {
            deliveries := deliveries[key := Delivery(notice.payload(id, Some(triggers[i])), now)];
          }
        }
      }
      assert triggers[..|triggers|] == triggers;
      return true;
    }

    /** One selected subscription: its triggers, counted and stored. */
    method MatchOne(id: SubscriptionId, notice: Notice, radius: real, now: int, counted: Counters)
      returns (stored: bool, counters: Counters)
      requires id in subscriptions && Selected(geodesy, subscriptions[id], notice.arrival.current, radius)
      modifies this`alerts, this`deliveries
      ensures var s, triggers := subscriptions[id], Notified(geodesy, subscriptions[id], notice.arrival, radius);
              && (stored <==> triggers == [] || s.channel == Webhook || s.chat.Some?)
              && (stored ==> AlertsGain(old(alerts), alerts, s.channel, notice, id, triggers, now))
              && (stored ==> DeliveriesGain(old(deliveries), deliveries, s.channel, notice, id, triggers, now))
      ensures counters == Counted(counted, geodesy, subscriptions[id], notice)
    {
      var s := subscriptions[id];
      var triggers := TriggersFor(geodesy, s, notice.arrival);
      counters := counted;
      if ByIntensity(s) {
        var estimate := CurrentEstimate(geodesy, s, notice.arrival.current);
        counters := counters.(candidates := counters.candidates + 1);
        if estimate.Failure? {
          counters := counters.(errors := counters.errors + 1);
        } else {
          counters := counters.(evaluations := counters.evaluations + 1);
          if triggers != [] {
            counters := counters.(notify := counters.notify + 1);
          } else {
            counters := counters.(below := counters.below + 1);
          }
        }
      }
      stored := Deliver(id, notice, triggers, now);
    }

    /** All subscriptions that the database selects, until one cannot be stored. */
    method MatchAll(notice: Notice, radius: real, now: int) returns (stored: bool, counters: Counters)
      modifies this`alerts, this`deliveries
      ensures stored <==> ChatsKnown({}, geodesy, subscriptions, notice, radius)
      ensures stored ==> AlertsMatched(old(alerts), alerts, {}, geodesy, subscriptions, notice, radius, now)
      ensures stored ==> DeliveriesMatched(old(deliveries), deliveries, {}, geodesy, subscriptions, notice, radius, now)
      ensures var ids := SelectedIds(geodesy, subscriptions, notice, radius);
              stored ==> counters.selected == |ids| && Counts(counters, geodesy, subscriptions, notice, ids)
    {
      var pending := set id | id in subscriptions && Selected(geodesy, subscriptions[id], notice.arrival.current, radius);
      ghost var ids := SelectedIds(geodesy, subscriptions, notice, radius);
      NothingCounted(geodesy, subscriptions, notice, |pending|);
      assert pending == ids && ids - pending == {};
      counters := Counters(|pending|, 0, 0, 0, 0, 0);
      MatchingBegins(alerts, deliveries, ids, geodesy, subscriptions, notice, radius, now);
      while pending != {}
        invariant IsMatching(old(alerts), alerts, old(deliveries), deliveries, counters, ids, pending, geodesy, subscriptions,
                             notice, radius, now)
        decreases |pending|
      {
        var id :| id in pending;
        ghost var a, d, counted := alerts, deliveries, counters;
        stored, counters := MatchOne(id, notice, radius, now, counters);
        if !stored {
          MissingChatIsKnown(id, geodesy, subscriptions, notice, radius);
          return;
        }
        MatchingGoesOn(old(alerts), a, alerts, old(deliveries), d, deliveries, counted, counters, ids, pending, id, geodesy,
                       subscriptions, notice, radius, now);
        pending := pending - {id};
      }
      assert ids - pending == ids;
      stored := true;
    }

    /** Matches a change against all subscriptions. Afterwards every alert and every delivery is what its subscription's
        triggers make of it; after an error nothing has changed. The counters add up. */
    method CreateDeliveries(notice: Notice, now: int) returns (counted: Result<Counters, NotificationError>, radius: real)
      modifies this`alerts, this`deliveries
      ensures CandidateRadiusOf(geodesy, notice.arrival.current, radius)
      ensures counted.Success? <==> ChatsKnown({}, geodesy, subscriptions, notice, radius)
      ensures counted.Failure? ==> alerts == old(alerts) && deliveries == old(deliveries)
      ensures counted.Success? ==> AlertsMatched(old(alerts), alerts, {}, geodesy, subscriptions, notice, radius, now)
      ensures counted.Success? ==> DeliveriesMatched(old(deliveries), deliveries, {}, geodesy, subscriptions, notice, radius, now)
      ensures counted.Success? ==>
                var ids := SelectedIds(geodesy, subscriptions, notice, radius);
                counted.value.selected == |ids| && Counts(counted.value, geodesy, subscriptions, notice, ids)
    {
      var current := notice.arrival.current;
      radius := Shaking.CandidateRadius(geodesy.e, current.magnitude, current.depthKM, CANDIDATE_MMI);
      var begunAlerts, begunDeliveries := alerts, deliveries;
      var stored, counters := MatchAll(notice, radius, now);
      if !stored {
        alerts, deliveries := begunAlerts, begunDeliveries;
        return Failure(NotFound), radius;
      }
      return Success(counters), radius;
    }

    /** Brings the existing alerts of an updated incident to its version, those of disabled subscriptions excepted. */
    method RefreshAlerts(notice: Notice, now: int) returns (refreshed: Result<(), NotificationError>)
      modifies this`alerts
      ensures refreshed.Success? <==>
              forall key <- old(alerts) :: Refreshes(subscriptions, notice, key) ==> CanAlert(subscriptions, key.subscription)
      ensures alerts == if refreshed.Failure? then old(alerts) else Refreshed(subscriptions, old(alerts), notice, now)
    {
      var begun := alerts;
      var pending := set key | key in alerts && Refreshes(subscriptions, notice, key);
      while pending != {}
        invariant pending <= begun.Keys == alerts.Keys
        invariant forall key <- begun :: key in pending ==> Refreshes(subscriptions, notice, key)
        invariant forall key <- begun :: key !in pending && Refreshes(subscriptions, notice, key) ==>
                    CanAlert(subscriptions, key.subscription)
        invariant forall key <- begun :: alerts[key] ==
                    if Refreshes(subscriptions, notice, key) && key !in pending then
                      Upserted(begun[key], notice.Content(key.subscription, None), now)
                    else
                      begun[key]
        decreases |pending|
      {
        var key :| key in pending;
        pending := pending - {key};
        var found := UpsertAlert(key, notice.Content(key.subscription, None), now);
        if !found {
          alerts := begun;
          return Failure(NotFound);
        }
      }
      return Success(());
    }

    /** The keys of at most `batch` due rows that are not busy: all of them, or none that another one precedes. */
    method DueAlerts(batch: nat, lockTimeout: int, now: int, busy: set<AlertKey>) returns (keys: set<AlertKey>)
      ensures IsAlertClaim(subscriptions, alerts, keys, busy, batch, lockTimeout, now)
    {
      var due := set key | key in alerts && key !in busy && IsClaimable(subscriptions, alerts, key, lockTimeout, now);
      keys := {};
      while due != {} && |keys| < batch
        invariant keys !! due && |keys| <= batch
        invariant forall key <- alerts :: key in keys + due <==>
                    key !in busy && IsClaimable(subscriptions, alerts, key, lockTimeout, now)
        invariant keys + due <= alerts.Keys
        invariant forall chosen <- keys, other <- due :: Precedes(subscriptions, alerts, chosen, other)
        decreases |due|
      {
        var first := MostUrgent(subscriptions, alerts, due);
        keys, due := keys + {first}, due - {first};
      }
    }

    /** Locks up to `batch` due rows for a worker, the most urgent first, skipping those that other transactions keep busy,
        and returns them as they then are. */
    method ClaimAlerts(worker: Worker, batch: nat, lockTimeout: int, now: int, busy: set<AlertKey>)
      returns (claimed: map<AlertKey, Alert>)
      modifies this`alerts
      ensures IsAlertClaim(subscriptions, old(alerts), claimed.Keys, busy, batch, lockTimeout, now)
      ensures TakesTheMostUrgent(subscriptions, old(alerts), claimed.Keys, busy, batch, lockTimeout, now)
      ensures forall key <- claimed ::
                claimed[key] == old(alerts)[key].(status := Processing, lockedAt := Some(now), lockedBy := Some(worker))
      ensures alerts == old(alerts) + claimed
    {
      var keys := DueAlerts(batch, lockTimeout, now, busy);
      claimed := map key | key in keys :: Claimed(alerts[key], worker, now);
      assert claimed.Keys == keys;
      AlertClaimTakesTheMostUrgent(subscriptions, alerts, keys, busy, batch, lockTimeout, now);
      alerts := alerts + claimed;
    }

    method CompleteAlert(key: AlertKey, version: nat, messageId: MessageId, attempt: nat, now: int) returns (found: bool)
      modifies this`alerts
      ensures found <==> key in old(alerts)
      ensures alerts == if found then old(alerts)[key := Completed(old(alerts)[key], version, messageId, attempt, now)]
                        else old(alerts)
    {
      if key !in alerts {
        return false;
      }
      var a := alerts[key];
      if a.messageId.None? {
        a := a.(messageId := Some(messageId));
      }
      if a.delivered.GetOr(0) < version || a.delivered.None? {
        a := a.(delivered := Some(version));
      }
      a := a.(status := if a.desired.version > version then PendingEdit else TelegramAlerts.Active);
      alerts := alerts[key := a.(attempts := attempt, nextAttemptAt := now, lockedAt := None, lockedBy := None)];
      return true;
    }

    method FailAlert(key: AlertKey, attempt: nat, nextAttemptAt: int, dead: bool) returns (found: bool)
      modifies this`alerts
      ensures found <==> key in old(alerts)
      ensures alerts == if found then old(alerts)[key := Failed(old(alerts)[key], attempt, nextAttemptAt, dead)] else old(alerts)
    {
      if key !in alerts {
        return false;
      }
      var status := Retry;
      if dead {
        status := Dead;
      }
      alerts := alerts[key := alerts[key].(status := status, attempts := attempt, nextAttemptAt := nextAttemptAt,
                                           lockedAt := None, lockedBy := None)];
      return true;
    }
  }
}
