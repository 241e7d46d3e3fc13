/** Who is sent what, told by subscription, earthquake and tables alone (internal/domain/notification/model.go and the query
    of createDeliveries in internal/repository/postgres/repository.go). */
module MatchingLaws {
  import opened Wrappers
  import opened Correlation
  import opened Shaking
  import opened Subscriptions
  import opened NotificationRepositories
  import TelegramAlerts

  // ----- Whom the database finds -----

  /** Without a threshold of intensity: no centre, or a centre with a radius that the earthquake lies within. With one: a
      centre within the search radius. */
  predicate IsFound(g: Geodesy, s: Subscription, e: Event, radius: real) {
    && s.status == Subscriptions.Active
    && (s.minimumIntensity.None? && s.center.Some? ==>
          s.radiusKM.Some? && g.geography(s.center.value, e.place) <= s.radiusKM.value)
    && (s.minimumIntensity.Some? ==> s.center.Some? && 0.0 < radius && g.geography(s.center.value, e.place) <= radius)
  }

  // ----- What fires -----

  predicate IsWarned(e: Event) {
    e.tsunami == Some(true)
  }

  predicate IsListed(allowed: set<string>, value: Option<string>) {
    allowed == {} || (value.Some? && value.value in allowed)
  }

  predicate IsWanted(s: Subscription, e: Event) {
    (s.tsunamiOnly ==> IsWarned(e)) && IsListed(s.allowedAlertLevels, e.alertLevel) && IsListed(s.allowedEventTypes, e.eventType)
  }

  /** A limit on magnitudes shuts out what has none. */
  predicate IsInRange(s: Subscription, e: Event) {
    && (s.minimumMagnitude.Some? ==> e.magnitude.Some? && s.minimumMagnitude.value <= e.magnitude.value)
    && (s.maximumMagnitude.Some? ==> e.magnitude.Some? && e.magnitude.value <= s.maximumMagnitude.value)
  }

  /** A user's Telegram subscription with a centre and a threshold of intensity. */
  predicate GoesByIntensity(s: Subscription) {
    s.channel == Telegram && s.kind == User && s.center.Some? && s.minimumIntensity.Some?
  }

  /** An upper estimate within half a degree of the threshold, or above. */
  predicate IsFelt(g: Geodesy, s: Subscription, e: Event, surface: Surface)
    requires s.center.Some? && s.minimumIntensity.Some?
  {
    var estimate := EstimateAt(g.e, e.magnitude, e.depthKM, surface(s.center.value, e.place));
    estimate.Success? && estimate.value.upper >= 1.0 && estimate.value.upper >= s.minimumIntensity.value - 0.5
  }

  predicate IsLetter(c: char, lower: char) {
    c == lower || ('a' <= lower <= 'z' && 'A' <= c <= 'Z' && c - 'A' == lower - 'a')
  }

  /** The word in letters of either case. */
  predicate Spells(s: string, word: string) {
    |s| == |word| && forall i :: 0 <= i < |s| ==> IsLetter(s[i], word[i])
  }

  const GRADES: seq<string> := ["green", "yellow", "orange", "red"]

  predicate IsGrade(level: Option<string>, k: int) {
    1 <= k <= 4 && level.Some? && Spells(level.value, GRADES[k - 1])
  }

  /** From no known level to one, or to a higher one: green, yellow, orange, red. */
  ghost predicate IsRaised(before: Option<string>, after: Option<string>) {
    exists k :: IsGrade(after, k) && forall j :: IsGrade(before, j) ==> j < k
  }

  /** Passes every filter of the subscription, its threshold of intensity or magnitude included. */
  predicate IsOfInterest(g: Geodesy, s: Subscription, e: Event) {
    IsWanted(s, e) && if GoesByIntensity(s) then IsFelt(g, s, e, g.geography) else IsInRange(s, e)
  }

  ghost predicate Fires(g: Geodesy, s: Subscription, a: Arrival, trigger: Trigger) {
    && IsOfInterest(g, s, a.current)
    && match trigger
       case NewEvent =>
         a.previous.None? && a.mode == "realtime" && a.baselineComplete && s.notifyOnNew
         && a.now <= a.current.occurredAt + s.maximumEventAge
       case MagnitudeThresholdCrossed =>
         !GoesByIntensity(s) && a.previous.Some? && s.notifyOnThresholdCrossing && s.minimumMagnitude.Some?
         && (a.previous.value.magnitude.Some? ==> a.previous.value.magnitude.value < s.minimumMagnitude.value)
       case IntensityThresholdCrossed =>
         GoesByIntensity(s) && a.previous.Some? && s.notifyOnThresholdCrossing && !IsFelt(g, s, a.previous.value, g.surface)
       case TsunamiActivated =>
         !GoesByIntensity(s) && a.previous.Some? && s.notifyOnTsunamiChange && IsWarned(a.current) && !IsWarned(a.previous.value)
       case AlertLevelIncreased =>
         !GoesByIntensity(s) && a.previous.Some? && s.notifyOnAlertIncrease
         && IsRaised(a.previous.value.alertLevel, a.current.alertLevel)
  }

  // ----- Alert levels -----

  lemma LowerSpells(s: string, word: string)
    requires forall i :: 0 <= i < |word| ==> 'a' <= word[i] <= 'z'
    ensures Lower(s) == word <==> Spells(s, word)
  {
    if Spells(s, word) {
      forall i | 0 <= i < |s| ensures Lower(s)[i] == word[i] {
        assert IsLetter(s[i], word[i]);
      }
    }
    if Lower(s) == word {
      forall i | 0 <= i < |s| ensures IsLetter(s[i], word[i]) {
        assert Lower(s)[i] == word[i];
      }
    }
  }

  lemma SeverityIsTheGrade(level: Option<string>, k: int)
    ensures IsGrade(level, k) <==> 1 <= k <= 4 && AlertSeverity(level) == k
  {
    if level.Some? {
      LowerSpells(level.value, "green");
      LowerSpells(level.value, "yellow");
      LowerSpells(level.value, "orange");
      LowerSpells(level.value, "red");
    }
  }

  lemma SeverityRisesExactlyWhenRaised(before: Option<string>, after: Option<string>)
    ensures AlertSeverity(after) > AlertSeverity(before) <==> IsRaised(before, after)
  {
    SeverityIsTheGrade(after, AlertSeverity(after));
    SeverityIsTheGrade(before, AlertSeverity(before));
    forall j ensures IsGrade(before, j) <==> 1 <= j <= 4 && AlertSeverity(before) == j {
      SeverityIsTheGrade(before, j);
    }
    if IsRaised(before, after) {
      var k :| IsGrade(after, k) && forall j :: IsGrade(before, j) ==> j < k;
      SeverityIsTheGrade(after, k);
    }
    if AlertSeverity(after) > AlertSeverity(before) {
      assert IsGrade(after, AlertSeverity(after));
    }
  }

  // ----- What one subscription is sent -----

  lemma UpperReaches(g: Geodesy, s: Subscription, e: Event, surface: Surface)
    requires s.center.Some? && s.minimumIntensity.Some?
    ensures var estimate := EstimateAt(g.e, e.magnitude, e.depthKM, surface(s.center.value, e.place));
            IsFelt(g, s, e, surface) <==>
            estimate.Success? && estimate.value.upper >= IntensityDecisionBoundary(s.minimumIntensity.value)
  {
  }

  lemma IntensityFiresExactlyWhen(g: Geodesy, s: Subscription, a: Arrival, trigger: Trigger)
    requires GoesByIntensity(s) && s.status == Subscriptions.Active
    ensures trigger in TriggersFor(g, s, a) <==> Fires(g, s, a, trigger)
  {
    UpperReaches(g, s, a.current, g.geography);
    if a.previous.Some? {
      UpperReaches(g, s, a.previous.value, g.surface);
    }
  }

  lemma EventFiresExactlyWhen(g: Geodesy, s: Subscription, a: Arrival, trigger: Trigger)
    requires !GoesByIntensity(s) && s.status == Subscriptions.Active
    ensures trigger in TriggersFor(g, s, a) <==> Fires(g, s, a, trigger)
  {
    if a.previous.Some? {
      SeverityRisesExactlyWhenRaised(a.previous.value.alertLevel, a.current.alertLevel);
    }
  }

  /** A trigger is sent to a subscription that the database finds and that it fires, and to no other. */
  lemma SentExactlyWhenFoundAndFired(g: Geodesy, s: Subscription, a: Arrival, radius: real, trigger: Trigger)
    ensures trigger in Notified(g, s, a, radius) <==> IsFound(g, s, a.current, radius) && Fires(g, s, a, trigger)
  {
    assert Selected(g, s, a.current, radius) <==> IsFound(g, s, a.current, radius);
    if s.status == Subscriptions.Active {
      if GoesByIntensity(s) {
        IntensityFiresExactlyWhen(g, s, a, trigger);
      } else {
        EventFiresExactlyWhen(g, s, a, trigger);
      }
    }
  }

  // ----- What a change leaves in the tables -----

  /** The order of several triggers. */
  function Turn(trigger: Trigger): nat {
    match trigger
    case NewEvent => 0
    case IntensityThresholdCrossed => 1
    case MagnitudeThresholdCrossed => 2
    case TsunamiActivated => 3
    case AlertLevelIncreased => 4
  }

  lemma FirstSentIsFirstFired(g: Geodesy, s: Subscription, a: Arrival, radius: real)
    requires Notified(g, s, a, radius) != []
    ensures var first := Notified(g, s, a, radius)[0];
            Fires(g, s, a, first) && forall other :: Fires(g, s, a, other) ==> Turn(first) <= Turn(other)
  {
    var sent := Notified(g, s, a, radius);
    SentExactlyWhenFoundAndFired(g, s, a, radius, sent[0]);
    forall other | Fires(g, s, a, other) ensures Turn(sent[0]) <= Turn(other) {
      SentExactlyWhenFoundAndFired(g, s, a, radius, other);
    }
  }

  /** The subscription is notified of the change over the channel. */
  ghost predicate IsNotifiedOf(g: Geodesy, subscriptions: map<SubscriptionId, Subscription>, notice: Notice, radius: real,
                               channel: Channel, id: SubscriptionId, trigger: Trigger)
  {
    && id in subscriptions && subscriptions[id].channel == channel
    && IsFound(g, subscriptions[id], notice.arrival.current, radius) && Fires(g, subscriptions[id], notice.arrival, trigger)
  }

  lemma SentIsNotifiedOf(g: Geodesy, subscriptions: map<SubscriptionId, Subscription>, notice: Notice, radius: real,
                         channel: Channel, id: SubscriptionId, trigger: Trigger)
    ensures trigger in Sent(g, subscriptions, notice, radius, channel, id) <==>
            IsNotifiedOf(g, subscriptions, notice, radius, channel, id, trigger)
  {
    if id in subscriptions {
      SentExactlyWhenFoundAndFired(g, subscriptions[id], notice.arrival, radius, trigger);
    }
  }

  /** Matching adds a delivery of this version for every trigger that a webhook subscription is notified of, and no other. */
  lemma DeliveryIsGainedExactlyWhen(before: map<DeliveryKey, Delivery>, after: map<DeliveryKey, Delivery>, g: Geodesy,
                                    subscriptions: map<SubscriptionId, Subscription>, notice: Notice, radius: real, now: int,
                                    key: DeliveryKey)
    requires DeliveriesMatched(before, after, {}, g, subscriptions, notice, radius, now)
    ensures key in before ==> key in after && after[key] == before[key]
    ensures key !in before ==>
              (key in after <==>
               key.incident == notice.incident && key.version == notice.version
               && IsNotifiedOf(g, subscriptions, notice, radius, Webhook, key.subscription, key.trigger))
    ensures key !in before && key in after ==> after[key] == Delivery(notice.payload(key.subscription, Some(key.trigger)), now)
  {
    SentIsNotifiedOf(g, subscriptions, notice, radius, Webhook, key.subscription, key.trigger);
    assert Lookup(after, key) == DeliveryAfter(Lookup(before, key), notice, key,
                                               Sent(g, subscriptions, notice, radius, Webhook, key.subscription), now);
  }

  lemma SomethingIsSent(g: Geodesy, subscriptions: map<SubscriptionId, Subscription>, notice: Notice, radius: real,
                        channel: Channel, id: SubscriptionId)
    ensures Sent(g, subscriptions, notice, radius, channel, id) != [] <==>
            exists trigger :: IsNotifiedOf(g, subscriptions, notice, radius, channel, id, trigger)
  {
    var sent := Sent(g, subscriptions, notice, radius, channel, id);
    if sent != [] {
      SentIsNotifiedOf(g, subscriptions, notice, radius, channel, id, sent[0]);
    }
    if exists trigger :: IsNotifiedOf(g, subscriptions, notice, radius, channel, id, trigger) {
      var trigger :| IsNotifiedOf(g, subscriptions, notice, radius, channel, id, trigger);
      SentIsNotifiedOf(g, subscriptions, notice, radius, channel, id, trigger);
    }
  }

  /** Matching adds an alert about the incident for every Telegram subscription that is notified of some trigger, and no other;
      its text is that of the first. */
  lemma AlertIsGainedExactlyWhen(before: map<AlertKey, TelegramAlerts.Alert>, after: map<AlertKey, TelegramAlerts.Alert>,
                                 g: Geodesy, subscriptions: map<SubscriptionId, Subscription>, notice: Notice, radius: real,
                                 now: int, key: AlertKey)
    requires AlertsMatched(before, after, {}, g, subscriptions, notice, radius, now) && key !in before
    ensures key in after <==>
            key.incident == notice.incident
            && exists trigger :: IsNotifiedOf(g, subscriptions, notice, radius, Telegram, key.subscription, trigger)
    ensures key in after ==>
              exists first ::
                && IsNotifiedOf(g, subscriptions, notice, radius, Telegram, key.subscription, first)
                && (forall other :: IsNotifiedOf(g, subscriptions, notice, radius, Telegram, key.subscription, other) ==>
                      Turn(first) <= Turn(other))
                && after[key] == TelegramAlerts.Alert(
                     None,
                     TelegramAlerts.Content(notice.version, notice.payload(key.subscription, Some(first)), notice.lifecycle),
                     None, TelegramAlerts.PendingSend, 0, now, None, None)
  {
    var sent := Sent(g, subscriptions, notice, radius, Telegram, key.subscription);
    SomethingIsSent(g, subscriptions, notice, radius, Telegram, key.subscription);
    assert Lookup(after, key) == if key.incident == notice.incident then AlertAfter(None, notice, key.subscription, sent, now)
                                 else None;
    if key in after {
      SentIsNotifiedOf(g, subscriptions, notice, radius, Telegram, key.subscription, sent[0]);
      FirstSentIsFirstFired(g, subscriptions[key.subscription], notice.arrival, radius);
    }
  }
}
