/** Whom an incident change notifies: the exact tests of a subscription, and the search radius that preselects
    subscriptions in the database (internal/domain/notification/model.go, internal/repository/postgres/repository.go). */
module Subscriptions {
  import opened Wrappers
  import opened Correlation
  import opened Shaking

  datatype Trigger = NewEvent | MagnitudeThresholdCrossed | IntensityThresholdCrossed | TsunamiActivated | AlertLevelIncreased

  datatype Status = Active | Paused | Disabled

  datatype Channel = Webhook | Telegram

  datatype Kind = User | GlobalChannel

  datatype Subscription = Subscription(
    status: Status, channel: Channel, kind: Kind, chat: Option<int>,
    minimumMagnitude: Option<real>, maximumMagnitude: Option<real>, minimumIntensity: Option<real>,
    center: Option<Place>, radiusKM: Option<real>, tsunamiOnly: bool,
    allowedAlertLevels: set<string>, allowedEventTypes: set<string>,
    notifyOnNew: bool, notifyOnThresholdCrossing: bool, notifyOnTsunamiChange: bool, notifyOnAlertIncrease: bool,
    maximumEventAge: int)

  /** What matching reads of an incident. */
  datatype Event = Event(occurredAt: int, place: Place, magnitude: Option<real>, depthKM: Option<real>,
                         tsunami: Option<bool>, alertLevel: Option<string>, eventType: Option<string>)

  /** How a change arrives: its earlier and current state, and the circumstances of its ingestion. */
  datatype Arrival = Arrival(previous: Option<Event>, current: Event, mode: string, baselineComplete: bool, now: int)

  // ----- Exact tests -----

  /** Upper-case letters of the levels in lower case. */
  function Lower(s: string): string {
    seq(|s|, i requires 0 <= i < |s| => if 'A' <= s[i] <= 'Z' then s[i] - 'A' + 'a' else s[i])
  }

  function AlertSeverity(level: Option<string>): nat {
    match if level.Some? then Some(Lower(level.value)) else None
    case Some("green") => 1
    case Some("yellow") => 2
    case Some("orange") => 3
    case Some("red") => 4
    case _ => 0
  }

  predicate MatchesNonMagnitude(s: Subscription, e: Event) {
    && (s.tsunamiOnly ==> e.tsunami == Some(true))
    && (s.allowedAlertLevels != {} ==> e.alertLevel.Some? && e.alertLevel.value in s.allowedAlertLevels)
    && (s.allowedEventTypes != {} ==> e.eventType.Some? && e.eventType.value in s.allowedEventTypes)
  }

  predicate Matches(s: Subscription, e: Event) {
    && (s.minimumMagnitude.Some? ==> e.magnitude.Some? && e.magnitude.value >= s.minimumMagnitude.value)
    && (s.maximumMagnitude.Some? ==> e.magnitude.Some? && e.magnitude.value <= s.maximumMagnitude.value)
    && MatchesNonMagnitude(s, e)
  }

  predicate AnnouncesNew(s: Subscription, a: Arrival) {
    && a.mode == "realtime" && a.baselineComplete && s.notifyOnNew
    && a.now - a.current.occurredAt <= s.maximumEventAge
  }

  function When(condition: bool, trigger: Trigger): seq<Trigger> {
    if condition then [trigger] else []
  }

  function Triggers(s: Subscription, a: Arrival): seq<Trigger> {
    if s.status != Active || !Matches(s, a.current) then
      []
    else
      match a.previous
      case None => When(AnnouncesNew(s, a), NewEvent)
      case Some(previous) =>
        When(s.notifyOnThresholdCrossing && s.minimumMagnitude.Some? && a.current.magnitude.Some?
             && (previous.magnitude.None? || previous.magnitude.value < s.minimumMagnitude.value)
             && a.current.magnitude.value >= s.minimumMagnitude.value, MagnitudeThresholdCrossed)
        + When(s.notifyOnTsunamiChange && a.current.tsunami == Some(true) && previous.tsunami != Some(true), TsunamiActivated)
        + When(s.notifyOnAlertIncrease && AlertSeverity(a.current.alertLevel) > AlertSeverity(previous.alertLevel),
               AlertLevelIncreased)
  }

  const CATEGORY_HALF_WIDTH := 0.5

  function IntensityDecisionBoundary(threshold: real): real {
    Max(1.0, threshold - CATEGORY_HALF_WIDTH)
  }

  function IntensityTriggers(s: Subscription, a: Arrival, previousUpper: Option<real>, currentUpper: real): seq<Trigger> {
    if s.status != Active || s.minimumIntensity.None?
       || currentUpper < IntensityDecisionBoundary(s.minimumIntensity.value) || !MatchesNonMagnitude(s, a.current) then
      []
    else if a.previous.None? then
      When(AnnouncesNew(s, a), NewEvent)
    else
      When(s.notifyOnThresholdCrossing
           && (previousUpper.None? || previousUpper.value < IntensityDecisionBoundary(s.minimumIntensity.value)),
           IntensityThresholdCrossed)
  }

  // ----- Matching -----

  /** What the database and the estimate measure with; ST_DWithin agrees with the distance that ST_Distance returns. */
  datatype Geodesy = Geodesy(e: Elementary, geography: Surface, surface: Surface)

  function DistanceKM(g: Geodesy, s: Subscription, e: Event): Option<real> {
    match s.center
    case None => None
    case Some(center) => Some(g.geography(center, e.place))
  }

  /** Users with an intensity threshold are matched by the estimate at their place. */
  predicate ByIntensity(s: Subscription) {
    s.kind == User && s.channel == Telegram && s.minimumIntensity.Some? && s.center.Some?
  }

  function PreviousUpper(g: Geodesy, s: Subscription, previous: Option<Event>): Option<real>
    requires s.center.Some?
  {
    match previous
    case None => None
    case Some(p) =>
      match EstimateAt(g.e, p.magnitude, p.depthKM, g.surface(s.center.value, p.place))
      case Failure(_) => None
      case Success(estimate) => Some(estimate.upper)
  }

  function CurrentEstimate(g: Geodesy, s: Subscription, e: Event): Result<Estimate, EstimateError>
    requires s.center.Some?
  {
    EstimateAt(g.e, e.magnitude, e.depthKM, g.geography(s.center.value, e.place))
  }

  /** What a subscription is sent, once it is selected. */
  function TriggersFor(g: Geodesy, s: Subscription, a: Arrival): seq<Trigger> {
    if ByIntensity(s) then
      match CurrentEstimate(g, s, a.current)
      case Failure(_) => []
      case Success(estimate) => IntensityTriggers(s, a, PreviousUpper(g, s, a.previous), estimate.upper)
    else
      Triggers(s, a)
  }

  /** The condition of the database query. */
  predicate Selected(g: Geodesy, s: Subscription, e: Event, radius: real) {
    && s.status == Active
    && match s.minimumIntensity
       case Some(_) => s.center.Some? && radius > 0.0 && DistanceKM(g, s, e).value <= radius
       case None => s.center.None? || (s.radiusKM.Some? && DistanceKM(g, s, e).value <= s.radiusKM.value)
  }

  function Notified(g: Geodesy, s: Subscription, a: Arrival, radius: real): seq<Trigger> {
    if Selected(g, s, a.current, radius) then TriggersFor(g, s, a) else []
  }

  const CANDIDATE_MMI: real := IntensityDecisionBoundary(MINIMUM_SUPPORTED_MMI)

  /** The table's constraint on intensity thresholds. */
  predicate SupportedIntensity(s: Subscription) {
    s.minimumIntensity.Some? ==> MINIMUM_SUPPORTED_MMI <= s.minimumIntensity.value <= 6.0
  }

  ghost predicate CandidateRadiusOf(g: Geodesy, e: Event, radius: real) {
    IsCandidateRadius(g.e, e.magnitude, e.depthKM, CANDIDATE_MMI, radius)
  }

  ghost predicate Sound(g: Geodesy) {
    g.e.Lawful() && g.e.Exponential() && NonNegative(g.geography)
  }

  /** The preselection drops nobody whom the estimate would notify, exactly up to the maximum search distance: a
      subscription that fires is selected if and only if it lies no farther than that. */
  lemma FiringIsSelectedWithinTheMaximum(g: Geodesy, s: Subscription, a: Arrival, radius: real)
    requires Sound(g) && SupportedIntensity(s) && CandidateRadiusOf(g, a.current, radius)
    requires ByIntensity(s) && TriggersFor(g, s, a) != []
    ensures Selected(g, s, a.current, radius) <==> DistanceKM(g, s, a.current).value <= 20000.0
  {
    var distance := DistanceKM(g, s, a.current).value;
    assert distance >= 0.0;
    var magnitude := a.current.magnitude.value;
    assert UpperAt(g.e, magnitude, a.current.depthKM, distance) >= CANDIDATE_MMI;
    if distance <= MAXIMUM_SEARCH_KM {
      RadiusSeparates(g.e, magnitude, a.current.depthKM, CANDIDATE_MMI, radius, distance);
    }
  }

  /** Matching without the candidate radius: intensity subscriptions of users are tested one by one. */
  function Deserved(g: Geodesy, s: Subscription, a: Arrival, radius: real): seq<Trigger> {
    if ByIntensity(s) then TriggersFor(g, s, a) else Notified(g, s, a, radius)
  }

  /** Preselected matching gives every subscription what exact matching gives it, if and only if the subscription does
      not fire beyond the maximum search distance. */
  lemma PreselectionRefinesExactMatching(g: Geodesy, s: Subscription, a: Arrival, radius: real)
    requires Sound(g) && SupportedIntensity(s) && CandidateRadiusOf(g, a.current, radius)
    ensures Notified(g, s, a, radius) == Deserved(g, s, a, radius) <==>
            !ByIntensity(s) || TriggersFor(g, s, a) == [] || DistanceKM(g, s, a.current).value <= 20000.0
  {
    if ByIntensity(s) && TriggersFor(g, s, a) != [] {
      FiringIsSelectedWithinTheMaximum(g, s, a, radius);
    }
  }

  // ----- A subscription that fires but is not selected -----

  /** What the example needs to know of the size of exponentials. */
  ghost predicate Bounded(e: Elementary) {
    && e.Exponential()
    && (forall x, y :: ExpAdds(e, x, y))
    && 0.0 < e.exp(1.0) <= 2.75
  }

  ghost predicate ExpAdds(e: Elementary, x: real, y: real) {
    e.exp(x + y) == e.exp(x) * e.exp(y)
  }

  lemma LogIsAtMostTwice(e: Elementary, x: real, root: real)
    requires e.Lawful() && 0.0 < x <= root * root && 0.0 < root
    ensures e.ln(x) <= 2.0 * e.ln(root)
  {
    assert e.LogAdds(root, root) && e.LogIsMonotone(x, root * root);
  }

  lemma LogOf20002(e: Elementary)
    requires e.Lawful() && Bounded(e)
    ensures e.ln(20002.0) <= 10.304
  {
    LogIsAtMostTwice(e, 20002.0, 141.51);
    LogIsAtMostTwice(e, 141.51, 11.896);
    LogIsAtMostTwice(e, 11.896, 3.4491);
    LogIsAtMostTwice(e, 3.4491, 1.8572);
    LogIsAtMostTwice(e, 1.8572, 1.3628);
    LogIsAtMostTwice(e, 1.3628, 1.1674);
    LogIsAtMostTwice(e, 1.1674, 1.0805);
    assert e.LogIsBelow(1.0805);
  }

  lemma LogOf400(e: Elementary)
    requires e.Lawful() && Bounded(e)
    ensures e.ln(20001.0 / 50.0) >= 3.1
  {
    var inverse := 50.0 / 20001.0;
    LogIsAtMostTwice(e, inverse, 0.05);
    LogIsAtMostTwice(e, 0.05, 0.2237);
    assert e.LogIsBelow(0.2237);
    assert e.LogAdds(inverse, 20001.0 / 50.0);
    LogOfOne(e);
    assert inverse * (20001.0 / 50.0) == 1.0;
  }

  lemma SaturationOfNine(e: Elementary)
    requires e.Lawful() && Bounded(e)
    ensures Physical(e, 9.0) && Square(Saturation(e, 9.0)) <= 14000.0
  {
    var one, two := e.exp(1.0), e.exp(2.0);
    assert ExpAdds(e, 1.0, 1.0) && ExpAdds(e, 2.0, 2.0);
    SquareIsMonotone(one, 2.75);
    assert two == Square(one);
    SquareIsMonotone(two, 7.5625);
    assert e.exp(4.0) == Square(two) <= 57.2;
    var saturation := Saturation(e, 9.0);
    SquareIsMonotone(if saturation < 0.0 then -saturation else saturation, 117.0);
  }

  /** A magnitude 9 earthquake reaches the candidate intensity 20001 km away. */
  lemma NineReachesBeyondTheMaximum(e: Elementary)
    requires e.Lawful() && Bounded(e)
    ensures UpperAt(e, 9.0, Some(0.0), 20001.0) >= 1.5
  {
    SaturationOfNine(e);
    LogOf20002(e);
    LogOf400(e);
    var distance := Hypot(e, 20001.0, 0.0);
    assert distance == 20001.0 by {
      assert e.IsRoot(Square(20001.0));
      if distance < 20001.0 {
        SquareIsMonotone(distance, 20001.0);
      } else if 20001.0 < distance {
        SquareIsMonotone(20001.0, distance);
      }
    }
    var squared := Square(20001.0) + Square(Saturation(e, 9.0));
    assert squared <= Square(20002.0);
    assert e.IsRoot(squared);
    assert e.sqrt(squared) <= 20002.0 by {
      if 20002.0 < e.sqrt(squared) {
        SquareIsMonotone(20002.0, e.sqrt(squared));
      }
    }
    LogOfRoot(e, squared);
    assert e.LogIsMonotone(e.sqrt(squared), 20002.0);
    assert Sigma(distance) >= 0.82;
  }

  /** The radius stops at 20000 km, short of half the Earth's circumference: for every two places 20001 km
      apart there is a subscription at the one that a magnitude 9 earthquake at the other fires and nobody selects. */
  lemma MaximumDropsASubscription(g: Geodesy, center: Place, epicenter: Place, radius: real) returns (s: Subscription, a: Arrival)
    requires g.e.Lawful() && Bounded(g.e) && NonNegative(g.geography) && g.geography(center, epicenter) == 20001.0
    requires IsCandidateRadius(g.e, Some(9.0), Some(0.0), CANDIDATE_MMI, radius)
    ensures Sound(g) && SupportedIntensity(s) && CandidateRadiusOf(g, a.current, radius)
    ensures s.center == Some(center) && a.current.place == epicenter && a.current.magnitude == Some(9.0)
    ensures Deserved(g, s, a, radius) == [NewEvent] && Notified(g, s, a, radius) == []
  {
    s := Subscription(Active, Telegram, User, Some(1), None, None, Some(2.0), Some(center), None, false, {}, {},
                      true, true, true, true, 0);
    a := Arrival(None, Event(0, epicenter, Some(9.0), Some(0.0), None, None, None), "realtime", true, 0);
    SaturationOfNine(g.e);
    NineReachesBeyondTheMaximum(g.e);
    FiringIsSelectedWithinTheMaximum(g, s, a, radius);
  }
}
