/** What the score of a candidate says: how it answers to each of the four gaps between two quakes, and when there is none
    (internal/domain/earthquake/correlation.go, score). */
module CorrelationScores {
  import opened Wrappers
  import opened Correlation

  // ----- The gaps between two quakes -----

  function TimeGap(a: Quake, b: Quake): (gap: int)
    ensures gap >= 0 && (gap == a.occurredAt - b.occurredAt || gap == b.occurredAt - a.occurredAt)
  {
    if a.occurredAt < b.occurredAt then b.occurredAt - a.occurredAt else a.occurredAt - b.occurredAt
  }

  predicate BothKnown(a: Option<real>, b: Option<real>) {
    a.Some? && b.Some?
  }

  /** Nothing, unless both values are known. */
  function Gap(a: Option<real>, b: Option<real>): (gap: real)
    ensures BothKnown(a, b) ==> gap >= 0.0 && (gap == a.value - b.value || gap == b.value - a.value)
    ensures !BothKnown(a, b) ==> gap == 0.0
  {
    if !BothKnown(a, b) then 0.0 else if a.value < b.value then b.value - a.value else a.value - b.value
  }

  /** The weights of the dimensions known of both quakes. */
  function KnownWeights(p: Policy, a: Quake, b: Quake): real {
    p.timeWeight + p.distanceWeight
    + (if BothKnown(a.magnitude, b.magnitude) then p.magnitudeWeight else 0.0)
    + (if BothKnown(a.depthKM, b.depthKM) then p.depthWeight else 0.0)
  }

  /** No gap exceeds its maximum. */
  predicate PassesGates(p: Policy, surface: Surface, a: Quake, b: Quake) {
    && TimeGap(a, b) <= p.maximumTimeDelta && surface(a.place, b.place) <= p.maximumDistanceKM
    && Gap(a.magnitude, b.magnitude) <= p.maximumMagnitudeDiff && Gap(a.depthKM, b.depthKM) <= p.maximumDepthDiffKM
  }

  /** A candidate is rejected if and only if a gap exceeds its maximum, or no dimension known of both has a weight. */
  lemma RejectedExactlyWhen(p: Policy, surface: Surface, a: Quake, b: Quake)
    requires p.Valid()
    ensures p.Score(surface, a, b).None? <==> !PassesGates(p, surface, a, b) || KnownWeights(p, a, b) == 0.0
  {
  }

  /** The part of the known weights that the gaps take away. */
  function Loss(p: Policy, surface: Surface, a: Quake, b: Quake): real
    requires p.Valid()
  {
    Share(p.timeWeight, TimeGap(a, b) as real, p.maximumTimeDelta as real)
    + Share(p.distanceWeight, surface(a.place, b.place), p.maximumDistanceKM)
    + (if BothKnown(a.magnitude, b.magnitude) then Share(p.magnitudeWeight, Gap(a.magnitude, b.magnitude), p.maximumMagnitudeDiff)
       else 0.0)
    + (if BothKnown(a.depthKM, b.depthKM) then Share(p.depthWeight, Gap(a.depthKM, b.depthKM), p.maximumDepthDiffKM) else 0.0)
  }

  function Share(weight: real, gap: real, maximum: real): real
    requires maximum > 0.0
  {
    weight * (gap / maximum)
  }

  lemma ClosenessAndShare(weight: real, gap: real, maximum: real)
    requires maximum > 0.0
    ensures Closeness(weight, gap, maximum) == weight - Share(weight, gap, maximum)
  {
    var part := gap / maximum;
    assert weight * (1.0 - part) == weight - weight * part;
  }

  lemma QuotientTimes(x: real, y: real)
    requires y != 0.0
    ensures x / y * y == x
  {
  }

  /** The score is the part of the weights that the loss leaves. */
  predicate IsRemainder(score: real, weights: real, loss: real) {
    weights > 0.0 && score * weights == weights - loss
  }

  predicate Remains(p: Policy, surface: Surface, a: Quake, b: Quake, score: real)
    requires p.Valid()
  {
    IsRemainder(score, KnownWeights(p, a, b), Loss(p, surface, a, b))
  }

  /** A score is what the gaps leave of the known weights. */
  lemma ScoreIsWhatRemains(p: Policy, surface: Surface, a: Quake, b: Quake)
    requires p.Valid() && p.Score(surface, a, b).Some?
    ensures Remains(p, surface, a, b, p.Score(surface, a, b).value)
  {
    ClosenessAndShare(p.timeWeight, TimeGap(a, b) as real, p.maximumTimeDelta as real);
    ClosenessAndShare(p.distanceWeight, surface(a.place, b.place), p.maximumDistanceKM);
    ClosenessAndShare(p.magnitudeWeight, Gap(a.magnitude, b.magnitude), p.maximumMagnitudeDiff);
    ClosenessAndShare(p.depthWeight, Gap(a.depthKM, b.depthKM), p.maximumDepthDiffKM);
    var (weighted, weights) := p.Weigh(TimeGap(a, b), surface(a.place, b.place), Difference(a.magnitude, b.magnitude),
                                       Difference(a.depthKM, b.depthKM));
    assert weights == KnownWeights(p, a, b) && weighted == weights - Loss(p, surface, a, b);
    QuotientTimes(weighted, weights);
  }

  // ----- One dimension at a time -----

  function Drop(weight: real, gap: real, otherGap: real, maximum: real): real
    requires maximum > 0.0
  {
    Share(weight, otherGap, maximum) - Share(weight, gap, maximum)
  }

  /** What the smaller of two gaps is worth: the weight as a part of all weights, times the difference of the gaps as a part of
      the maximum. */
  function Advantage(weight: real, weights: real, gap: real, otherGap: real, maximum: real): real
    requires weights > 0.0 && maximum > 0.0
  {
    weight / weights * ((otherGap - gap) / maximum)
  }

  lemma DifferenceOfShares(score: real, other: real, weights: real, lost: real, weight: real,
                           gap: real, otherGap: real, maximum: real)
    requires weights > 0.0 && maximum > 0.0 && (score - other) * weights == lost
    requires lost == Drop(weight, gap, otherGap, maximum)
    ensures score - other == Advantage(weight, weights, gap, otherGap, maximum)
  {
    var x, y := gap / maximum, otherGap / maximum;
    assert (otherGap - gap) / maximum == y - x;
    assert (score - other) * weights == weight * (y - x);
    var q := weight / weights;
    QuotientTimes(weight, weights);
    assert (q * (y - x)) * weights == weight * (y - x);
    Cancel(score - other, q * (y - x), weights);
  }

  lemma Cancel(x: real, y: real, factor: real)
    requires factor > 0.0 && x * factor == y * factor
    ensures x == y
  {
    assert (x - y) * factor == 0.0;
  }

  predicate SameTime(a: Quake, b: Quake, c: Quake) {
    TimeGap(a, b) == TimeGap(a, c)
  }

  predicate SameDistance(surface: Surface, a: Quake, b: Quake, c: Quake) {
    surface(a.place, b.place) == surface(a.place, c.place)
  }

  predicate SameMagnitude(a: Quake, b: Quake, c: Quake) {
    Gap(a.magnitude, b.magnitude) == Gap(a.magnitude, c.magnitude)
  }

  predicate SameDepth(a: Quake, b: Quake, c: Quake) {
    Gap(a.depthKM, b.depthKM) == Gap(a.depthKM, c.depthKM)
  }

  /** The same dimensions are known of both candidates. */
  predicate SameKnown(b: Quake, c: Quake) {
    (b.magnitude.Some? <==> c.magnitude.Some?) && (b.depthKM.Some? <==> c.depthKM.Some?)
  }

  lemma RemaindersDiffer(x: real, y: real, weights: real, lossX: real, lossY: real, weight: real, gap: real, otherGap: real,
                         maximum: real)
    requires maximum > 0.0 && IsRemainder(x, weights, lossX) && IsRemainder(y, weights, lossY)
    requires lossY - lossX == Drop(weight, gap, otherGap, maximum)
    ensures weights > 0.0 && x - y == Advantage(weight, weights, gap, otherGap, maximum)
  {
    assert (x - y) * weights == x * weights - y * weights;
    DifferenceOfShares(x, y, weights, lossY - lossX, weight, gap, otherGap, maximum);
  }

  lemma SameWeights(p: Policy, a: Quake, b: Quake, c: Quake)
    requires SameKnown(b, c)
    ensures KnownWeights(p, a, b) == KnownWeights(p, a, c)
  {
  }

  lemma RemaindersAnswer(p: Policy, surface: Surface, a: Quake, b: Quake, c: Quake, x: real, y: real, weight: real, gap: real,
                         otherGap: real, maximum: real)
    requires p.Valid() && Remains(p, surface, a, b, x) && Remains(p, surface, a, c, y) && SameKnown(b, c) && maximum > 0.0
    requires Loss(p, surface, a, c) - Loss(p, surface, a, b) == Drop(weight, gap, otherGap, maximum)
    ensures KnownWeights(p, a, b) > 0.0 && x - y == Advantage(weight, KnownWeights(p, a, b), gap, otherGap, maximum)
  {
    SameWeights(p, a, b, c);
    RemaindersDiffer(x, y, KnownWeights(p, a, b), Loss(p, surface, a, b), Loss(p, surface, a, c), weight, gap, otherGap, maximum);
  }

  lemma LossAnswersToTime(p: Policy, surface: Surface, a: Quake, b: Quake, c: Quake)
    requires p.Valid() && SameKnown(b, c)
    requires SameDistance(surface, a, b, c) && SameMagnitude(a, b, c) && SameDepth(a, b, c)
    ensures Loss(p, surface, a, c) - Loss(p, surface, a, b)
            == Drop(p.timeWeight, TimeGap(a, b) as real, TimeGap(a, c) as real, p.maximumTimeDelta as real)
  {
  }

  lemma LossAnswersToDistance(p: Policy, surface: Surface, a: Quake, b: Quake, c: Quake)
    requires p.Valid() && SameKnown(b, c)
    requires SameTime(a, b, c) && SameMagnitude(a, b, c) && SameDepth(a, b, c)
    ensures Loss(p, surface, a, c) - Loss(p, surface, a, b)
            == Drop(p.distanceWeight, surface(a.place, b.place), surface(a.place, c.place), p.maximumDistanceKM)
  {
  }

  lemma LossAnswersToMagnitude(p: Policy, surface: Surface, a: Quake, b: Quake, c: Quake)
    requires p.Valid() && SameKnown(b, c)
    requires BothKnown(a.magnitude, b.magnitude)
    requires SameTime(a, b, c) && SameDistance(surface, a, b, c) && SameDepth(a, b, c)
    ensures Loss(p, surface, a, c) - Loss(p, surface, a, b)
            == Drop(p.magnitudeWeight, Gap(a.magnitude, b.magnitude), Gap(a.magnitude, c.magnitude), p.maximumMagnitudeDiff)
  {
  }

  lemma LossAnswersToDepth(p: Policy, surface: Surface, a: Quake, b: Quake, c: Quake)
    requires p.Valid() && SameKnown(b, c)
    requires BothKnown(a.depthKM, b.depthKM)
    requires SameTime(a, b, c) && SameDistance(surface, a, b, c) && SameMagnitude(a, b, c)
    ensures Loss(p, surface, a, c) - Loss(p, surface, a, b)
            == Drop(p.depthWeight, Gap(a.depthKM, b.depthKM), Gap(a.depthKM, c.depthKM), p.maximumDepthDiffKM)
  {
  }

  /** Candidates that differ from the newcomer alike but in time differ in score by the weight of time, as a part of the known
      weights, times the difference of their gaps, as a part of the maximum. So it is for the other dimensions. */
  lemma ScoreAnswersToTime(p: Policy, surface: Surface, a: Quake, b: Quake, c: Quake)
    requires p.Valid() && p.Score(surface, a, b).Some? && p.Score(surface, a, c).Some? && SameKnown(b, c)
    requires SameDistance(surface, a, b, c) && SameMagnitude(a, b, c) && SameDepth(a, b, c)
    ensures KnownWeights(p, a, b) > 0.0
    ensures p.Score(surface, a, b).value - p.Score(surface, a, c).value
            == Advantage(p.timeWeight, KnownWeights(p, a, b),
                         TimeGap(a, b) as real, TimeGap(a, c) as real, p.maximumTimeDelta as real)
  {
    ScoreIsWhatRemains(p, surface, a, b);
    ScoreIsWhatRemains(p, surface, a, c);
    LossAnswersToTime(p, surface, a, b, c);
    RemaindersAnswer(p, surface, a, b, c, p.Score(surface, a, b).value, p.Score(surface, a, c).value, p.timeWeight,
                     TimeGap(a, b) as real, TimeGap(a, c) as real, p.maximumTimeDelta as real);
  }

  lemma ScoreAnswersToDistance(p: Policy, surface: Surface, a: Quake, b: Quake, c: Quake)
    requires p.Valid() && p.Score(surface, a, b).Some? && p.Score(surface, a, c).Some? && SameKnown(b, c)
    requires SameTime(a, b, c) && SameMagnitude(a, b, c) && SameDepth(a, b, c)
    ensures KnownWeights(p, a, b) > 0.0
    ensures p.Score(surface, a, b).value - p.Score(surface, a, c).value
            == Advantage(p.distanceWeight, KnownWeights(p, a, b),
                         surface(a.place, b.place), surface(a.place, c.place), p.maximumDistanceKM)
  {
    ScoreIsWhatRemains(p, surface, a, b);
    ScoreIsWhatRemains(p, surface, a, c);
    LossAnswersToDistance(p, surface, a, b, c);
    RemaindersAnswer(p, surface, a, b, c, p.Score(surface, a, b).value, p.Score(surface, a, c).value, p.distanceWeight,
                     surface(a.place, b.place), surface(a.place, c.place), p.maximumDistanceKM);
  }

  lemma ScoreAnswersToMagnitude(p: Policy, surface: Surface, a: Quake, b: Quake, c: Quake)
    requires p.Valid() && p.Score(surface, a, b).Some? && p.Score(surface, a, c).Some? && SameKnown(b, c)
    requires BothKnown(a.magnitude, b.magnitude)
    requires SameTime(a, b, c) && SameDistance(surface, a, b, c) && SameDepth(a, b, c)
    ensures KnownWeights(p, a, b) > 0.0
    ensures p.Score(surface, a, b).value - p.Score(surface, a, c).value
            == Advantage(p.magnitudeWeight, KnownWeights(p, a, b),
                         Gap(a.magnitude, b.magnitude), Gap(a.magnitude, c.magnitude), p.maximumMagnitudeDiff)
  {
    ScoreIsWhatRemains(p, surface, a, b);
    ScoreIsWhatRemains(p, surface, a, c);
    LossAnswersToMagnitude(p, surface, a, b, c);
    RemaindersAnswer(p, surface, a, b, c, p.Score(surface, a, b).value, p.Score(surface, a, c).value, p.magnitudeWeight,
                     Gap(a.magnitude, b.magnitude), Gap(a.magnitude, c.magnitude), p.maximumMagnitudeDiff);
  }

  lemma ScoreAnswersToDepth(p: Policy, surface: Surface, a: Quake, b: Quake, c: Quake)
    requires p.Valid() && p.Score(surface, a, b).Some? && p.Score(surface, a, c).Some? && SameKnown(b, c)
    requires BothKnown(a.depthKM, b.depthKM)
    requires SameTime(a, b, c) && SameDistance(surface, a, b, c) && SameMagnitude(a, b, c)
    ensures KnownWeights(p, a, b) > 0.0
    ensures p.Score(surface, a, b).value - p.Score(surface, a, c).value
            == Advantage(p.depthWeight, KnownWeights(p, a, b),
                         Gap(a.depthKM, b.depthKM), Gap(a.depthKM, c.depthKM), p.maximumDepthDiffKM)
  {
    ScoreIsWhatRemains(p, surface, a, b);
    ScoreIsWhatRemains(p, surface, a, c);
    LossAnswersToDepth(p, surface, a, b, c);
    RemaindersAnswer(p, surface, a, b, c, p.Score(surface, a, b).value, p.Score(surface, a, c).value, p.depthWeight,
                     Gap(a.depthKM, b.depthKM), Gap(a.depthKM, c.depthKM), p.maximumDepthDiffKM);
  }

  // ----- The full score -----

  lemma ShareVanishesExactlyWhen(weight: real, gap: real, maximum: real)
    requires maximum > 0.0 && weight >= 0.0 && gap >= 0.0
    ensures Share(weight, gap, maximum) >= 0.0
    ensures Share(weight, gap, maximum) == 0.0 <==> weight == 0.0 || gap == 0.0
  {
    var part := gap / maximum;
    assert part * maximum == gap;
    if weight > 0.0 && gap > 0.0 {
      assert part > 0.0;
      assert weight * part > 0.0;
    }
  }

  lemma LossVanishesExactlyWhen(p: Policy, surface: Surface, a: Quake, b: Quake)
    requires p.Valid() && surface(a.place, b.place) >= 0.0
    ensures Loss(p, surface, a, b) == 0.0 <==> IsClosed(p, surface, a, b)
  {
    ShareVanishesExactlyWhen(p.timeWeight, TimeGap(a, b) as real, p.maximumTimeDelta as real);
    ShareVanishesExactlyWhen(p.distanceWeight, surface(a.place, b.place), p.maximumDistanceKM);
    ShareVanishesExactlyWhen(p.magnitudeWeight, Gap(a.magnitude, b.magnitude), p.maximumMagnitudeDiff);
    ShareVanishesExactlyWhen(p.depthWeight, Gap(a.depthKM, b.depthKM), p.maximumDepthDiffKM);
  }

  /** Every gap in a dimension with a weight is nothing. */
  predicate IsClosed(p: Policy, surface: Surface, a: Quake, b: Quake) {
    && (p.timeWeight == 0.0 || TimeGap(a, b) == 0)
    && (p.distanceWeight == 0.0 || surface(a.place, b.place) == 0.0)
    && (p.magnitudeWeight == 0.0 || Gap(a.magnitude, b.magnitude) == 0.0)
    && (p.depthWeight == 0.0 || Gap(a.depthKM, b.depthKM) == 0.0)
  }

  lemma RemainderIsWholeExactlyWhen(score: real, weights: real, loss: real)
    requires IsRemainder(score, weights, loss)
    ensures score == 1.0 <==> loss == 0.0
  {
    if loss == 0.0 {
      Cancel(score, 1.0, weights);
    }
  }

  /** A score is full if and only if every gap in a dimension with a weight is closed. */
  lemma ScoreIsFullExactlyWhen(p: Policy, surface: Surface, a: Quake, b: Quake)
    requires p.Valid() && NonNegative(surface) && p.Score(surface, a, b).Some?
    ensures p.Score(surface, a, b).value == 1.0 <==> IsClosed(p, surface, a, b)
  {
    ScoreIsWhatRemains(p, surface, a, b);
    LossVanishesExactlyWhen(p, surface, a, b);
    RemainderIsWholeExactlyWhen(p.Score(surface, a, b).value, KnownWeights(p, a, b), Loss(p, surface, a, b));
  }
}
