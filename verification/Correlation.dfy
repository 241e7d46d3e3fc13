/** Scoring and ranking of candidate incidents for a first sighting
    (internal/domain/earthquake/correlation.go). */
module Correlation {
  import opened Wrappers

  /** Identities of rows; the textual order that breaks ties is the order of the numbers. */
  type Uuid = nat

  datatype Place = Place(latitude: real, longitude: real)

  /** Great-circle distance in kilometres between two places. */
  type Surface = (Place, Place) -> real

  ghost predicate NonNegative(surface: Surface) {
    forall a, b :: surface(a, b) >= 0.0
  }

  /** What correlation reads of an event: times in nanoseconds, depth in kilometres. */
  datatype Quake = Quake(provider: string, occurredAt: int, place: Place, magnitude: Option<real>, depthKM: Option<real>)

  datatype Candidate = Candidate(incident: Uuid, quake: Quake)

  datatype Match = Match(incident: Uuid, score: real)

  datatype Decision = Decision(match_: Option<Match>, ambiguous: bool, ranked: seq<Match>)

  /** The size of the difference of two values, when both are known. */
  function Difference(a: Option<real>, b: Option<real>): Option<real> {
    if a.Some? && b.Some? then
      Some(if a.value < b.value then b.value - a.value else a.value - b.value)
    else
      None
  }

  lemma QuotientIsAProportion(part: real, whole: real)
    requires 0.0 <= part <= whole && whole > 0.0
    ensures 0.0 <= part / whole <= 1.0
  {
    var share := part / whole;
    assert share * whole == part;
  }

  /** The part of a weight that a difference leaves: all of it at zero, none at the maximum. */
  function Closeness(weight: real, difference: real, maximum: real): real
    requires maximum > 0.0
  {
    weight * (1.0 - difference / maximum)
  }

  lemma ClosenessIsBounded(weight: real, difference: real, maximum: real)
    requires weight >= 0.0 && 0.0 <= difference <= maximum && maximum > 0.0
    ensures 0.0 <= Closeness(weight, difference, maximum) <= weight
  {
    var share := difference / maximum;
    QuotientIsAProportion(difference, maximum);
    assert weight * (1.0 - share) + weight * share == weight;
    assert weight * share >= 0.0 && weight * (1.0 - share) >= 0.0;
  }

  datatype Policy = Policy(
    version: string,
    maximumTimeDelta: int,
    maximumDistanceKM: real,
    maximumMagnitudeDiff: real,
    maximumDepthDiffKM: real,
    timeWeight: real,
    distanceWeight: real,
    magnitudeWeight: real,
    depthWeight: real,
    acceptanceThreshold: real,
    ambiguityMargin: real)
  {
    predicate Valid() {
      && version != "" && maximumTimeDelta > 0 && maximumDistanceKM > 0.0
      && maximumMagnitudeDiff > 0.0 && maximumDepthDiffKM > 0.0
      && timeWeight >= 0.0 && distanceWeight >= 0.0 && magnitudeWeight >= 0.0 && depthWeight >= 0.0
      && timeWeight + distanceWeight + magnitudeWeight + depthWeight > 0.0
      && 0.0 <= acceptanceThreshold <= 1.0
      && 0.0 <= ambiguityMargin <= 1.0
    }

    /** A policy is invalid if and only if it has no name, a maximum that is not positive, a negative weight, no weight at all,
        or a threshold or margin that is no proportion. */
    lemma InvalidExactlyWhen()
      ensures !Valid() <==>
              || version == ""
              || maximumTimeDelta <= 0 || maximumDistanceKM <= 0.0 || maximumMagnitudeDiff <= 0.0 || maximumDepthDiffKM <= 0.0
              || timeWeight < 0.0 || distanceWeight < 0.0 || magnitudeWeight < 0.0 || depthWeight < 0.0
              || (timeWeight == 0.0 && distanceWeight == 0.0 && magnitudeWeight == 0.0 && depthWeight == 0.0)
              || acceptanceThreshold < 0.0 || acceptanceThreshold > 1.0 || ambiguityMargin < 0.0 || ambiguityMargin > 1.0
    {
    }

    /** How close two quakes are in each dimension known of both, weighed, and the sum of those weights. */
    function Weigh(timeDelta: int, distance: real, magnitudeDiff: Option<real>, depthDiff: Option<real>): (real, real)
      requires Valid()
    {
      var weighted := Closeness(timeWeight, timeDelta as real, maximumTimeDelta as real)
                      + Closeness(distanceWeight, distance, maximumDistanceKM);
      var weights := timeWeight + distanceWeight;
      var (weighted, weights) :=
        if magnitudeDiff.Some? then
          (weighted + Closeness(magnitudeWeight, magnitudeDiff.value, maximumMagnitudeDiff), weights + magnitudeWeight)
        else
          (weighted, weights);
      if depthDiff.Some? then
        (weighted + Closeness(depthWeight, depthDiff.value, maximumDepthDiffKM), weights + depthWeight)
      else
        (weighted, weights)
    }

    /** The score of one candidate, or none when a gate rejects it. */
    function Score(surface: Surface, a: Quake, b: Quake): Option<real>
      requires Valid()
    {
      var delta := a.occurredAt - b.occurredAt;
      var timeDelta := if delta < 0 then -delta else delta;
      var distance := surface(a.place, b.place);
      var magnitudeDiff := Difference(a.magnitude, b.magnitude);
      var depthDiff := Difference(a.depthKM, b.depthKM);
      if timeDelta > maximumTimeDelta || distance > maximumDistanceKM
         || magnitudeDiff.GetOr(0.0) > maximumMagnitudeDiff || depthDiff.GetOr(0.0) > maximumDepthDiffKM then
        None
      else
        var (weighted, weights) := Weigh(timeDelta, distance, magnitudeDiff, depthDiff);
        if weights == 0.0 then None else Some(weighted / weights)
    }

    lemma WeighIsBounded(timeDelta: int, distance: real, magnitudeDiff: Option<real>, depthDiff: Option<real>)
      requires Valid()
      requires 0 <= timeDelta <= maximumTimeDelta && 0.0 <= distance <= maximumDistanceKM
      requires 0.0 <= magnitudeDiff.GetOr(0.0) <= maximumMagnitudeDiff
      requires 0.0 <= depthDiff.GetOr(0.0) <= maximumDepthDiffKM
      ensures var (weighted, weights) := Weigh(timeDelta, distance, magnitudeDiff, depthDiff);
              0.0 <= weighted <= weights
    {
      ClosenessIsBounded(timeWeight, timeDelta as real, maximumTimeDelta as real);
      ClosenessIsBounded(distanceWeight, distance, maximumDistanceKM);
      ClosenessIsBounded(magnitudeWeight, magnitudeDiff.GetOr(0.0), maximumMagnitudeDiff);
      ClosenessIsBounded(depthWeight, depthDiff.GetOr(0.0), maximumDepthDiffKM);
    }

    /** Whatever a gate lets through scores between nothing and everything. */
    lemma ScoreIsAProportion(surface: Surface, a: Quake, b: Quake)
      requires Valid() && NonNegative(surface)
      ensures Score(surface, a, b).Some? ==> 0.0 <= Score(surface, a, b).value <= 1.0
    {
      if Score(surface, a, b).Some? {
        var delta := a.occurredAt - b.occurredAt;
        var timeDelta := if delta < 0 then -delta else delta;
        var distance := surface(a.place, b.place);
        var magnitudeDiff, depthDiff := Difference(a.magnitude, b.magnitude), Difference(a.depthKM, b.depthKM);
        WeighIsBounded(timeDelta, distance, magnitudeDiff, depthDiff);
        var (weighted, weights) := Weigh(timeDelta, distance, magnitudeDiff, depthDiff);
        QuotientIsAProportion(weighted, weights);
      }
    }

    /** The match that a candidate gives: sources of the incoming provider never correlate with it. */
    function Judge(surface: Surface, incoming: Quake, candidate: Candidate): Option<Match>
      requires Valid()
    {
      if candidate.quake.provider == incoming.provider then
        None
      else
        match Score(surface, incoming, candidate.quake)
        case Some(score) => Some(Match(candidate.incident, score))
        case None => None
    }

    /** All the matches that a set of candidates gives. */
    ghost function Matches(surface: Surface, incoming: Quake, candidates: set<Candidate>): set<Match>
      requires Valid()
    {
      set c | c in candidates && Judge(surface, incoming, c).Some? :: Judge(surface, incoming, c).value
    }

    /** `best` is acceptable, ranks before every other match and is clear of each by the ambiguity margin. */
    ghost predicate Wins(matches: set<Match>, best: Match) {
      && best in matches
      && best.score >= acceptanceThreshold
      && forall other <- matches :: other == best || (RanksBefore(best, other) && best.score - other.score >= ambiguityMargin)
    }

    /** The match that the policy accepts among `matches`, if there is one. */
    ghost function Winner(matches: set<Match>): (winner: Option<Match>)
      ensures winner.Some? ==> Wins(matches, winner.value)
      ensures winner.None? ==> forall m <- matches :: !Wins(matches, m)
    {
      if exists m <- matches :: Wins(matches, m) then
        var best :| best in matches && Wins(matches, best);
        Some(best)
      else
        None
    }

    lemma WinnerIsUnique(matches: set<Match>, a: Match, b: Match)
      requires Wins(matches, a) && Wins(matches, b)
      ensures a == b
    {
    }

    /** One more candidate may win or cause ambiguity, but never hands the win to a worse match. */
    lemma MoreCandidatesNeverWorsenTheWinner(matches: set<Match>, extra: Match)
      requires Winner(matches).Some? && Winner(matches + {extra}).Some?
      ensures Winner(matches + {extra}).value.score >= Winner(matches).value.score
      ensures Winner(matches + {extra}).value in {extra, Winner(matches).value}
    {
      var before, after := Winner(matches).value, Winner(matches + {extra}).value;
      assert before in matches + {extra} && after in matches + {extra};
    }

    method Correlate(surface: Surface, incoming: Quake, candidates: seq<Candidate>) returns (decision: Decision)
      ensures !Valid() ==> decision == Decision(None, false, [])
      ensures Valid() && DistinctIncidents(candidates) ==>
                var matches := Matches(surface, incoming, CandidateSet(candidates));
                && decision.match_ == Winner(matches)
                && (decision.ambiguous <==> decision.match_.None? && exists m <- matches :: m.score >= acceptanceThreshold)
                && Ranked(decision.ranked) && MatchSet(decision.ranked) == matches
    {
      if !Valid() {
        return Decision(None, false, []);
      }
      var ranked: seq<Match> := [];
      for i := 0 to |candidates|
        invariant MatchSet(ranked) == Matches(surface, incoming, CandidateSet(candidates[..i]))
        invariant DistinctIncidents(candidates) ==> DistinctMatches(ranked)
      {
        var candidate := candidates[i];
        var judged := Judge(surface, incoming, candidate);
        ExtendMatches(surface, incoming, candidates, i);
        if judged.Some? {
          if DistinctIncidents(candidates) {
            forall m | m in ranked ensures m.incident != candidate.incident {
              assert m in Matches(surface, incoming, CandidateSet(candidates[..i]));
            }
          }
          ranked := ranked + [judged.value];
        }
      }
      assert candidates[..|candidates|] == candidates;
      ranked := SortByRank(ranked);
      ghost var matches := MatchSet(ranked);
      if DistinctIncidents(candidates) {
        TopDecides(ranked);
      }
      if |ranked| == 0 || ranked[0].score < acceptanceThreshold {
        return Decision(None, false, ranked);
      }
      if |ranked| > 1 && ranked[0].score - ranked[1].score < ambiguityMargin {
        return Decision(None, true, ranked);
      }
      return Decision(Some(ranked[0]), false, ranked);
    }

    lemma ExtendMatches(surface: Surface, incoming: Quake, candidates: seq<Candidate>, i: nat)
      requires Valid() && i < |candidates|
      ensures var judged := Judge(surface, incoming, candidates[i]);
              Matches(surface, incoming, CandidateSet(candidates[..i + 1]))
              == Matches(surface, incoming, CandidateSet(candidates[..i])) + (if judged.Some? then {judged.value} else {})
    {
      assert CandidateSet(candidates[..i + 1]) == CandidateSet(candidates[..i]) + {candidates[i]};
    }

    /** In a ranked sequence of different incidents, the first two entries settle the whole decision. */
    lemma TopDecides(ranked: seq<Match>)
      requires Ranked(ranked) && DistinctMatches(ranked)
      ensures var matches := MatchSet(ranked);
              && (Winner(matches).Some? <==>
                  && |ranked| > 0 && ranked[0].score >= acceptanceThreshold
                  && (|ranked| > 1 ==> ranked[0].score - ranked[1].score >= ambiguityMargin))
              && (Winner(matches).Some? ==> Winner(matches).value == ranked[0])
              && ((exists m <- matches :: m.score >= acceptanceThreshold) <==>
                  |ranked| > 0 && ranked[0].score >= acceptanceThreshold)
    {
      var matches := MatchSet(ranked);
      forall m | m in matches ensures |ranked| > 0 && m.score <= ranked[0].score {
        var k :| 0 <= k < |ranked| && ranked[k] == m;
      }
      if |ranked| > 0 {
        assert ranked[0] in matches;
        if |ranked| > 1 {
          assert ranked[1] in matches;
        }
        if Winner(matches).Some? {
          var best := Winner(matches).value;
          var k :| 0 <= k < |ranked| && ranked[k] == best;
          assert k == 0;
        }
        if ranked[0].score >= acceptanceThreshold && (|ranked| > 1 ==> ranked[0].score - ranked[1].score >= ambiguityMargin) {
          forall other | other in matches
            ensures other == ranked[0] || (RanksBefore(ranked[0], other) && ranked[0].score - other.score >= ambiguityMargin)
          {
            var k :| 0 <= k < |ranked| && ranked[k] == other;
          }
          assert Wins(matches, ranked[0]);
        }
      }
    }
  }

  predicate RanksBefore(a: Match, b: Match) {
    if a.score == b.score then a.incident < b.incident else a.score > b.score
  }

  ghost predicate Ranked(ms: seq<Match>) {
    forall i, j :: 0 <= i < j < |ms| ==> !RanksBefore(ms[j], ms[i])
  }

  ghost predicate DistinctMatches(ms: seq<Match>) {
    forall i, j :: 0 <= i < j < |ms| ==> ms[i].incident != ms[j].incident
  }

  ghost predicate DistinctIncidents(candidates: seq<Candidate>) {
    forall i, j :: 0 <= i < j < |candidates| ==> candidates[i].incident != candidates[j].incident
  }

  ghost function CandidateSet(candidates: seq<Candidate>): set<Candidate> {
    set c | c in candidates
  }

  ghost function MatchSet(ms: seq<Match>): set<Match> {
    set m | m in ms
  }

  function SplicedAt(ms: seq<Match>, k: nat, m: Match): seq<Match>
    requires k <= |ms|
  {
    ms[..k] + [m] + ms[k..]
  }

  lemma SplicingKeepsOrder(ms: seq<Match>, k: nat, m: Match)
    requires k <= |ms| && Ranked(ms)
    requires k < |ms| ==> RanksBefore(m, ms[k])
    requires k > 0 ==> !RanksBefore(m, ms[k - 1])
    ensures Ranked(SplicedAt(ms, k, m))
  {
    forall j | 0 <= j < |ms| ensures if j < k then !RanksBefore(m, ms[j]) else !RanksBefore(ms[j], m) {
      assert j < k - 1 ==> !RanksBefore(ms[k - 1], ms[j]);
      assert j > k ==> !RanksBefore(ms[j], ms[k]);
    }
  }

  lemma SplicingKeepsContents(ms: seq<Match>, k: nat, m: Match)
    requires k <= |ms|
    ensures MatchSet(SplicedAt(ms, k, m)) == MatchSet(ms) + {m}
    ensures multiset(SplicedAt(ms, k, m)) == multiset(ms) + multiset{m}
    ensures DistinctMatches(ms) && (forall x <- ms :: x.incident != m.incident) ==> DistinctMatches(SplicedAt(ms, k, m))
  {
    assert ms == ms[..k] + ms[k..];
    if DistinctMatches(ms) && (forall x <- ms :: x.incident != m.incident) {
      SplicingKeepsDistinct(ms, k, m);
    }
    SplicingKeepsMembers(ms, k, m);
  }

  lemma SplicingKeepsMembers(ms: seq<Match>, k: nat, m: Match)
    requires k <= |ms|
    ensures MatchSet(SplicedAt(ms, k, m)) == MatchSet(ms) + {m}
  {
    var spliced := SplicedAt(ms, k, m);
    forall x ensures x in spliced <==> x in ms || x == m {
      assert ms == ms[..k] + ms[k..];
    }
  }

  lemma SplicingKeepsDistinct(ms: seq<Match>, k: nat, m: Match)
    requires k <= |ms| && DistinctMatches(ms) && forall x <- ms :: x.incident != m.incident
    ensures DistinctMatches(SplicedAt(ms, k, m))
  {
    var spliced := SplicedAt(ms, k, m);
    forall i, j | 0 <= i < j < |spliced| ensures spliced[i].incident != spliced[j].incident {
      assert i < k ==> spliced[i] == ms[i];
      assert i > k ==> spliced[i] == ms[i - 1];
      assert j < k ==> spliced[j] == ms[j];
      assert j > k ==> spliced[j] == ms[j - 1];
    }
  }

  /** Puts `m` in its place among ranked matches. */
  method InsertByRank(sorted: seq<Match>, m: Match) returns (all: seq<Match>)
    requires Ranked(sorted)
    ensures Ranked(all) && MatchSet(all) == MatchSet(sorted) + {m} && multiset(all) == multiset(sorted) + multiset{m}
    ensures DistinctMatches(sorted) && (forall x <- sorted :: x.incident != m.incident) ==> DistinctMatches(all)
  {
    var k := |sorted|;
    while k > 0 && RanksBefore(m, sorted[k - 1])
      invariant 0 <= k <= |sorted|
      invariant k < |sorted| ==> RanksBefore(m, sorted[k])
    {
      k := k - 1;
    }
    SplicingKeepsOrder(sorted, k, m);
    SplicingKeepsContents(sorted, k, m);
    all := SplicedAt(sorted, k, m);
  }

  method SortByRank(ms: seq<Match>) returns (sorted: seq<Match>)
    ensures Ranked(sorted) && multiset(sorted) == multiset(ms) && MatchSet(sorted) == MatchSet(ms)
    ensures DistinctMatches(ms) ==> DistinctMatches(sorted)
    ensures forall i, j :: 0 <= i < j < |sorted| ==>
              sorted[i].score > sorted[j].score
              || (sorted[i].score == sorted[j].score && sorted[i].incident <= sorted[j].incident)
  {
    sorted := [];
    for i := 0 to |ms|
      invariant Ranked(sorted) && multiset(sorted) == multiset(ms[..i]) && MatchSet(sorted) == MatchSet(ms[..i])
      invariant DistinctMatches(ms) ==> DistinctMatches(sorted)
    {
      assert ms[..i + 1] == ms[..i] + [ms[i]];
      if DistinctMatches(ms) {
        forall x | x in sorted ensures x.incident != ms[i].incident {
          assert x in MatchSet(sorted);
        }
      }
      sorted := InsertByRank(sorted, ms[i]);
    }
    assert ms[..|ms|] == ms;
  }

  /** The policy in production (times in nanoseconds). */
  const PRODUCTION: Policy := Policy(
    "multi-catalog-conservative-v2", 30_000_000_000, 25.0, 0.8, 30.0, 0.45, 0.35, 0.15, 0.05, 0.82, 0.08)
}
