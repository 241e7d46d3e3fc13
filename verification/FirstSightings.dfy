/** What a first sighting leaves, and which incident it joins, told by the stored rows, the observation and the numbers of the
    policy in production (internal/repository/postgres/repository.go, applyEvent and correlationDecision;
    internal/domain/earthquake/correlation.go). */
module FirstSightings {
  import opened Wrappers
  import opened Solutions
  import opened Correlation
  import opened IncidentTables
  import opened IncidentInvariants
  import opened CorrelationScores
  import opened KnownSources

  // ----- Which incident is joined -----

  predicate IsCatalog(provider: string) {
    provider in {"emsc", "usgs", "geofon", "kndc"}
  }

  ghost predicate HasSource(t: Tables, incident: Uuid, id: Identity) {
    id in t.sources && t.sources[id].incident == incident
  }

  /** Within 30 seconds and 25 kilometres by the database, with a magnitude, seen by another catalogue and not yet by the
      newcomer's provider. */
  ghost predicate CanBeJoined(geo: Geography, t: Tables, obs: Observation, incident: Uuid) {
    && incident in t.incidents
    && var e := t.incidents[incident];
    && -30_000_000_000 <= e.fields.occurredAt - obs.fields.occurredAt <= 30_000_000_000
    && geo.within(e.fields.place, obs.fields.place, 25_000.0)
    && e.fields.magnitude.Some?
    && (exists id :: HasSource(t, incident, id) && IsCatalog(id.provider) && id.provider != obs.id.provider)
    && (forall id :: HasSource(t, incident, id) ==> id.provider != obs.id.provider)
  }

  function Distance(x: real, y: real): real {
    if x < y then y - x else x - y
  }

  /** By the scores' own distance at most 25 kilometres, at most 0.8 magnitudes and, if both depths are known, 30 kilometres. */
  predicate IsClose(surface: Surface, a: Fields, b: Fields) {
    && surface(a.place, b.place) <= 25.0
    && a.magnitude.Some? && b.magnitude.Some? && Distance(a.magnitude.value, b.magnitude.value) <= 0.8
    && (a.depthKM.Some? && b.depthKM.Some? ==> Distance(a.depthKM.value, b.depthKM.value) <= 30.0)
  }

  /** Time counts 0.45, distance 0.35, magnitude 0.15 and depth, where it is known of both, 0.05 of the whole. */
  function ScoreOf(surface: Surface, a: Fields, b: Fields): real
    requires a.magnitude.Some? && b.magnitude.Some?
  {
    var seconds := Distance(a.occurredAt as real, b.occurredAt as real) / 1_000_000_000.0;
    var score := 0.45 * (1.0 - seconds / 30.0) + 0.35 * (1.0 - surface(a.place, b.place) / 25.0)
                 + 0.15 * (1.0 - Distance(a.magnitude.value, b.magnitude.value) / 0.8);
    if a.depthKM.Some? && b.depthKM.Some? then
      score + 0.05 * (1.0 - Distance(a.depthKM.value, b.depthKM.value) / 30.0)
    else
      score / 0.95
  }

  function QuakeOf(provider: string, f: Fields): Quake {
    Quake(provider, f.occurredAt, f.place, f.magnitude, f.depthKM)
  }

  /** The gates of the policy in production. */
  lemma ProductionRejects(surface: Surface, a: Fields, b: Fields, x: string, y: string)
    requires a.magnitude.Some? && b.magnitude.Some? && -30_000_000_000 <= b.occurredAt - a.occurredAt <= 30_000_000_000
    ensures PRODUCTION.Score(surface, QuakeOf(x, a), QuakeOf(y, b)).Some? <==> IsClose(surface, a, b)
  {
    RejectedExactlyWhen(PRODUCTION, surface, QuakeOf(x, a), QuakeOf(y, b));
  }

  /** What the gaps take away of the weights of the policy in production. */
  lemma ProductionLoss(surface: Surface, a: Fields, b: Fields, x: string, y: string)
    requires a.magnitude.Some? && b.magnitude.Some?
    ensures var both := a.depthKM.Some? && b.depthKM.Some?;
            var k, loss := KnownWeights(PRODUCTION, QuakeOf(x, a), QuakeOf(y, b)), Loss(PRODUCTION, surface, QuakeOf(x, a), QuakeOf(y, b));
            && k == (if both then 1.0 else 0.95)
            && k - loss == if both then ScoreOf(surface, a, b) else 0.95 * ScoreOf(surface, a, b)
  {
    var p, q := QuakeOf(x, a), QuakeOf(y, b);
    var seconds := Distance(a.occurredAt as real, b.occurredAt as real) / 1_000_000_000.0;
    assert TimeGap(p, q) as real == Distance(a.occurredAt as real, b.occurredAt as real);
    assert Share(0.45, TimeGap(p, q) as real, 30_000_000_000 as real) == 0.45 * (seconds / 30.0);
    assert Gap(a.magnitude, b.magnitude) == Distance(a.magnitude.value, b.magnitude.value);
    if a.depthKM.Some? && b.depthKM.Some? {
      assert Gap(a.depthKM, b.depthKM) == Distance(a.depthKM.value, b.depthKM.value);
    }
  }

  lemma WholeOrPart(score: real, weights: real, rest: real, expected: real)
    requires weights == 1.0 || weights == 0.95
    requires score * weights == rest && rest == if weights == 1.0 then expected else 0.95 * expected
    ensures score == expected
  {
  }

  lemma ProductionScores(surface: Surface, a: Fields, b: Fields, x: string, y: string)
    requires a.magnitude.Some? && b.magnitude.Some? && -30_000_000_000 <= b.occurredAt - a.occurredAt <= 30_000_000_000
    ensures PRODUCTION.Score(surface, QuakeOf(x, a), QuakeOf(y, b))
            == if IsClose(surface, a, b) then Some(ScoreOf(surface, a, b)) else None
  {
    ProductionRejects(surface, a, b, x, y);
    if IsClose(surface, a, b) {
      ScoreIsWhatRemains(PRODUCTION, surface, QuakeOf(x, a), QuakeOf(y, b));
      ProductionLoss(surface, a, b, x, y);
      WholeOrPart(PRODUCTION.Score(surface, QuakeOf(x, a), QuakeOf(y, b)).value,
                  KnownWeights(PRODUCTION, QuakeOf(x, a), QuakeOf(y, b)),
                  KnownWeights(PRODUCTION, QuakeOf(x, a), QuakeOf(y, b)) - Loss(PRODUCTION, surface, QuakeOf(x, a), QuakeOf(y, b)),
                  ScoreOf(surface, a, b));
    }
  }

  ghost predicate IsCandidate(geo: Geography, t: Tables, obs: Observation, incident: Uuid) {
    CanBeJoined(geo, t, obs, incident) && IsClose(geo.surface, obs.fields, t.incidents[incident].fields)
  }

  /** A candidate of at least 0.82 that every other candidate stays 0.08 behind. */
  ghost predicate StandsOut(geo: Geography, t: Tables, obs: Observation, incident: Uuid) {
    && IsCandidate(geo, t, obs, incident)
    && ScoreOf(geo.surface, obs.fields, t.incidents[incident].fields) >= 0.82
    && forall other | IsCandidate(geo, t, obs, other) && other != incident ::
         ScoreOf(geo.surface, obs.fields, t.incidents[incident].fields) - ScoreOf(geo.surface, obs.fields, t.incidents[other].fields) >= 0.08
  }

  ghost predicate Correlates(geo: Geography, t: Tables, obs: Observation) {
    && IsCatalog(obs.id.provider) && obs.fields.magnitude.Some?
    && |set incident | incident in t.incidents && CanBeJoined(geo, t, obs, incident)| < 100
  }

  lemma EligibleCanBeJoined(geo: Geography, t: Tables, obs: Observation, incident: Uuid)
    requires Linked(t) && incident in t.incidents
    ensures Eligible(geo, t, obs, incident) <==> CanBeJoined(geo, t, obs, incident)
  {
    AssociatedMeansNamed(t, incident);
    forall id ensures Associated(t, id, incident) <==> HasSource(t, incident, id) {
    }
    if Eligible(geo, t, obs, incident) {
      var id :| id in t.sources.Keys && Associated(t, id, incident) && CorrelatedCatalogProvider(id.provider)
                && id.provider != obs.id.provider;
      assert HasSource(t, incident, id) && IsCatalog(id.provider);
    }
    if CanBeJoined(geo, t, obs, incident) {
      var id :| HasSource(t, incident, id) && IsCatalog(id.provider) && id.provider != obs.id.provider;
      assert Associated(t, id, incident) && CorrelatedCatalogProvider(id.provider);
    }
  }

  lemma CandidateIsJudged(geo: Geography, t: Tables, obs: Observation, incident: Uuid)
    requires Consistent(t) && CanBeJoined(geo, t, obs, incident) && obs.fields.magnitude.Some?
    ensures PRODUCTION.Judge(geo.surface, obs.Quake(), CandidateFor(t, incident))
            == if IsClose(geo.surface, obs.fields, t.incidents[incident].fields) then
                 Some(Match(incident, ScoreOf(geo.surface, obs.fields, t.incidents[incident].fields)))
               else
                 None
  {
    assert PreferredIsMirrored(t, incident);
    assert HasSource(t, incident, t.incidents[incident].preferred);
    ProductionScores(geo.surface, obs.fields, t.incidents[incident].fields, obs.id.provider, t.incidents[incident].preferred.provider);
  }

  /** The match stands for a candidate with its score. */
  ghost predicate IsScored(geo: Geography, t: Tables, obs: Observation, m: Match)
    requires obs.fields.magnitude.Some?
  {
    IsCandidate(geo, t, obs, m.incident) && m.score == ScoreOf(geo.surface, obs.fields, t.incidents[m.incident].fields)
  }

  ghost function CandidatesOf(geo: Geography, t: Tables, obs: Observation): set<Candidate> {
    set i | i in EligibleIncidents(geo, t, obs) :: CandidateFor(t, i)
  }

  lemma MatchIsScored(geo: Geography, t: Tables, obs: Observation, c: Candidate, m: Match)
    requires Consistent(t) && obs.fields.magnitude.Some? && c in CandidatesOf(geo, t, obs)
    requires PRODUCTION.Judge(geo.surface, obs.Quake(), c) == Some(m)
    ensures IsScored(geo, t, obs, m)
  {
    EligibleCanBeJoined(geo, t, obs, c.incident);
    CandidateIsJudged(geo, t, obs, c.incident);
  }

  lemma ScoredIsMatch(geo: Geography, t: Tables, obs: Observation, m: Match)
    requires Consistent(t) && obs.fields.magnitude.Some? && IsScored(geo, t, obs, m)
    ensures CandidateFor(t, m.incident) in CandidatesOf(geo, t, obs)
    ensures PRODUCTION.Judge(geo.surface, obs.Quake(), CandidateFor(t, m.incident)) == Some(m)
  {
    EligibleCanBeJoined(geo, t, obs, m.incident);
    CandidateIsJudged(geo, t, obs, m.incident);
  }

  /** The matches are the candidates with their scores. */
  lemma MatchesAreScored(geo: Geography, t: Tables, obs: Observation, matches: set<Match>)
    requires Consistent(t) && obs.fields.magnitude.Some?
    requires matches == PRODUCTION.Matches(geo.surface, obs.Quake(), CandidatesOf(geo, t, obs))
    ensures forall m :: m in matches <==> IsScored(geo, t, obs, m)
  {
    forall m ensures m in matches <==> IsScored(geo, t, obs, m) {
      if m in matches {
        var c :| c in CandidatesOf(geo, t, obs) && PRODUCTION.Judge(geo.surface, obs.Quake(), c) == Some(m);
        MatchIsScored(geo, t, obs, c, m);
      }
      if IsScored(geo, t, obs, m) {
        ScoredIsMatch(geo, t, obs, m);
      }
    }
  }

  lemma WinnersStandOut(geo: Geography, t: Tables, obs: Observation, matches: set<Match>, m: Match)
    requires obs.fields.magnitude.Some? && forall m :: m in matches <==> IsScored(geo, t, obs, m)
    ensures PRODUCTION.Wins(matches, m) <==> StandsOut(geo, t, obs, m.incident) && IsScored(geo, t, obs, m)
  {
    if StandsOut(geo, t, obs, m.incident) && IsScored(geo, t, obs, m) {
      forall other | other in matches
        ensures other == m || (RanksBefore(m, other) && m.score - other.score >= PRODUCTION.ambiguityMargin)
      {
        assert IsScored(geo, t, obs, other);
      }
    }
    if PRODUCTION.Wins(matches, m) {
      assert IsScored(geo, t, obs, m);
      forall other | IsCandidate(geo, t, obs, other) && other != m.incident
        ensures m.score - ScoreOf(geo.surface, obs.fields, t.incidents[other].fields) >= 0.08
      {
        var rival := Match(other, ScoreOf(geo.surface, obs.fields, t.incidents[other].fields));
        assert IsScored(geo, t, obs, rival);
      }
    }
  }

  lemma WinnerStandsOut(geo: Geography, t: Tables, obs: Observation, matches: set<Match>, incident: Uuid)
    requires obs.fields.magnitude.Some? && forall m :: m in matches <==> IsScored(geo, t, obs, m)
    ensures PRODUCTION.Winner(matches).Some? && PRODUCTION.Winner(matches).value.incident == incident <==>
            StandsOut(geo, t, obs, incident)
  {
    if PRODUCTION.Winner(matches).Some? {
      WinnersStandOut(geo, t, obs, matches, PRODUCTION.Winner(matches).value);
    }
    if StandsOut(geo, t, obs, incident) {
      var m := Match(incident, ScoreOf(geo.surface, obs.fields, t.incidents[incident].fields));
      assert IsScored(geo, t, obs, m);
      WinnersStandOut(geo, t, obs, matches, m);
      PRODUCTION.WinnerIsUnique(matches, m, PRODUCTION.Winner(matches).value);
    }
  }

  lemma EligibleAreCounted(geo: Geography, t: Tables, obs: Observation)
    requires Linked(t)
    ensures EligibleIncidents(geo, t, obs) == set incident | incident in t.incidents && CanBeJoined(geo, t, obs, incident)
  {
    forall incident | incident in t.incidents ensures Eligible(geo, t, obs, incident) <==> CanBeJoined(geo, t, obs, incident) {
      EligibleCanBeJoined(geo, t, obs, incident);
    }
  }

  lemma DecisionIsTheWinner(geo: Geography, t: Tables, obs: Observation)
    requires Linked(t)
    ensures CorrelationDecision(geo, t, obs)
            == if Correlates(geo, t, obs) then
                 PRODUCTION.Winner(PRODUCTION.Matches(geo.surface, obs.Quake(), CandidatesOf(geo, t, obs)))
               else
                 None
  {
    EligibleAreCounted(geo, t, obs);
  }

  /** The decision joins an incident if and only if the newcomer correlates and the incident stands out. */
  lemma DecisionJoinsExactlyWhen(geo: Geography, t: Tables, obs: Observation, incident: Uuid)
    requires Consistent(t)
    ensures CorrelationDecision(geo, t, obs).Some? && CorrelationDecision(geo, t, obs).value.incident == incident <==>
            Correlates(geo, t, obs) && StandsOut(geo, t, obs, incident)
  {
    DecisionIsTheWinner(geo, t, obs);
    if Correlates(geo, t, obs) {
      var matches := PRODUCTION.Matches(geo.surface, obs.Quake(), CandidatesOf(geo, t, obs));
      MatchesAreScored(geo, t, obs, matches);
      WinnerStandsOut(geo, t, obs, matches, incident);
    }
  }

  // ----- What a first sighting leaves -----

  predicate FirstRecord(obs: Observation, incident: Uuid, now: int, record: SourceRecord) {
    && record.incident == incident && record.updatedAt == obs.updatedAt && record.payload == obs.payload
    && record.fields == obs.fields && record.links == obs.links && record.version == 1 && record.channel == obs.channel
    && record.solution == obs.solution && record.firstSeen == now && record.lastSeen == now
  }

  predicate ShowsObservation(e: Incident, obs: Observation) {
    && e.preferred == obs.id && e.updatedAt == obs.updatedAt && e.fields == obs.fields && e.links == obs.links
    && e.channel == obs.channel && e.sourceVersion == 1
  }

  predicate ShowsTheSame(e: Incident, existing: Incident) {
    && e.preferred == existing.preferred && e.updatedAt == existing.updatedAt && e.fields == existing.fields
    && e.links == existing.links && e.channel == existing.channel && e.sourceVersion == existing.sourceVersion
  }

  /** The source is new, as observed. An incident that it joins has one more version, and shows the newcomer exactly when that
      is preferable to the source it preferred; one that it opens shows it in the first version. */
  ghost predicate Follows(t: Tables, next: Tables, change: Change, obs: Observation, joins: bool, now: int) {
    var incident := change.incident;
    && obs.id in next.sources && FirstRecord(obs, incident, now, next.sources[obs.id])
    && incident in next.incidents && next.incidents[incident].lastSeen == now
    && var e := next.incidents[incident];
    && (if joins then
          && incident in t.incidents && change.kind == Updated
          && e.version == t.incidents[incident].version + 1 && e.firstSeen == t.incidents[incident].firstSeen
          && var preferred := t.incidents[incident].preferred;
             && preferred in t.sources
             && (if PreferCanonicalSource(preferred.provider, t.sources[preferred].solution, obs.id.provider, obs.solution) then
                   ShowsObservation(e, obs)
                 else
                   ShowsTheSame(e, t.incidents[incident]))
        else
          && incident !in t.incidents && change.kind == Inserted && e.version == 1 && e.firstSeen == now
          && ShowsObservation(e, obs))
    && next.observations
       == t.observations[ObservationKey(obs.id, obs.channel, obs.solution, obs.updatedAt, obs.payload) := Receipt(1, now)]
  }

  lemma InsertedRecord(t: Tables, obs: Observation, incident: Uuid, now: int)
    requires Linked(t) && obs.id !in t.sources
    ensures InsertSource(t, obs, incident, now).Success?
    ensures var inserted := InsertSource(t, obs, incident, now).value;
            && obs.id in inserted.sources && FirstRecord(obs, incident, now, inserted.sources[obs.id])
            && inserted.incidents == t.incidents && inserted.revisions == t.revisions
            && inserted.observations
               == t.observations[ObservationKey(obs.id, obs.channel, obs.solution, obs.updatedAt, obs.payload) := Receipt(1, now)]
  {
    assert KeyOf(obs) !in t.observations;
  }

  lemma AssociationWrites(inserted: Tables, incident: Uuid, existing: Incident, id: Identity, now: int)
    requires RevisionFree(inserted, id, existing.version + 1)
    ensures var result := UpdateIncidentAssociation(inserted, incident, existing, id, now);
            && result.Success? && result.value.change.kind == Updated && result.value.change.incident == incident
            && result.value.tables.sources == inserted.sources && result.value.tables.observations == inserted.observations
            && incident in result.value.tables.incidents
            && var after := result.value.tables.incidents[incident];
               after == existing.(lifecycle := after.lifecycle, lastSeen := now, version := existing.version + 1)
  {
  }

  lemma PreferredJoins(t: Tables, incident: Uuid, obs: Observation, now: int)
    requires Linked(t) && obs.id !in t.sources && Ready(t, incident, obs.id) && Wins(t, incident, obs)
    requires forall other <- t.sources :: t.sources[other].incident == incident ==> other.provider != obs.id.provider
    ensures var result := InsertCorrelatedSource(t, incident, obs, now);
            result.Success? && result.value.change.incident == incident
            && Follows(t, result.value.tables, result.value.change, obs, true, now)
  {
    InsertedRecord(t, obs, incident, now);
    TakingOverIsCanonicalUpdate(t, incident, obs, now);
    AdoptionWrites(InsertSource(t, obs, incident, now).value, incident, t.incidents[incident], obs, 1, now);
  }

  lemma OtherJoins(t: Tables, incident: Uuid, obs: Observation, now: int)
    requires Linked(t) && obs.id !in t.sources && Ready(t, incident, obs.id) && !Wins(t, incident, obs)
    requires forall other <- t.sources :: t.sources[other].incident == incident ==> other.provider != obs.id.provider
    ensures var result := InsertCorrelatedSource(t, incident, obs, now);
            result.Success? && result.value.change.incident == incident
            && Follows(t, result.value.tables, result.value.change, obs, true, now)
  {
    InsertedRecord(t, obs, incident, now);
    JoiningIsAssociation(t, incident, obs, now);
    AssociationWrites(InsertSource(t, obs, incident, now).value, incident, t.incidents[incident], obs.id, now);
  }

  lemma JoiningFollows(t: Tables, incident: Uuid, obs: Observation, now: int)
    requires Consistent(t) && obs.id !in t.sources && incident in t.incidents
    requires forall other <- t.sources :: t.sources[other].incident == incident ==> other.provider != obs.id.provider
    ensures var result := InsertCorrelatedSource(t, incident, obs, now);
            result.Success? && result.value.change.incident == incident
            && Follows(t, result.value.tables, result.value.change, obs, true, now)
  {
    ConsistentIsReady(t, incident, obs.id);
    if Wins(t, incident, obs) {
      PreferredJoins(t, incident, obs, now);
    } else {
      OtherJoins(t, incident, obs, now);
    }
  }

  lemma OpeningFollows(t: Tables, obs: Observation, minted: Uuid, now: int)
    requires Consistent(t) && obs.id !in t.sources
    ensures var result := InsertIncident(t, obs, minted, now);
            result.Success? ==> result.value.change.incident == minted
                                && Follows(t, result.value.tables, result.value.change, obs, false, now)
  {
    if InsertIncident(t, obs, minted, now).Success? {
      OpenedTables(t, obs, minted, now);
      InsertedRecord(t, obs, minted, now);
    }
  }

  ghost predicate Joins(geo: Geography, t: Tables, obs: Observation) {
    Correlates(geo, t, obs) && exists incident :: StandsOut(geo, t, obs, incident)
  }

  lemma DecidesToJoinExactlyWhen(geo: Geography, t: Tables, obs: Observation)
    requires Consistent(t)
    ensures CorrelationDecision(geo, t, obs).Some? <==> Joins(geo, t, obs)
    ensures Joins(geo, t, obs) ==> StandsOut(geo, t, obs, CorrelationDecision(geo, t, obs).value.incident)
  {
    var decision := CorrelationDecision(geo, t, obs);
    if decision.Some? {
      DecisionJoinsExactlyWhen(geo, t, obs, decision.value.incident);
    }
    if Joins(geo, t, obs) {
      var incident :| StandsOut(geo, t, obs, incident);
      DecisionJoinsExactlyWhen(geo, t, obs, incident);
    }
  }

  /** A first sighting joins the incident that stands out, if it correlates and there is one; otherwise it opens an incident
      under the minted identity. Both leave what follows from the observation. */
  lemma FirstSightingFollows(geo: Geography, t: Tables, input: Input)
    requires Consistent(t) && input.obs.id !in t.sources && ApplyEvent(geo, t, input).Success?
    ensures var outcome := ApplyEvent(geo, t, input).value;
            && (if Joins(geo, t, input.obs) then StandsOut(geo, t, input.obs, outcome.change.incident)
                else outcome.change.incident == input.minted)
            && Follows(t, outcome.tables, outcome.change, input.obs, Joins(geo, t, input.obs), input.now)
  {
    UnknownIsFirst(geo, t, input);
    DecidesToJoinExactlyWhen(geo, t, input.obs);
    var decision := CorrelationDecision(geo, t, input.obs);
    if decision.Some? {
      MatchIsEligible(geo, t, input.obs);
      JoiningFollows(t, decision.value.incident, input.obs, input.now);
    } else {
      OpeningFollows(t, input.obs, input.minted, input.now);
    }
  }
}
