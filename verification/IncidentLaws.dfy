/** Documented laws of ingestion that the program meets only in part: when exactly it does, and a run in which it does not. */
module IncidentLaws {
  import opened Wrappers
  import opened Solutions
  import opened Correlation
  import opened IncidentTables
  import opened IncidentInvariants
  import opened IncidentHistory

  // ----- Stale data -----

  /** Staleness is judged by the incident's time, so a source that is not the canonical one can be taken back in time. */
  predicate Backdates(t: Tables, obs: Observation)
    requires Known(t, obs.id)
  {
    var stored := t.sources[obs.id];
    var existing := t.incidents[stored.incident];
    && obs.updatedAt < stored.updatedAt
    && !IsStale(existing, obs) && !IsRepeated(existing, stored, obs) && !IsWeaker(stored, obs)
  }

  lemma MaterialWritesTheSource(t: Tables, obs: Observation, now: int)
    requires obs.id in t.sources && Ready(t, t.sources[obs.id].incident, obs.id) && !IsWeaker(t.sources[obs.id], obs)
    ensures ApplyMaterial(t, t.sources[obs.id], obs, now).Success?
    ensures obs.id in ApplyMaterial(t, t.sources[obs.id], obs, now).value.tables.sources
    ensures ApplyMaterial(t, t.sources[obs.id], obs, now).value.tables.sources[obs.id].updatedAt == obs.updatedAt
  {
    RewriteSourceIsReady(t, obs, now);
    MaterialIsStep(t, obs, now);
  }

  /** Older data replaces newer data of its source if and only if it is not older than the incident, is not the stored
      payload again and is not of a weaker class; never at the canonical source. */
  lemma SourceTimeFallsExactlyWhenBackdated(t: Tables, obs: Observation, now: int)
    requires obs.id in t.sources && Ready(t, t.sources[obs.id].incident, obs.id)
    ensures ApplyKnown(t, obs, now).Success? && obs.id in ApplyKnown(t, obs, now).value.tables.sources
    ensures ApplyKnown(t, obs, now).value.tables.sources[obs.id].updatedAt < t.sources[obs.id].updatedAt <==> Backdates(t, obs)
    ensures Backdates(t, obs) ==> t.incidents[t.sources[obs.id].incident].preferred != obs.id
  {
    var stored := t.sources[obs.id];
    var existing := t.incidents[stored.incident];
    var promoted := StrongerSolution(stored.solution, obs.solution);
    if IsStale(existing, obs) {
      TouchIsStep(t, obs, Seen(stored, obs, now).(solution := promoted), now, Stale);
    } else if IsRepeated(existing, stored, obs) {
      var channel := if promoted != obs.solution then stored.channel else obs.channel;
      TouchIsStep(t, obs, Seen(stored, obs, now).(channel := channel, solution := promoted), now, Unchanged);
    } else if IsWeaker(stored, obs) {
      TouchIsStep(t, obs, Seen(stored, obs, now), now, Unchanged);
    } else {
      MaterialWritesTheSource(t, obs, now);
    }
  }

  /** A known source never takes its incident back in time. */
  lemma KnownSourceKeepsIncidentTime(t: Tables, obs: Observation, now: int)
    requires obs.id in t.sources && Ready(t, t.sources[obs.id].incident, obs.id)
    ensures ApplyKnown(t, obs, now).Success?
    ensures var incident := t.sources[obs.id].incident;
            var next := ApplyKnown(t, obs, now).value.tables;
            incident in next.incidents && next.incidents[incident].updatedAt >= t.incidents[incident].updatedAt
  {
    var stored := t.sources[obs.id];
    var existing := t.incidents[stored.incident];
    var promoted := StrongerSolution(stored.solution, obs.solution);
    if IsStale(existing, obs) {
      TouchIsStep(t, obs, Seen(stored, obs, now).(solution := promoted), now, Stale);
    } else if IsRepeated(existing, stored, obs) {
      var channel := if promoted != obs.solution then stored.channel else obs.channel;
      TouchIsStep(t, obs, Seen(stored, obs, now).(channel := channel, solution := promoted), now, Unchanged);
    } else if IsWeaker(stored, obs) {
      TouchIsStep(t, obs, Seen(stored, obs, now), now, Unchanged);
    } else {
      MaterialIsStep(t, obs, now);
    }
  }

  /** A first sighting takes the incident it joins back in time if and only if it is older and preferred all the same. */
  lemma JoinedIncidentTimeFallsExactlyWhenOlderWins(t: Tables, incident: Uuid, obs: Observation, now: int)
    requires InsertCorrelatedSource(t, incident, obs, now).Success?
    ensures incident in t.incidents && PreferredSolution(t, incident).Success?
    ensures var existing := t.incidents[incident];
            var next := InsertCorrelatedSource(t, incident, obs, now).value.tables;
            incident in next.incidents
            && (next.incidents[incident].updatedAt < existing.updatedAt <==>
                obs.updatedAt < existing.updatedAt
                && Beats(obs.Standing(), Standing(existing.preferred.provider, PreferredSolution(t, incident).value)))
  {
  }

  // ----- Retractions -----

  /** The retraction of a source counts if and only if it is not older than the incident and not the stored payload again;
      one that comes late is lost. */
  lemma RetractionCountsExactlyWhenTimely(t: Tables, obs: Observation, now: int)
    requires obs.id in t.sources && Ready(t, t.sources[obs.id].incident, obs.id)
    requires obs.solution == RetractedSolution && t.sources[obs.id].solution != RetractedSolution
    ensures ApplyKnown(t, obs, now).Success? && obs.id in ApplyKnown(t, obs, now).value.tables.sources
    ensures var stored := t.sources[obs.id];
            var existing := t.incidents[stored.incident];
            ApplyKnown(t, obs, now).value.tables.sources[obs.id].solution == RetractedSolution <==>
            !IsStale(existing, obs) && !IsRepeated(existing, stored, obs)
  {
    var stored := t.sources[obs.id];
    var existing := t.incidents[stored.incident];
    var promoted := StrongerSolution(stored.solution, obs.solution);
    if IsStale(existing, obs) {
      TouchIsStep(t, obs, Seen(stored, obs, now).(solution := promoted), now, Stale);
    } else if IsRepeated(existing, stored, obs) {
      var channel := if promoted != obs.solution then stored.channel else obs.channel;
      TouchIsStep(t, obs, Seen(stored, obs, now).(channel := channel, solution := promoted), now, Unchanged);
    } else {
      MaterialIsStep(t, obs, now);
      RewriteSourceIsReady(t, obs, now);
    }
  }

  /** Nothing but a timely retraction retracts a known source. */
  lemma OnlyTimelyRetractionsRetract(t: Tables, obs: Observation, now: int)
    requires obs.id in t.sources && Ready(t, t.sources[obs.id].incident, obs.id)
    requires t.sources[obs.id].solution != RetractedSolution
    ensures ApplyKnown(t, obs, now).Success? && obs.id in ApplyKnown(t, obs, now).value.tables.sources
    ensures ApplyKnown(t, obs, now).value.tables.sources[obs.id].solution == RetractedSolution <==>
            obs.solution == RetractedSolution && IsTimely(t, obs)
  {
    if obs.solution == RetractedSolution {
      RetractionCountsExactlyWhenTimely(t, obs, now);
    } else {
      OthersDoNotRetract(t, obs, now);
    }
  }

  /** Neither older than the incident nor the stored payload again. */
  predicate IsTimely(t: Tables, obs: Observation)
    requires Known(t, obs.id)
  {
    var stored := t.sources[obs.id];
    var existing := t.incidents[stored.incident];
    !IsStale(existing, obs) && !IsRepeated(existing, stored, obs)
  }

  lemma OthersDoNotRetract(t: Tables, obs: Observation, now: int)
    requires obs.id in t.sources && Ready(t, t.sources[obs.id].incident, obs.id)
    requires t.sources[obs.id].solution != RetractedSolution && obs.solution != RetractedSolution
    ensures ApplyKnown(t, obs, now).Success? && obs.id in ApplyKnown(t, obs, now).value.tables.sources
    ensures ApplyKnown(t, obs, now).value.tables.sources[obs.id].solution != RetractedSolution
  {
    var stored := t.sources[obs.id];
    var existing := t.incidents[stored.incident];
    var promoted := StrongerSolution(stored.solution, obs.solution);
    if IsStale(existing, obs) {
      TouchIsStep(t, obs, Seen(stored, obs, now).(solution := promoted), now, Stale);
    } else if IsRepeated(existing, stored, obs) {
      var channel := if promoted != obs.solution then stored.channel else obs.channel;
      TouchIsStep(t, obs, Seen(stored, obs, now).(channel := channel, solution := promoted), now, Unchanged);
    } else if IsWeaker(stored, obs) {
      TouchIsStep(t, obs, Seen(stored, obs, now), now, Unchanged);
    } else {
      MaterialIsStep(t, obs, now);
    }
  }

  /** The event is a timely retraction of the one source that holds the lifecycle of its incident up. */
  ghost predicate RetractsTheSoleBest(t: Tables, obs: Observation) {
    && Known(t, obs.id)
    && SoleBest(t.sources, t.sources[obs.id].incident, obs.id)
    && obs.solution == RetractedSolution && IsTimely(t, obs)
  }

  /** An event lowers the lifecycle of an incident if and only if it is a timely retraction of the one source that held the
      lifecycle up, and then retracts the incident if and only if all its other sources are retracted. */
  lemma LifecycleFallsExactlyOnTimelyRetraction(geo: Geography, t: Tables, input: Input)
    requires Consistent(t) && ApplyEvent(geo, t, input).Success?
    requires ApplyEvent(geo, t, input).value.change.incident in t.incidents
    ensures var incident := ApplyEvent(geo, t, input).value.change.incident;
            var next := ApplyEvent(geo, t, input).value.tables;
            && incident in next.incidents
            && var before, after := t.incidents[incident].lifecycle, next.incidents[incident].lifecycle;
               && (LifecycleRank(after) < LifecycleRank(before) <==> RetractsTheSoleBest(t, input.obs))
               && (LifecycleRank(after) < LifecycleRank(before) ==>
                     (after == Retracted <==> AllOthersRetracted(t.sources, incident, input.obs.id)))
  {
    LifecycleFallsExactlyWhenSoleBestRetracts(geo, t, input);
    if input.obs.id in t.sources {
      KnownIsFound(geo, t, input);
      ConsistentIsReady(t, t.sources[input.obs.id].incident, input.obs.id);
      KnownIsStep(t, input.obs, input.now);
      if t.sources[input.obs.id].solution != RetractedSolution {
        OnlyTimelyRetractionsRetract(t, input.obs, input.now);
      }
    }
  }

  /** The class that an incident's canonical values come from. */
  function CanonicalRank(t: Tables, incident: Uuid): nat {
    match PreferredSolution(t, incident)
    case Success(solution) => SolutionRank(solution)
    case Failure(_) => 0
  }

  /** Values of a weaker class replace canonical ones if and only if the canonical source itself retracts them. */
  lemma CanonicalRankFallsExactlyWhenItRetracts(t: Tables, obs: Observation, now: int)
    requires obs.id in t.sources && Ready(t, t.sources[obs.id].incident, obs.id)
    ensures ApplyKnown(t, obs, now).Success?
    ensures var stored := t.sources[obs.id];
            var existing := t.incidents[stored.incident];
            CanonicalRank(ApplyKnown(t, obs, now).value.tables, stored.incident) < CanonicalRank(t, stored.incident) <==>
            existing.preferred == obs.id && obs.solution == RetractedSolution && stored.solution != RetractedSolution
            && !IsStale(existing, obs) && !IsRepeated(existing, stored, obs)
  {
    var stored := t.sources[obs.id];
    var existing := t.incidents[stored.incident];
    var promoted := StrongerSolution(stored.solution, obs.solution);
    if IsStale(existing, obs) {
      TouchIsStep(t, obs, Seen(stored, obs, now).(solution := promoted), now, Stale);
    } else if IsRepeated(existing, stored, obs) {
      var channel := if promoted != obs.solution then stored.channel else obs.channel;
      TouchIsStep(t, obs, Seen(stored, obs, now).(channel := channel, solution := promoted), now, Unchanged);
    } else if IsWeaker(stored, obs) {
      TouchIsStep(t, obs, Seen(stored, obs, now), now, Unchanged);
    } else {
      MaterialIsStep(t, obs, now);
      RewriteSourceIsReady(t, obs, now);
    }
  }

  /** A first sighting never brings weaker values. */
  lemma JoiningNeverLowersTheCanonicalRank(t: Tables, incident: Uuid, obs: Observation, now: int)
    requires obs.id !in t.sources && InsertCorrelatedSource(t, incident, obs, now).Success?
    ensures CanonicalRank(InsertCorrelatedSource(t, incident, obs, now).value.tables, incident) >= CanonicalRank(t, incident)
  {
  }

  // ----- Runs in which the laws fail -----

  /** Sightings that agree on the earthquake. */
  function Sighting(provider: string, place: Place, solution: SolutionClass, updatedAt: int, payload: string): Observation {
    Observation(Identity(provider, "x"), "catalog", solution, updatedAt, Fields(0, place, None, Some(5.0), ""), payload,
                Links(None, None))
  }

  /** Any geography that takes a place to be at itself. */
  ghost predicate Reflexive(geo: Geography, place: Place) {
    geo.within(place, place, PRODUCTION.maximumDistanceKM * 1000.0) && geo.surface(place, place) == 0.0
  }

  /** The tables after the first of the sightings. */
  function Alone(obs: Observation): Tables {
    Tables(map[1 := Incident(obs.id, obs.updatedAt, obs.fields, obs.links, 1, LifecycleOf(obs.solution), 1, obs.channel, 0, 0)],
           map[obs.id := SourceRecord(1, obs.updatedAt, obs.payload, obs.fields, obs.links, 1, obs.channel, obs.solution, 0, 0)],
           [Association(obs.id, 1)], [], map[KeyOf(obs) := Receipt(1, 0)])
  }

  function LifecycleOf(solution: SolutionClass): Lifecycle {
    match solution
    case PreliminarySolution => Preliminary
    case ConfirmedSolution => Confirmed
    case ReviewedSolution => Reviewed
    case RetractedSolution => Retracted
  }

  lemma FirstOpensAlone(geo: Geography, obs: Observation)
    ensures Committed(geo, EMPTY, Input(obs, 1, 0)) == Alone(obs)
  {
    assert EligibleIncidents(geo, EMPTY, obs) == {};
    assert CorrelationDecision(geo, EMPTY, obs).None?;
    SupportedLifecycleIsUnique(iset{obs.solution}, Resolve(iset{obs.solution}), LifecycleOf(obs.solution));
  }

  lemma TwinScores(geo: Geography, a: Observation, b: Observation)
    requires a.id.provider != b.id.provider && a.fields == b.fields && a.fields.magnitude == Some(5.0)
    requires a.fields.depthKM == None && Reflexive(geo, a.fields.place)
    ensures PRODUCTION.Judge(geo.surface, b.Quake(), Candidate(1, a.Quake())) == Some(Match(1, 1.0))
  {
  }

  lemma TwinJoins(geo: Geography, a: Observation, b: Observation)
    requires CorrelatedCatalogProvider(a.id.provider) && CorrelatedCatalogProvider(b.id.provider)
    requires a.id.provider != b.id.provider && a.fields == b.fields && a.fields.magnitude == Some(5.0)
    requires a.fields.depthKM == None && Reflexive(geo, a.fields.place)
    ensures CorrelationDecision(geo, Alone(a), b) == Some(Match(1, 1.0))
  {
    var t := Alone(a);
    assert Associated(t, a.id, 1);
    assert Eligible(geo, t, b, 1);
    var eligible := EligibleIncidents(geo, t, b);
    assert eligible == {1};
    var candidates := set i | i in eligible :: CandidateFor(t, i);
    assert CandidateFor(t, 1) == Candidate(1, a.Quake());
    assert 1 in eligible && candidates == {Candidate(1, a.Quake())};
    TwinScores(geo, a, b);
    var matches := PRODUCTION.Matches(geo.surface, b.Quake(), candidates);
    assert matches == {Match(1, 1.0)};
    assert PRODUCTION.Wins(matches, Match(1, 1.0));
  }

  /** The tables after two sightings that join, the second of which does not become canonical. */
  function Joined(a: Observation, b: Observation): Tables {
    var t := Alone(a);
    Tables(map[1 := t.incidents[1].(version := 2)],
           t.sources[b.id := SourceRecord(1, b.updatedAt, b.payload, b.fields, b.links, 1, b.channel, b.solution, 0, 0)],
           t.associations + [Association(b.id, 1)], [Revision(1, b.id, 2)], t.observations[KeyOf(b) := Receipt(1, 0)])
  }

  lemma EvidenceOfJoined(a: Observation, b: Observation)
    requires a.id != b.id
    ensures EvidenceOf(Joined(a, b), 1) == iset{a.solution, b.solution}
  {
    assert Associated(Joined(a, b), a.id, 1) && Associated(Joined(a, b), b.id, 1);
  }

  lemma JoinInserts(a: Observation, b: Observation)
    requires a.id != b.id
    ensures InsertSource(Alone(a), b, 1, 0).Success?
    ensures InsertSource(Alone(a), b, 1, 0).value == Joined(a, b).(incidents := Alone(a).incidents, revisions := [])
    ensures EvidenceOf(InsertSource(Alone(a), b, 1, 0).value, 1) == iset{a.solution, b.solution}
  {
    var inserted := InsertSource(Alone(a), b, 1, 0).value;
    assert inserted.associations == Joined(a, b).associations;
    EvidenceOfJoined(a, b);
    assert forall s :: Associated(inserted, s, 1) <==> Associated(Joined(a, b), s, 1);
  }

  /** A newcomer that changes neither the canonical values nor the lifecycle leaves a new version. */
  lemma AssociationLeaves(inserted: Tables, incident: Uuid, existing: Incident, id: Identity, now: int)
    requires RevisionFree(inserted, id, existing.version + 1) && Resolve(EvidenceOf(inserted, incident)) == existing.lifecycle
    ensures var result, version := UpdateIncidentAssociation(inserted, incident, existing, id, now), existing.version + 1;
            result.Success?
            && result.value.tables == inserted.(incidents := inserted.incidents[incident := existing.(version := version, lastSeen := now)],
                                                revisions := inserted.revisions + [Revision(incident, id, version)])
  {
  }

  lemma BetterClassDecides(a: SolutionClass, b: SolutionClass)
    requires SolutionRank(b) <= SolutionRank(a) && b != RetractedSolution
    ensures Resolve(iset{a, b}) == LifecycleOf(a)
  {
    assert a in iset{a, b};
    SupportedLifecycleIsUnique(iset{a, b}, Resolve(iset{a, b}), LifecycleOf(a));
  }

  lemma JoinSettles(a: Observation, b: Observation, inserted: Tables)
    requires a.id != b.id && Beats(a.Standing(), b.Standing()) && b.solution != RetractedSolution
    requires inserted == Joined(a, b).(incidents := Alone(a).incidents, revisions := [])
    requires EvidenceOf(inserted, 1) == iset{a.solution, b.solution}
    ensures var result := UpdateIncidentAssociation(inserted, 1, Alone(a).incidents[1], b.id, 0);
            result.Success? && result.value.tables == Joined(a, b)
  {
    BetterClassDecides(a.solution, b.solution);
    AssociationLeaves(inserted, 1, Alone(a).incidents[1], b.id, 0);
  }

  lemma JoinWrites(a: Observation, b: Observation)
    requires a.id != b.id && Beats(a.Standing(), b.Standing()) && b.solution != RetractedSolution
    ensures InsertCorrelatedSource(Alone(a), 1, b, 0).Success?
    ensures InsertCorrelatedSource(Alone(a), 1, b, 0).value.tables == Joined(a, b)
  {
    JoinInserts(a, b);
    JoinSettles(a, b, InsertSource(Alone(a), b, 1, 0).value);
    assert PreferredSolution(Alone(a), 1) == Success(a.solution);
  }

  lemma SecondJoins(geo: Geography, a: Observation, b: Observation)
    requires CorrelatedCatalogProvider(a.id.provider) && CorrelatedCatalogProvider(b.id.provider)
    requires a.id.provider != b.id.provider && a.fields == b.fields && a.fields.magnitude == Some(5.0)
    requires a.fields.depthKM == None && Reflexive(geo, a.fields.place)
    ensures ApplyEvent(geo, Alone(a), Input(b, 2, 0)) == InsertCorrelatedSource(Alone(a), 1, b, 0)
  {
    TwinJoins(geo, a, b);
    UnknownIsFirst(geo, Alone(a), Input(b, 2, 0));
  }

  lemma RunExtends(geo: Geography, inputs: seq<Input>, input: Input, before: Tables)
    requires Run(geo, EMPTY, inputs) == before
    ensures Run(geo, EMPTY, inputs + [input]) == Committed(geo, before, input)
  {
    assert (inputs + [input])[..|inputs|] == inputs;
  }

  /** Reached by two sightings of one earthquake, whichever place it has. */
  lemma JoinedIsReached(geo: Geography, a: Observation, b: Observation)
    requires CorrelatedCatalogProvider(a.id.provider) && CorrelatedCatalogProvider(b.id.provider)
    requires a.id.provider != b.id.provider && a.fields == b.fields && a.fields.magnitude == Some(5.0)
    requires a.fields.depthKM == None && Reflexive(geo, a.fields.place)
    requires Beats(a.Standing(), b.Standing()) && b.solution != RetractedSolution
    ensures Run(geo, EMPTY, [Input(a, 1, 0), Input(b, 2, 0)]) == Joined(a, b)
  {
    AloneIsReached(geo, a);
    RunExtends(geo, [Input(a, 1, 0)], Input(b, 2, 0), Alone(a));
    assert [Input(a, 1, 0)] + [Input(b, 2, 0)] == [Input(a, 1, 0), Input(b, 2, 0)];
    SecondJoins(geo, a, b);
    JoinWrites(a, b);
  }

  /** The event is applied, and takes the data of its source back in time. */
  ghost predicate TakesSourceBack(geo: Geography, t: Tables, input: Input) {
    && input.obs.id in t.sources
    && ApplyEvent(geo, t, input).Success?
    && var next := ApplyEvent(geo, t, input).value.tables;
       input.obs.id in next.sources && next.sources[input.obs.id].updatedAt < t.sources[input.obs.id].updatedAt
  }

  /** The event is applied, and lowers the lifecycle of its source's incident without retracting it. */
  ghost predicate FallsBack(geo: Geography, t: Tables, input: Input) {
    && Known(t, input.obs.id)
    && ApplyEvent(geo, t, input).Success?
    && var incident, next := t.sources[input.obs.id].incident, ApplyEvent(geo, t, input).value.tables;
       && incident in next.incidents && next.incidents[incident].lifecycle != Retracted
       && LifecycleRank(next.incidents[incident].lifecycle) < LifecycleRank(t.incidents[incident].lifecycle)
  }

  /** The event is applied, and takes an incident back in time. */
  ghost predicate TakesIncidentBack(t: Tables, result: Applied, incident: Uuid) {
    && incident in t.incidents && result.Success? && incident in result.value.tables.incidents
    && result.value.tables.incidents[incident].updatedAt < t.incidents[incident].updatedAt
  }

  lemma BackdatingTakesSourceBack(geo: Geography, t: Tables, input: Input)
    requires Consistent(t) && input.obs.id in t.sources && Backdates(t, input.obs)
    ensures TakesSourceBack(geo, t, input)
  {
    KnownIsFound(geo, t, input);
    ConsistentIsReady(t, t.sources[input.obs.id].incident, input.obs.id);
    SourceTimeFallsExactlyWhenBackdated(t, input.obs, input.now);
  }

  /** The documented rule that stale responses do not overwrite newer data fails at a source that is not canonical: the
      third event replaces what the second one brought, which is newer. */
  lemma OlderDataOverwrites(geo: Geography, place: Place)
    requires Reflexive(geo, place)
    ensures var a, b := Sighting("usgs", place, ConfirmedSolution, 10, "a"), Sighting("emsc", place, ConfirmedSolution, 100, "newer");
            TakesSourceBack(geo, Run(geo, EMPTY, [Input(a, 1, 0), Input(b, 2, 0)]),
                            Input(Sighting("emsc", place, ConfirmedSolution, 50, "older"), 3, 0))
  {
    var a, b := Sighting("usgs", place, ConfirmedSolution, 10, "a"), Sighting("emsc", place, ConfirmedSolution, 100, "newer");
    var inputs := [Input(a, 1, 0), Input(b, 2, 0)];
    JoinedIsReached(geo, a, b);
    EveryReachableStoreIsConsistent(geo, inputs);
    BackdatingTakesSourceBack(geo, Run(geo, EMPTY, inputs), Input(Sighting("emsc", place, ConfirmedSolution, 50, "older"), 3, 0));
  }

  /** A timely retraction of the one best source lowers the lifecycle, and no further than another source allows. */
  lemma RetractingTheSoleBestFallsBack(geo: Geography, t: Tables, input: Input, other: Identity)
    requires Consistent(t) && input.obs.id in t.sources && input.obs.solution == RetractedSolution
    requires var incident := t.sources[input.obs.id].incident;
             && SoleBest(t.sources, incident, input.obs.id) && input.obs.updatedAt > t.incidents[incident].updatedAt
             && other != input.obs.id && Supporter(t.sources, incident, other) && t.sources[other].solution != RetractedSolution
    ensures FallsBack(geo, t, input)
  {
    KnownIsFound(geo, t, input);
    ConsistentIsReady(t, t.sources[input.obs.id].incident, input.obs.id);
    RetractionCountsExactlyWhenTimely(t, input.obs, input.now);
    KnownIsStep(t, input.obs, input.now);
    LifecycleFallsExactlyWhenSoleBestRetracts(geo, t, input);
  }

  lemma JoinedIsHeldUp(a: Observation, b: Observation)
    requires a.id != b.id && a.solution == ReviewedSolution && b.solution == PreliminarySolution
    ensures var sources := Joined(a, b).sources;
            && SoleBest(sources, 1, a.id) && Supporter(sources, 1, b.id) && sources[b.id].solution == PreliminarySolution
            && sources[a.id].incident == 1
    ensures 1 in Joined(a, b).incidents && Joined(a, b).incidents[1].updatedAt == a.updatedAt
  {
    assert Joined(a, b).sources.Keys == {a.id, b.id};
  }

  lemma JoinedFallsBack(geo: Geography, t: Tables, a: Observation, b: Observation, input: Input)
    requires Consistent(t) && t == Joined(a, b) && a.id != b.id
    requires a.solution == ReviewedSolution && b.solution == PreliminarySolution
    requires input.obs.id == a.id && input.obs.solution == RetractedSolution && input.obs.updatedAt > a.updatedAt
    ensures FallsBack(geo, t, input)
  {
    JoinedIsHeldUp(a, b);
    RetractingTheSoleBestFallsBack(geo, t, input, b.id);
  }

  /** The documented rule that a lifecycle only advances or becomes retracted fails when the best of several sources is
      retracted: a reviewed incident with a preliminary source falls back. */
  lemma LifecycleFallsBack(geo: Geography, place: Place)
    requires Reflexive(geo, place)
    ensures var a, b := Sighting("usgs", place, ReviewedSolution, 10, "a"), Sighting("emsc", place, PreliminarySolution, 10, "b");
            FallsBack(geo, Run(geo, EMPTY, [Input(a, 1, 0), Input(b, 2, 0)]),
                      Input(Sighting("usgs", place, RetractedSolution, 20, "c"), 3, 0))
  {
    var a, b := Sighting("usgs", place, ReviewedSolution, 10, "a"), Sighting("emsc", place, PreliminarySolution, 10, "b");
    var inputs := [Input(a, 1, 0), Input(b, 2, 0)];
    JoinedIsReached(geo, a, b);
    EveryReachableStoreIsConsistent(geo, inputs);
    JoinedFallsBack(geo, Run(geo, EMPTY, inputs), a, b, Input(Sighting("usgs", place, RetractedSolution, 20, "c"), 3, 0));
  }

  lemma OlderJoins(a: Observation, b: Observation)
    requires a.id != b.id && Beats(b.Standing(), a.Standing()) && b.updatedAt < a.updatedAt
    ensures TakesIncidentBack(Alone(a), InsertCorrelatedSource(Alone(a), 1, b, 0), 1)
  {
    assert PreferredSolution(Alone(a), 1) == Success(a.solution);
    JoinedIncidentTimeFallsExactlyWhenOlderWins(Alone(a), 1, b, 0);
  }

  lemma AloneIsReached(geo: Geography, a: Observation)
    ensures Run(geo, EMPTY, [Input(a, 1, 0)]) == Alone(a)
  {
    FirstOpensAlone(geo, a);
    RunExtends(geo, [], Input(a, 1, 0), EMPTY);
    assert [] + [Input(a, 1, 0)] == [Input(a, 1, 0)];
  }

  /** The time of an incident falls when a preferred source with older data joins it. */
  lemma IncidentTimeFalls(geo: Geography, place: Place)
    requires Reflexive(geo, place)
    ensures var a, b := Sighting("emsc", place, ConfirmedSolution, 100, "a"), Sighting("usgs", place, ConfirmedSolution, 10, "b");
            var t := Run(geo, EMPTY, [Input(a, 1, 0)]);
            TakesIncidentBack(t, ApplyEvent(geo, t, Input(b, 2, 0)), 1)
  {
    var a, b := Sighting("emsc", place, ConfirmedSolution, 100, "a"), Sighting("usgs", place, ConfirmedSolution, 10, "b");
    AloneIsReached(geo, a);
    TwinTakesIncidentBack(geo, Alone(a), a, b);
  }

  lemma TwinTakesIncidentBack(geo: Geography, t: Tables, a: Observation, b: Observation)
    requires CorrelatedCatalogProvider(a.id.provider) && CorrelatedCatalogProvider(b.id.provider)
    requires a.id.provider != b.id.provider && a.fields == b.fields && a.fields.magnitude == Some(5.0)
    requires a.fields.depthKM == None && Reflexive(geo, a.fields.place)
    requires Beats(b.Standing(), a.Standing()) && b.updatedAt < a.updatedAt && t == Alone(a)
    ensures TakesIncidentBack(t, ApplyEvent(geo, t, Input(b, 2, 0)), 1)
  {
    SecondJoins(geo, a, b);
    OlderJoins(a, b);
  }
}
