/** First sightings that join one incident: whatever their order of arrival, the incident ends up the same. */
module Confluence {
  import opened Solutions
  import opened Correlation
  import opened IncidentTables
  import opened IncidentInvariants
  import opened IncidentHistory

  ghost function Arrivals(inputs: seq<Input>): seq<Observation> {
    seq(|inputs|, i requires 0 <= i < |inputs| => inputs[i].obs)
  }

  /** The input is the first sighting of its source, and goes to the incident. */
  ghost predicate FirstSightingOf(geo: Geography, t: Tables, input: Input, incident: Uuid) {
    && input.obs.id !in t.sources
    && ApplyEvent(geo, t, input).Success? && ApplyEvent(geo, t, input).value.change.incident == incident
  }

  /** The first input opens the incident, and each of the others is a first sighting that joins it. */
  ghost predicate Gathers(geo: Geography, t: Tables, inputs: seq<Input>, incident: Uuid) {
    && inputs != []
    && var before, input := Run(geo, t, inputs[..|inputs| - 1]), inputs[|inputs| - 1];
       && FirstSightingOf(geo, before, input, incident)
       && (if |inputs| == 1 then incident !in before.incidents else Gathers(geo, t, inputs[..|inputs| - 1], incident))
  }

  /** The observation whose source beats the sources of all others. */
  ghost predicate Champion(arrivals: seq<Observation>, best: Observation) {
    best in arrivals && forall other <- arrivals :: other == best || Beats(best.Standing(), other.Standing())
  }

  /** The incident's canonical row is the observation's. */
  predicate Canonical(e: Incident, obs: Observation) {
    && e.preferred == obs.id && e.updatedAt == obs.updatedAt && e.fields == obs.fields && e.links == obs.links
    && e.sourceVersion == 1 && e.channel == obs.channel
  }

  ghost function ClassesOf(arrivals: seq<Observation>): iset<SolutionClass> {
    iset obs | obs in arrivals :: obs.solution
  }

  ghost predicate SourcesAre(t: Tables, incident: Uuid, arrivals: seq<Observation>) {
    && (forall obs <- arrivals :: Supporter(t.sources, incident, obs.id) && t.sources[obs.id].solution == obs.solution)
    && (forall s <- t.sources :: t.sources[s].incident == incident ==> exists obs <- arrivals :: obs.id == s)
  }

  ghost predicate OnlyCatalogues(arrivals: seq<Observation>) {
    |arrivals| > 1 ==> forall obs <- arrivals :: CorrelatedCatalogProvider(obs.id.provider)
  }

  ghost predicate ChampionRules(e: Incident, arrivals: seq<Observation>) {
    exists best <- arrivals :: Champion(arrivals, best) && Canonical(e, best)
  }

  /** The incident is what its arrivals make of it, their order aside. */
  ghost predicate Gathered(t: Tables, incident: Uuid, arrivals: seq<Observation>) {
    && incident in t.incidents
    && SourcesAre(t, incident, arrivals)
    && OnlyCatalogues(arrivals)
    && ChampionRules(t.incidents[incident], arrivals)
    && t.incidents[incident].version == |arrivals|
  }

  lemma OpenedIsGathered(t: Tables, obs: Observation, minted: Uuid, now: int)
    requires Linked(t) && InsertIncident(t, obs, minted, now).Success?
    ensures var outcome := InsertIncident(t, obs, minted, now).value;
            outcome.change.incident == minted && minted !in t.incidents && Gathered(outcome.tables, minted, [obs])
  {
    var outcome := InsertIncident(t, obs, minted, now).value;
    assert obs in [obs] && Champion([obs], obs);
    assert Canonical(outcome.tables.incidents[minted], obs);
  }

  lemma CorrelatedNamesItsIncident(t: Tables, incident: Uuid, obs: Observation, now: int)
    requires InsertCorrelatedSource(t, incident, obs, now).Success?
    ensures incident in t.incidents && InsertCorrelatedSource(t, incident, obs, now).value.change.incident == incident
  {
  }

  lemma FirstIsGathered(geo: Geography, t: Tables, obs: Observation, minted: Uuid, now: int)
    requires Linked(t) && ApplyFirst(geo, t, obs, minted, now).Success?
    requires ApplyFirst(geo, t, obs, minted, now).value.change.incident !in t.incidents
    ensures var outcome := ApplyFirst(geo, t, obs, minted, now).value;
            Gathered(outcome.tables, outcome.change.incident, [obs])
  {
    var decision := CorrelationDecision(geo, t, obs);
    if decision.Some? {
      CorrelatedNamesItsIncident(t, decision.value.incident, obs, now);
    } else {
      OpenedIsGathered(t, obs, minted, now);
    }
  }

  lemma JoinedIncidentIsTheMatch(geo: Geography, t: Tables, obs: Observation, minted: Uuid, now: int)
    requires Linked(t) && ApplyFirst(geo, t, obs, minted, now).Success?
    requires ApplyFirst(geo, t, obs, minted, now).value.change.incident in t.incidents
    ensures var incident := ApplyFirst(geo, t, obs, minted, now).value.change.incident;
            && CorrelationDecision(geo, t, obs).Some? && CorrelationDecision(geo, t, obs).value.incident == incident
            && ApplyFirst(geo, t, obs, minted, now) == InsertCorrelatedSource(t, incident, obs, now)
  {
    var decision := CorrelationDecision(geo, t, obs);
    if decision.Some? {
      CorrelatedNamesItsIncident(t, decision.value.incident, obs, now);
    } else {
      OpenedIsGathered(t, obs, minted, now);
    }
  }

  lemma JoinKeepsSources(t: Tables, next: Tables, incident: Uuid, arrivals: seq<Observation>, obs: Observation)
    requires SourcesAre(t, incident, arrivals) && obs.id !in t.sources
    requires SourceStep(t, next, incident, obs.id) && next.sources[obs.id].solution == obs.solution
    ensures SourcesAre(next, incident, arrivals + [obs])
  {
    forall s | s in next.sources && next.sources[s].incident == incident
      ensures exists other <- arrivals + [obs] :: other.id == s
    {
      if s == obs.id {
        assert obs in arrivals + [obs];
      } else {
        var other :| other in arrivals && other.id == s;
        assert other in arrivals + [obs];
      }
    }
  }

  lemma EligibleHasCatalogue(geo: Geography, t: Tables, obs: Observation, incident: Uuid)
    requires Linked(t) && incident in t.incidents && Eligible(geo, t, obs, incident)
    ensures exists source :: Supporter(t.sources, incident, source) && CorrelatedCatalogProvider(source.provider)
  {
    AssociatedMeansNamed(t, incident);
    var source :| source in t.sources && Associated(t, source, incident) && CorrelatedCatalogProvider(source.provider);
    assert Supporter(t.sources, incident, source);
  }

  lemma DecidedIsACatalogue(geo: Geography, t: Tables, obs: Observation)
    requires CorrelationDecision(geo, t, obs).Some?
    ensures CorrelatedCatalogProvider(obs.id.provider)
  {
  }

  lemma CataloguesExtend(t: Tables, incident: Uuid, arrivals: seq<Observation>, obs: Observation)
    requires SourcesAre(t, incident, arrivals) && OnlyCatalogues(arrivals) && CorrelatedCatalogProvider(obs.id.provider)
    requires exists source :: Supporter(t.sources, incident, source) && CorrelatedCatalogProvider(source.provider)
    ensures OnlyCatalogues(arrivals + [obs])
  {
    var source :| Supporter(t.sources, incident, source) && CorrelatedCatalogProvider(source.provider);
    var known :| known in arrivals && known.id == source;
    if |arrivals| == 1 {
      assert arrivals == [known];
    }
  }

  lemma JoinersAreCatalogues(geo: Geography, t: Tables, incident: Uuid, arrivals: seq<Observation>, obs: Observation)
    requires Linked(t) && SourcesAre(t, incident, arrivals) && OnlyCatalogues(arrivals)
    requires CorrelationDecision(geo, t, obs).Some? && CorrelationDecision(geo, t, obs).value.incident == incident
    ensures OnlyCatalogues(arrivals + [obs])
    ensures forall other <- arrivals :: other.id.provider != obs.id.provider
  {
    MatchIsEligible(geo, t, obs);
    DecidedIsACatalogue(geo, t, obs);
    EligibleHasCatalogue(geo, t, obs, incident);
    CataloguesExtend(t, incident, arrivals, obs);
    forall other | other in arrivals ensures other.id.provider != obs.id.provider {
      assert Supporter(t.sources, incident, other.id);
    }
  }

  lemma JoinKeepsChampion(arrivals: seq<Observation>, best: Observation, obs: Observation)
    requires Champion(arrivals, best) && OnlyCatalogues(arrivals + [obs]) && obs.id.provider != best.id.provider
    ensures Champion(arrivals + [obs], if Beats(obs.Standing(), best.Standing()) then obs else best)
  {
    assert obs in arrivals + [obs] && best in arrivals + [obs];
    forall other | other in arrivals && Beats(obs.Standing(), best.Standing()) ensures Beats(obs.Standing(), other.Standing()) {
      PreferenceIsStrictTotalOrder(obs.Standing(), best.Standing(), other.Standing());
    }
    PreferenceIsStrictTotalOrder(obs.Standing(), best.Standing(), obs.Standing());
  }

  lemma JoinCrowns(t: Tables, incident: Uuid, arrivals: seq<Observation>, obs: Observation, now: int)
    requires SourcesAre(t, incident, arrivals) && incident in t.incidents
    requires ChampionRules(t.incidents[incident], arrivals) && OnlyCatalogues(arrivals + [obs])
    requires forall other <- arrivals :: other.id.provider != obs.id.provider
    requires InsertCorrelatedSource(t, incident, obs, now).Success?
    ensures var next := InsertCorrelatedSource(t, incident, obs, now).value.tables;
            && incident in next.incidents && ChampionRules(next.incidents[incident], arrivals + [obs])
            && next.incidents[incident].version == t.incidents[incident].version + 1
            && obs.id in next.sources && next.sources[obs.id].solution == obs.solution
  {
    var best :| best in arrivals && Champion(arrivals, best) && Canonical(t.incidents[incident], best);
    JoinKeepsChampion(arrivals, best, obs);
    var champion := if Beats(obs.Standing(), best.Standing()) then obs else best;
    assert t.sources[best.id].solution == best.solution;
    assert Canonical(InsertCorrelatedSource(t, incident, obs, now).value.tables.incidents[incident], champion);
  }

  lemma JoinKeepsGathered(geo: Geography, t: Tables, input: Input, incident: Uuid, arrivals: seq<Observation>,
                          next: Tables, all: seq<Observation>)
    requires Consistent(t) && FirstSightingOf(geo, t, input, incident) && Gathered(t, incident, arrivals)
    requires next == Committed(geo, t, input) && all == arrivals + [input.obs]
    ensures Gathered(next, incident, all)
  {
    UnknownIsFirst(geo, t, input);
    JoinedIncidentIsTheMatch(geo, t, input.obs, input.minted, input.now);
    JoinersAreCatalogues(geo, t, incident, arrivals, input.obs);
    JoinCrowns(t, incident, arrivals, input.obs, input.now);
    ApplyEventKeepsConsistency(geo, t, input);
    JoinKeepsSources(t, ApplyEvent(geo, t, input).value.tables, incident, arrivals, input.obs);
  }

  lemma OneIsGathered(geo: Geography, t: Tables, input: Input, incident: Uuid, next: Tables, all: seq<Observation>)
    requires Consistent(t) && FirstSightingOf(geo, t, input, incident) && incident !in t.incidents
    requires next == Committed(geo, t, input) && all == [input.obs]
    ensures Gathered(next, incident, all)
  {
    UnknownIsFirst(geo, t, input);
    FirstIsGathered(geo, t, input.obs, input.minted, input.now);
  }

  lemma ArrivalsExtend(inputs: seq<Input>)
    requires inputs != []
    ensures Arrivals(inputs) == Arrivals(inputs[..|inputs| - 1]) + [inputs[|inputs| - 1].obs]
    ensures |inputs| == 1 ==> Arrivals(inputs) == [inputs[0].obs]
  {
  }

  /** The incident that a series of first sightings gathers is what they make of it as a set. */
  lemma {:induction false} GatheringDependsOnArrivals(geo: Geography, t: Tables, inputs: seq<Input>, incident: Uuid)
    requires Consistent(t) && Gathers(geo, t, inputs, incident)
    ensures Gathered(Run(geo, t, inputs), incident, Arrivals(inputs))
  {
    var earlier, input := inputs[..|inputs| - 1], inputs[|inputs| - 1];
    RunKeepsConsistency(geo, t, earlier);
    ArrivalsExtend(inputs);
    if |inputs| == 1 {
      OneIsGathered(geo, Run(geo, t, earlier), input, incident, Run(geo, t, inputs), Arrivals(inputs));
    } else {
      GatheringDependsOnArrivals(geo, t, earlier, incident);
      JoinKeepsGathered(geo, Run(geo, t, earlier), input, incident, Arrivals(earlier), Run(geo, t, inputs), Arrivals(inputs));
    }
  }

  lemma EvidenceIsTheClasses(t: Tables, incident: Uuid, arrivals: seq<Observation>)
    requires Linked(t) && SourcesAre(t, incident, arrivals)
    ensures EvidenceOf(t, incident) == ClassesOf(arrivals)
  {
    AssociatedMeansNamed(t, incident);
    forall solution ensures solution in EvidenceOf(t, incident) <==> solution in ClassesOf(arrivals) {
      if solution in EvidenceOf(t, incident) {
        var s :| Associated(t, s, incident) && t.sources[s].solution == solution;
        var obs :| obs in arrivals && obs.id == s;
      }
      if solution in ClassesOf(arrivals) {
        var obs :| obs in arrivals && obs.solution == solution;
        assert Associated(t, obs.id, incident);
      }
    }
  }

  lemma ChampionIsUnique(a: seq<Observation>, b: seq<Observation>, x: Observation, y: Observation)
    requires multiset(a) == multiset(b) && Champion(a, x) && Champion(b, y)
    ensures x == y
  {
    assert y in multiset(a) && x in multiset(b);
    PreferenceIsStrictTotalOrder(x.Standing(), y.Standing(), x.Standing());
  }

  lemma SameLength(a: seq<Observation>, b: seq<Observation>)
    requires multiset(a) == multiset(b)
    ensures |a| == |b|
  {
    assert |multiset(a)| == |a| && |multiset(b)| == |b|;
  }

  /** The same first sightings give the same canonical row, lifecycle and version in every order of arrival, in whatever
      stores they arrive. */
  lemma ArrivalOrderDoesNotMatter(geo: Geography, t: Tables, a: seq<Input>, x: Uuid, u: Tables, b: seq<Input>, y: Uuid)
    requires Consistent(t) && Gathers(geo, t, a, x) && Consistent(u) && Gathers(geo, u, b, y)
    requires multiset(Arrivals(a)) == multiset(Arrivals(b))
    ensures x in Run(geo, t, a).incidents && y in Run(geo, u, b).incidents
    ensures var e, f := Run(geo, t, a).incidents[x], Run(geo, u, b).incidents[y];
            && f == e.(firstSeen := f.firstSeen, lastSeen := f.lastSeen)
            && e.version == |a| && e.lifecycle == Resolve(ClassesOf(Arrivals(a)))
  {
    GatheringDependsOnArrivals(geo, t, a, x);
    GatheringDependsOnArrivals(geo, u, b, y);
    RunKeepsConsistency(geo, t, a);
    RunKeepsConsistency(geo, u, b);
    EvidenceIsTheClasses(Run(geo, t, a), x, Arrivals(a));
    EvidenceIsTheClasses(Run(geo, u, b), y, Arrivals(b));
    SameClasses(Arrivals(a), Arrivals(b));
    SameLength(Arrivals(a), Arrivals(b));
    var e, f := Run(geo, t, a).incidents[x], Run(geo, u, b).incidents[y];
    var best :| best in Arrivals(a) && Champion(Arrivals(a), best) && Canonical(e, best);
    var other :| other in Arrivals(b) && Champion(Arrivals(b), other) && Canonical(f, other);
    ChampionIsUnique(Arrivals(a), Arrivals(b), best, other);
  }

  lemma SameClasses(a: seq<Observation>, b: seq<Observation>)
    requires multiset(a) == multiset(b)
    ensures ClassesOf(a) == ClassesOf(b)
  {
    forall obs ensures obs in a <==> obs in b {
      assert obs in a <==> obs in multiset(a);
      assert obs in b <==> obs in multiset(b);
    }
  }
}
