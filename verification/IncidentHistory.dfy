/** Whole ingestion runs: consistency of every reachable store, replays that change nothing, source classes that only
    climb, and exactly when an incident's lifecycle falls. */
module IncidentHistory {
  import opened Wrappers
  import opened Solutions
  import opened Correlation
  import opened IncidentTables
  import opened IncidentInvariants

  // ----- Runs -----

  /** A transaction that fails is rolled back. */
  ghost function Committed(geo: Geography, t: Tables, input: Input): Tables {
    match ApplyEvent(geo, t, input)
    case Success(outcome) => outcome.tables
    case Failure(_) => t
  }

  ghost function Run(geo: Geography, t: Tables, inputs: seq<Input>): Tables {
    if inputs == [] then t
    else Committed(geo, Run(geo, t, inputs[..|inputs| - 1]), inputs[|inputs| - 1])
  }

  lemma CommittedKeepsConsistency(geo: Geography, t: Tables, input: Input)
    requires Consistent(t)
    ensures Consistent(Committed(geo, t, input))
  {
    if ApplyEvent(geo, t, input).Success? {
      ApplyEventKeepsConsistency(geo, t, input);
    }
  }

  lemma {:induction false} RunKeepsConsistency(geo: Geography, t: Tables, inputs: seq<Input>)
    requires Consistent(t)
    ensures Consistent(Run(geo, t, inputs))
  {
    if inputs != [] {
      RunKeepsConsistency(geo, t, inputs[..|inputs| - 1]);
      CommittedKeepsConsistency(geo, Run(geo, t, inputs[..|inputs| - 1]), inputs[|inputs| - 1]);
    }
  }

  /** Every store that ingestion can reach is consistent. */
  lemma EveryReachableStoreIsConsistent(geo: Geography, inputs: seq<Input>)
    ensures Consistent(Run(geo, EMPTY, inputs))
  {
    RunKeepsConsistency(geo, EMPTY, inputs);
  }

  // ----- What a step can only let grow -----

  /** Sources stay with their incidents and climb; incidents stay and their versions never fall. */
  ghost predicate Grows(t: Tables, next: Tables) {
    && (forall s <- t.sources ::
          && s in next.sources
          && next.sources[s].incident == t.sources[s].incident
          && Rung(t.sources[s].solution) <= Rung(next.sources[s].solution))
    && (forall incident <- t.incidents ::
          incident in next.incidents && t.incidents[incident].version <= next.incidents[incident].version)
    && (forall key <- t.observations :: key in next.observations && next.observations[key] == t.observations[key])
    && t.associations <= next.associations
    && t.revisions <= next.revisions
  }

  lemma StepGrows(t: Tables, next: Tables, incident: Uuid, id: Identity)
    requires SourceStep(t, next, incident, id) && IncidentStep(t, next, incident, id)
    ensures Grows(t, next)
  {
  }

  lemma CommittedGrows(geo: Geography, t: Tables, input: Input)
    requires Consistent(t)
    ensures Grows(t, Committed(geo, t, input))
  {
    if ApplyEvent(geo, t, input).Success? {
      ApplyEventKeepsConsistency(geo, t, input);
      var outcome := ApplyEvent(geo, t, input).value;
      StepGrows(t, outcome.tables, outcome.change.incident, input.obs.id);
    }
  }

  lemma {:induction false} RunGrows(geo: Geography, t: Tables, inputs: seq<Input>)
    requires Consistent(t)
    ensures Grows(t, Run(geo, t, inputs))
  {
    if inputs != [] {
      var before := Run(geo, t, inputs[..|inputs| - 1]);
      RunGrows(geo, t, inputs[..|inputs| - 1]);
      RunKeepsConsistency(geo, t, inputs[..|inputs| - 1]);
      CommittedGrows(geo, before, inputs[|inputs| - 1]);
    }
  }

  /** Once a provider retracts a solution, no later run of observations brings it back. */
  lemma RetractionIsFinal(geo: Geography, t: Tables, inputs: seq<Input>, id: Identity)
    requires Consistent(t) && id in t.sources && t.sources[id].solution == RetractedSolution
    ensures id in Run(geo, t, inputs).sources && Run(geo, t, inputs).sources[id].solution == RetractedSolution
  {
    RunGrows(geo, t, inputs);
    GrowthKeepsRetraction(t, Run(geo, t, inputs), id);
  }

  lemma GrowthKeepsRetraction(t: Tables, next: Tables, id: Identity)
    requires Grows(t, next) && id in t.sources && t.sources[id].solution == RetractedSolution
    ensures id in next.sources && next.sources[id].solution == RetractedSolution
  {
  }

  // ----- Exactly when a lifecycle falls -----

  type Sources = map<Identity, SourceRecord>

  predicate Supporter(sources: Sources, incident: Uuid, id: Identity) {
    id in sources && sources[id].incident == incident
  }

  /** Of all sources of its incident, `id` is the only one of its rank, and it is not retracted. */
  ghost predicate SoleBest(sources: Sources, incident: Uuid, id: Identity) {
    && Supporter(sources, incident, id) && sources[id].solution != RetractedSolution
    && forall other :: Supporter(sources, incident, other) && other != id ==>
         SolutionRank(sources[other].solution) < SolutionRank(sources[id].solution)
  }

  ghost predicate AllOthersRetracted(sources: Sources, incident: Uuid, id: Identity) {
    forall other :: Supporter(sources, incident, other) && other != id ==> sources[other].solution == RetractedSolution
  }

  /** The sources of an incident hold its lifecycle up: none ranks above it, and one reaches it. */
  ghost predicate Upheld(sources: Sources, incident: Uuid, lifecycle: Lifecycle) {
    && (forall s :: Supporter(sources, incident, s) ==> SolutionRank(sources[s].solution) <= LifecycleRank(lifecycle))
    && (lifecycle != Retracted ==>
          exists s :: Supporter(sources, incident, s) && SolutionRank(sources[s].solution) == LifecycleRank(lifecycle))
  }

  lemma LifecycleIsUpheld(t: Tables, incident: Uuid)
    requires Linked(t) && incident in t.incidents
    requires t.incidents[incident].lifecycle == Resolve(EvidenceOf(t, incident))
    ensures Upheld(t.sources, incident, t.incidents[incident].lifecycle)
  {
    AssociatedMeansNamed(t, incident);
    var evidence := EvidenceOf(t, incident);
    assert Supports(evidence, t.incidents[incident].lifecycle);
    forall s | Supporter(t.sources, incident, s)
      ensures SolutionRank(t.sources[s].solution) <= LifecycleRank(t.incidents[incident].lifecycle)
    {
      assert Associated(t, s, incident);
      assert t.sources[s].solution in evidence;
    }
  }

  lemma FallCriterion(sources: Sources, next: Sources, incident: Uuid, id: Identity, before: Lifecycle, after: Lifecycle)
    requires Upheld(sources, incident, before) && Upheld(next, incident, after)
    requires id in next && next[id].incident == incident && next == sources[id := next[id]]
    requires id in sources ==> sources[id].incident == incident && Rung(sources[id].solution) <= Rung(next[id].solution)
    ensures LifecycleRank(after) < LifecycleRank(before) <==>
            SoleBest(sources, incident, id) && next[id].solution == RetractedSolution
    ensures LifecycleRank(after) < LifecycleRank(before) ==>
            (after == Retracted <==> AllOthersRetracted(sources, incident, id))
  {
    assert forall other :: other != id ==> (Supporter(next, incident, other) <==> Supporter(sources, incident, other));
    assert forall other :: Supporter(sources, incident, other) && other != id ==> next[other] == sources[other];
    assert Supporter(next, incident, id);
  }

  /** A lifecycle falls if and only if the step retracts the one source that held it up; it falls all the way to
      retracted if and only if every other source is retracted too. */
  ghost predicate FallsExactlyWhenSoleBestRetracts(t: Tables, next: Tables, incident: Uuid, id: Identity) {
    && incident in t.incidents && incident in next.incidents && id in next.sources
    && var before, after := t.incidents[incident].lifecycle, next.incidents[incident].lifecycle;
       && (LifecycleRank(after) < LifecycleRank(before) <==>
           SoleBest(t.sources, incident, id) && next.sources[id].solution == RetractedSolution)
       && (LifecycleRank(after) < LifecycleRank(before) ==>
           (after == Retracted <==> AllOthersRetracted(t.sources, incident, id)))
  }

  lemma StepFallsExactlyWhenSoleBestRetracts(t: Tables, next: Tables, incident: Uuid, id: Identity)
    requires SourceStep(t, next, incident, id) && Linked(t) && Linked(next)
    requires incident in t.incidents && t.incidents[incident].lifecycle == Resolve(EvidenceOf(t, incident))
    requires incident in next.incidents && next.incidents[incident].lifecycle == Resolve(EvidenceOf(next, incident))
    ensures FallsExactlyWhenSoleBestRetracts(t, next, incident, id)
  {
    LifecycleIsUpheld(t, incident);
    LifecycleIsUpheld(next, incident);
    FallCriterion(t.sources, next.sources, incident, id, t.incidents[incident].lifecycle, next.incidents[incident].lifecycle);
  }

  lemma LifecycleFallsExactlyWhenSoleBestRetracts(geo: Geography, t: Tables, input: Input)
    requires Consistent(t) && ApplyEvent(geo, t, input).Success?
    requires ApplyEvent(geo, t, input).value.change.incident in t.incidents
    ensures var outcome := ApplyEvent(geo, t, input).value;
            FallsExactlyWhenSoleBestRetracts(t, outcome.tables, outcome.change.incident, input.obs.id)
  {
    ApplyEventKeepsConsistency(geo, t, input);
    var outcome := ApplyEvent(geo, t, input).value;
    StepFallsExactlyWhenSoleBestRetracts(t, outcome.tables, outcome.change.incident, input.obs.id);
  }

  // ----- Replays -----

  /** The store already reflects all that `obs` can contribute. */
  ghost predicate Absorbed(t: Tables, obs: Observation) {
    && Known(t, obs.id)
    && KeyOf(obs) in t.observations
    && var stored := t.sources[obs.id];
       var existing := t.incidents[stored.incident];
       if IsStale(existing, obs) || IsRepeated(existing, stored, obs) then
         StrongerSolution(stored.solution, obs.solution) == stored.solution
       else
         IsWeaker(stored, obs)
         || (&& stored.solution == obs.solution
             && existing.preferred != obs.id && existing.preferred in t.sources
             && !PreferCanonicalSource(existing.preferred.provider, t.sources[existing.preferred].solution,
                                       obs.id.provider, obs.solution))
  }

  /** Equal but for the time an incident was last seen. */
  ghost predicate SameIncidents(t: Tables, next: Tables) {
    && next.incidents.Keys == t.incidents.Keys
    && forall incident <- t.incidents ::
         next.incidents[incident] == t.incidents[incident].(lastSeen := next.incidents[incident].lastSeen)
  }

  ghost predicate NothingNew(t: Tables, next: Tables) {
    && SameIncidents(t, next)
    && next.sources.Keys == t.sources.Keys
    && next.associations == t.associations && next.revisions == t.revisions && next.observations == t.observations
  }

  lemma SameClassSameEvidence(t: Tables, next: Tables, incident: Uuid, id: Identity)
    requires id in t.sources && id in next.sources && next.sources == t.sources[id := next.sources[id]]
    requires next.sources[id].solution == t.sources[id].solution && next.associations == t.associations
    ensures EvidenceOf(next, incident) == EvidenceOf(t, incident)
  {
    assert forall s :: Associated(next, s, incident) <==> Associated(t, s, incident);
  }

  lemma TouchAbsorbs(t: Tables, obs: Observation, record: SourceRecord, now: int, kind: ChangeKind)
    requires obs.id in t.sources && Ready(t, record.incident, obs.id) && kind != Inserted
    requires var stored := t.sources[obs.id];
             && record.incident == stored.incident && record.updatedAt == stored.updatedAt && record.fields == stored.fields
             && record.version == stored.version && Rung(stored.solution) <= Rung(record.solution)
    requires var existing := t.incidents[record.incident];
             if IsStale(existing, obs) || IsRepeated(existing, record, obs) then
               StrongerSolution(record.solution, obs.solution) == record.solution
             else IsWeaker(record, obs)
    ensures Touch(t, obs, record, now, kind).Success? && Absorbed(Touch(t, obs, record, now, kind).value.tables, obs)
  {
    TouchIsStep(t, obs, record, now, kind);
  }

  lemma MaterialAbsorbs(t: Tables, obs: Observation, now: int)
    requires obs.id in t.sources && Ready(t, t.sources[obs.id].incident, obs.id) && !IsWeaker(t.sources[obs.id], obs)
    requires !IsStale(t.incidents[t.sources[obs.id].incident], obs)
    ensures var result := ApplyMaterial(t, t.sources[obs.id], obs, now);
            result.Success? && Absorbed(result.value.tables, obs)
  {
    MaterialIsStep(t, obs, now);
  }

  lemma KnownAbsorbs(t: Tables, obs: Observation, now: int)
    requires obs.id in t.sources && Ready(t, t.sources[obs.id].incident, obs.id)
    ensures ApplyKnown(t, obs, now).Success?
    ensures Absorbed(ApplyKnown(t, obs, now).value.tables, obs)
  {
    var stored := t.sources[obs.id];
    var existing := t.incidents[stored.incident];
    var promoted := StrongerSolution(stored.solution, obs.solution);
    if IsStale(existing, obs) {
      TouchAbsorbs(t, obs, Seen(stored, obs, now).(solution := promoted), now, Stale);
    } else if IsRepeated(existing, stored, obs) {
      var channel := if promoted != obs.solution then stored.channel else obs.channel;
      TouchAbsorbs(t, obs, Seen(stored, obs, now).(channel := channel, solution := promoted), now, Unchanged);
    } else if IsWeaker(stored, obs) {
      TouchAbsorbs(t, obs, Seen(stored, obs, now), now, Unchanged);
    } else {
      MaterialAbsorbs(t, obs, now);
    }
  }

  /** A store that holds a new sighting of the class it came with has nothing left to learn from it. */
  lemma SightedIsAbsorbed(next: Tables, obs: Observation)
    requires Known(next, obs.id) && KeyOf(obs) in next.observations
    requires next.sources[obs.id].solution == obs.solution && next.sources[obs.id].payload == obs.payload
    requires var e := next.incidents[next.sources[obs.id].incident];
             if e.preferred == obs.id then e.updatedAt == obs.updatedAt
             else e.preferred in next.sources
                  && !PreferCanonicalSource(e.preferred.provider, next.sources[e.preferred].solution, obs.id.provider, obs.solution)
    ensures Absorbed(next, obs)
  {
  }

  lemma CorrelatedAbsorbs(t: Tables, incident: Uuid, obs: Observation, now: int)
    requires Linked(t) && obs.id !in t.sources && Ready(t, incident, obs.id)
    requires forall other <- t.sources :: t.sources[other].incident == incident ==> other.provider != obs.id.provider
    ensures InsertCorrelatedSource(t, incident, obs, now).Success?
    ensures Absorbed(InsertCorrelatedSource(t, incident, obs, now).value.tables, obs)
  {
    CorrelatedIsStep(t, incident, obs, now);
    SightedIsAbsorbed(InsertCorrelatedSource(t, incident, obs, now).value.tables, obs);
  }

  lemma NewIncidentAbsorbs(t: Tables, obs: Observation, minted: Uuid, now: int)
    requires InsertIncident(t, obs, minted, now).Success?
    ensures Absorbed(InsertIncident(t, obs, minted, now).value.tables, obs)
  {
  }

  lemma ApplyEventAbsorbs(geo: Geography, t: Tables, input: Input)
    requires Consistent(t) && ApplyEvent(geo, t, input).Success?
    ensures Absorbed(ApplyEvent(geo, t, input).value.tables, input.obs)
  {
    var obs := input.obs;
    if obs.id in t.sources {
      KnownIsFound(geo, t, input);
      ConsistentIsReady(t, t.sources[obs.id].incident, obs.id);
      KnownAbsorbs(t, obs, input.now);
    } else if CorrelationDecision(geo, t, obs).Some? {
      UnknownIsFirst(geo, t, input);
      MatchIsEligible(geo, t, obs);
      ConsistentIsReady(t, CorrelationDecision(geo, t, obs).value.incident, obs.id);
      CorrelatedAbsorbs(t, CorrelationDecision(geo, t, obs).value.incident, obs, input.now);
    } else {
      UnknownIsFirst(geo, t, input);
      NewIncidentAbsorbs(t, obs, input.minted, input.now);
    }
  }

  /** A rewrite of a known source that keeps its class, when the observation is on record and the lifecycle settled,
      only moves the time the incident was last seen. */
  lemma SameClassIsQuiet(t: Tables, record: SourceRecord, id: Identity, now: int, kind: ChangeKind)
    requires id in t.sources && record.incident == t.sources[id].incident && record.incident in t.incidents
    requires record.solution == t.sources[id].solution
    requires t.incidents[record.incident].lifecycle == Resolve(EvidenceOf(t, record.incident))
    ensures var existing := t.incidents[record.incident];
            ApplyLifecycleChange(SetSource(t, id, record), record.incident, existing, id, now, kind)
            == Success(Outcome(SetSource(t, id, record).(incidents := t.incidents[record.incident := existing.(lastSeen := now)]),
                               Change(kind, record.incident, Some(existing), existing)))
  {
    SameClassSameEvidence(t, SetSource(t, id, record), record.incident, id);
  }

  /** A result that adds nothing to the tables. */
  ghost predicate AddsNothing(t: Tables, result: Applied) {
    && result.Success?
    && NothingNew(t, result.value.tables)
    && result.value.change.kind != Inserted && result.value.change.incident in t.incidents
    && result.value.change.current.version == t.incidents[result.value.change.incident].version
  }

  lemma QuietAddsNothing(t: Tables, record: SourceRecord, id: Identity, now: int, kind: ChangeKind)
    requires id in t.sources && record.incident == t.sources[id].incident && record.incident in t.incidents
    requires record.solution == t.sources[id].solution && kind != Inserted
    requires t.incidents[record.incident].lifecycle == Resolve(EvidenceOf(t, record.incident))
    ensures AddsNothing(t, ApplyLifecycleChange(SetSource(t, id, record), record.incident, t.incidents[record.incident], id, now, kind))
  {
    SameClassIsQuiet(t, record, id, now, kind);
  }

  lemma RewriteAddsNothing(t: Tables, obs: Observation, now: int)
    requires obs.id in t.sources && t.sources[obs.id].incident in t.incidents && KeyOf(obs) in t.observations
    requires t.incidents[t.sources[obs.id].incident].lifecycle == Resolve(EvidenceOf(t, t.sources[obs.id].incident))
    requires var stored := t.sources[obs.id];
             var preferred := t.incidents[stored.incident].preferred;
             && stored.solution == obs.solution && preferred != obs.id && preferred in t.sources
             && t.sources[preferred].incident == stored.incident
             && !PreferCanonicalSource(preferred.provider, t.sources[preferred].solution, obs.id.provider, obs.solution)
    ensures AddsNothing(t, ApplyMaterial(t, t.sources[obs.id], obs, now))
  {
    var stored := t.sources[obs.id];
    var written := RewriteSource(t, stored, obs, now);
    assert written == SetSource(t, obs.id, written.sources[obs.id]);
    QuietAddsNothing(t, written.sources[obs.id], obs.id, now, Updated);
  }

  lemma TouchAddsNothing(t: Tables, obs: Observation, record: SourceRecord, now: int, kind: ChangeKind)
    requires obs.id in t.sources && record.incident == t.sources[obs.id].incident && record.incident in t.incidents
    requires record.solution == t.sources[obs.id].solution && kind != Inserted && KeyOf(obs) in t.observations
    requires t.incidents[record.incident].lifecycle == Resolve(EvidenceOf(t, record.incident))
    ensures AddsNothing(t, Touch(t, obs, record, now, kind))
  {
    assert InsertObservation(t, obs, record.version, now) == t;
    QuietAddsNothing(t, record, obs.id, now, kind);
  }

  lemma AbsorbedAddsNothing(t: Tables, obs: Observation, now: int)
    requires Absorbed(t, obs) && Ready(t, t.sources[obs.id].incident, obs.id)
    requires t.incidents[t.sources[obs.id].incident].lifecycle == Resolve(EvidenceOf(t, t.sources[obs.id].incident))
    ensures AddsNothing(t, ApplyKnown(t, obs, now))
  {
    var stored := t.sources[obs.id];
    var existing := t.incidents[stored.incident];
    if IsStale(existing, obs) {
      TouchAddsNothing(t, obs, Seen(stored, obs, now), now, Stale);
    } else if IsRepeated(existing, stored, obs) {
      var channel := if stored.solution != obs.solution then stored.channel else obs.channel;
      TouchAddsNothing(t, obs, Seen(stored, obs, now).(channel := channel), now, Unchanged);
    } else if IsWeaker(stored, obs) {
      TouchAddsNothing(t, obs, Seen(stored, obs, now), now, Unchanged);
    } else {
      RewriteAddsNothing(t, obs, now);
    }
  }

  /** Replaying an observation right after it was applied, through whichever branch, changes no version, lifecycle or
      canonical field and adds no row, at any time and however often. */
  lemma ReplayChangesNothing(geo: Geography, t: Tables, input: Input, again: Input)
    requires Consistent(t) && ApplyEvent(geo, t, input).Success? && again.obs == input.obs
    ensures var next := ApplyEvent(geo, t, input).value.tables;
            && ApplyEvent(geo, next, again).Success?
            && AddsNothing(next, ApplyEvent(geo, next, again))
            && Absorbed(ApplyEvent(geo, next, again).value.tables, input.obs)
  {
    ApplyEventAbsorbs(geo, t, input);
    ApplyEventKeepsConsistency(geo, t, input);
    var next := ApplyEvent(geo, t, input).value.tables;
    KnownIsFound(geo, next, again);
    ConsistentIsReady(next, next.sources[input.obs.id].incident, input.obs.id);
    AbsorbedAddsNothing(next, input.obs, again.now);
    ApplyEventAbsorbs(geo, next, again);
  }
}
