/** The incident store as the program keeps it: tables updated in place, statement by statement
    (internal/repository/postgres/repository.go). Every method is proved against a function of IncidentTables. */
module Repositories {
  import opened Wrappers
  import opened Solutions
  import opened Correlation
  import opened IncidentTables

  /** What a helper reports and leaves behind is what the specification says; after an error the tables do not matter,
      since the transaction is rolled back. */
  ghost predicate Follows(specified: Applied, reported: Result<Change, Error>, tables: Tables) {
    match specified
    case Success(outcome) => reported == Success(outcome.change) && tables == outcome.tables
    case Failure(error) => reported == Failure(error)
  }

  function TimeFrom(t: Tables, at: int, incident: Uuid): (time: nat)
    requires incident in t.incidents
    ensures time == t.incidents[incident].fields.occurredAt - at || time == at - t.incidents[incident].fields.occurredAt
  {
    var delta := t.incidents[incident].fields.occurredAt - at;
    if delta < 0 then -delta else delta
  }

  /** The order of candidates: by distance in time, then by identity. */
  predicate Nearer(t: Tables, at: int, a: Uuid, b: Uuid)
    requires a in t.incidents && b in t.incidents
  {
    TimeFrom(t, at, a) < TimeFrom(t, at, b) || (TimeFrom(t, at, a) == TimeFrom(t, at, b) && a <= b)
  }

  /** The page lists the candidates that were read. */
  ghost predicate CandidatesOf(t: Tables, page: seq<Candidate>, seen: set<Uuid>)
    requires seen <= t.incidents.Keys
  {
    && DistinctIncidents(page)
    && (forall c <- page :: c.incident in seen && c == CandidateFor(t, c.incident))
    && (forall i <- seen :: CandidateFor(t, i) in page)
  }

  ghost predicate InCandidateOrder(t: Tables, at: int, page: seq<Candidate>)
    requires forall c <- page :: c.incident in t.incidents
  {
    forall i, j :: 0 <= i < j < |page| ==> Nearer(t, at, page[i].incident, page[j].incident)
  }

  ghost predicate AreNearer(t: Tables, at: int, page: seq<Candidate>, pending: set<Uuid>)
    requires (forall c <- page :: c.incident in t.incidents) && pending <= t.incidents.Keys
  {
    forall c <- page, i <- pending :: Nearer(t, at, c.incident, i)
  }

  lemma PageGrows(t: Tables, page: seq<Candidate>, seen: set<Uuid>, incident: Uuid)
    requires seen <= t.incidents.Keys && CandidatesOf(t, page, seen) && incident in t.incidents && incident !in seen
    ensures CandidatesOf(t, page + [CandidateFor(t, incident)], seen + {incident})
  {
  }

  lemma NearestComesNext(t: Tables, at: int, page: seq<Candidate>, pending: set<Uuid>, nearest: Uuid)
    requires (forall c <- page :: c.incident in t.incidents) && pending <= t.incidents.Keys
    requires InCandidateOrder(t, at, page) && AreNearer(t, at, page, pending)
    requires nearest in pending && forall i <- pending :: Nearer(t, at, nearest, i)
    ensures InCandidateOrder(t, at, page + [CandidateFor(t, nearest)])
    ensures AreNearer(t, at, page + [CandidateFor(t, nearest)], pending - {nearest})
  {
  }

  lemma PageHoldsExactly(t: Tables, page: seq<Candidate>, seen: set<Uuid>)
    requires seen <= t.incidents.Keys && CandidatesOf(t, page, seen)
    ensures CandidateSet(page) == set i | i in seen :: CandidateFor(t, i)
  {
  }

  /** The page lists the nearest of the selected candidates; the pending ones have not been read. */
  ghost predicate IsPage(t: Tables, at: int, page: seq<Candidate>, seen: set<Uuid>, pending: set<Uuid>, selected: set<Uuid>) {
    && seen !! pending && seen + pending == selected && selected <= t.incidents.Keys && |page| == |seen| <= CANDIDATE_LIMIT
    && CandidatesOf(t, page, seen) && InCandidateOrder(t, at, page) && AreNearer(t, at, page, pending)
  }

  lemma PageGoesOn(t: Tables, at: int, page: seq<Candidate>, seen: set<Uuid>, pending: set<Uuid>, selected: set<Uuid>, nearest: Uuid)
    requires IsPage(t, at, page, seen, pending, selected) && |page| < CANDIDATE_LIMIT
    requires nearest in pending && forall i <- pending :: Nearer(t, at, nearest, i)
    ensures IsPage(t, at, page + [CandidateFor(t, nearest)], seen + {nearest}, pending - {nearest}, selected)
  {
    PageGrows(t, page, seen, nearest);
    NearestComesNext(t, at, page, pending, nearest);
  }

  lemma PageIsWhole(t: Tables, at: int, page: seq<Candidate>, seen: set<Uuid>, pending: set<Uuid>, selected: set<Uuid>)
    requires IsPage(t, at, page, seen, pending, selected) && (pending == {} || |page| == CANDIDATE_LIMIT)
    ensures DistinctIncidents(page) && InCandidateOrder(t, at, page)
    ensures forall c <- page :: c.incident in selected && c == CandidateFor(t, c.incident)
    ensures |selected| >= CANDIDATE_LIMIT ==> |page| == CANDIDATE_LIMIT
    ensures |selected| < CANDIDATE_LIMIT ==>
              |page| == |selected| && CandidateSet(page) == set i | i in selected :: CandidateFor(t, i)
    ensures forall i <- selected :: CandidateFor(t, i) in page || forall c <- page :: Nearer(t, at, c.incident, i)
  {
    assert |selected| == |seen| + |pending|;
    if |page| < CANDIDATE_LIMIT {
      assert seen == selected;
      PageHoldsExactly(t, page, seen);
    }
  }

  /** Each candidate of the page is at least as near in time as those behind it and those left out, and of the smaller identity
      where they are equally near. */
  ghost predicate HoldsTheNearest(t: Tables, at: int, page: seq<Candidate>, selected: set<Uuid>)
    requires selected <= t.incidents.Keys && forall c <- page :: c.incident in t.incidents
  {
    && (forall i, j :: 0 <= i < j < |page| ==>
          TimeFrom(t, at, page[i].incident) < TimeFrom(t, at, page[j].incident)
          || (TimeFrom(t, at, page[i].incident) == TimeFrom(t, at, page[j].incident) && page[i].incident <= page[j].incident))
    && (forall i, k | i in selected && CandidateFor(t, i) !in page && 0 <= k < |page| ::
          TimeFrom(t, at, page[k].incident) < TimeFrom(t, at, i)
          || (TimeFrom(t, at, page[k].incident) == TimeFrom(t, at, i) && page[k].incident <= i))
  }

  lemma NearestAreHeld(t: Tables, at: int, page: seq<Candidate>, selected: set<Uuid>)
    requires selected <= t.incidents.Keys && (forall c <- page :: c.incident in t.incidents) && InCandidateOrder(t, at, page)
    requires forall i <- selected :: CandidateFor(t, i) in page || forall c <- page :: Nearer(t, at, c.incident, i)
    ensures HoldsTheNearest(t, at, page, selected)
  {
    forall i, j | 0 <= i < j < |page|
      ensures TimeFrom(t, at, page[i].incident) < TimeFrom(t, at, page[j].incident)
              || (TimeFrom(t, at, page[i].incident) == TimeFrom(t, at, page[j].incident) && page[i].incident <= page[j].incident)
    {
      assert Nearer(t, at, page[i].incident, page[j].incident);
    }
    forall i, k | i in selected && CandidateFor(t, i) !in page && 0 <= k < |page|
      ensures TimeFrom(t, at, page[k].incident) < TimeFrom(t, at, i)
              || (TimeFrom(t, at, page[k].incident) == TimeFrom(t, at, i) && page[k].incident <= i)
    {
      assert page[k] in page && Nearer(t, at, page[k].incident, i);
    }
  }

  method Nearest(t: Tables, at: int, pending: set<Uuid>) returns (nearest: Uuid)
    requires pending != {} && pending <= t.incidents.Keys
    ensures nearest in pending && forall other <- pending :: Nearer(t, at, nearest, other)
  {
    nearest :| nearest in pending;
    var rest := pending - {nearest};
    while rest != {}
      invariant nearest in pending && rest <= pending
      invariant forall other <- pending :: other in rest || Nearer(t, at, nearest, other)
      decreases |rest|
    {
      var other :| other in rest;
      if !Nearer(t, at, nearest, other) {
        nearest := other;
      }
      rest := rest - {other};
    }
  }

  /** Reads the `CANDIDATE_LIMIT` nearest of the selected rows, in their order. */
  method CandidatePage(t: Tables, at: int, selected: set<Uuid>) returns (page: seq<Candidate>)
    requires selected <= t.incidents.Keys
    ensures DistinctIncidents(page)
    ensures forall c <- page :: c.incident in selected && c == CandidateFor(t, c.incident)
    ensures |selected| >= CANDIDATE_LIMIT ==> |page| == CANDIDATE_LIMIT
    ensures |selected| < CANDIDATE_LIMIT ==>
              |page| == |selected| && CandidateSet(page) == set i | i in selected :: CandidateFor(t, i)
    ensures HoldsTheNearest(t, at, page, selected)
  {
    page := [];
    ghost var seen: set<Uuid> := {};
    var pending := selected;
    while pending != {} && |page| < CANDIDATE_LIMIT
      invariant IsPage(t, at, page, seen, pending, selected)
      decreases |pending|
    {
      var incident := Nearest(t, at, pending);
      PageGoesOn(t, at, page, seen, pending, selected, incident);
      page, seen, pending := page + [CandidateFor(t, incident)], seen + {incident}, pending - {incident};
    }
    PageIsWhole(t, at, page, seen, pending, selected);
    NearestAreHeld(t, at, page, selected);
  }

  class Repository {
    const geo: Geography
    var incidents: map<Uuid, Incident>
    var sources: map<Identity, SourceRecord>
    var associations: seq<Association>
    var revisions: seq<Revision>
    var observations: map<ObservationKey, Receipt>

    constructor (geo: Geography)
      ensures this.geo == geo && State() == EMPTY
    {
      this.geo := geo;
      incidents, sources, associations, revisions, observations := map[], map[], [], [], map[];
    }

    function State(): Tables
      reads this
    {
      Tables(incidents, sources, associations, revisions, observations)
    }

    method Rollback(begun: Tables)
      modifies this
      ensures State() == begun
    {
      incidents, sources, associations := begun.incidents, begun.sources, begun.associations;
      revisions, observations := begun.revisions, begun.observations;
    }

    method SaveObservation(obs: Observation, sourceVersion: nat, now: int)
      modifies this`observations
      ensures State() == InsertObservation(old(State()), obs, sourceVersion, now)
    {
      if KeyOf(obs) !in observations {
        observations := observations[KeyOf(obs) := Receipt(sourceVersion, now)];
      }
    }

    method SaveRevision(revision: Revision) returns (saved: Result<(), Error>)
      modifies this`revisions
      ensures match InsertRevision(old(State()), revision)
              case Success(tables) => saved == Success(()) && State() == tables
              case Failure(error) => saved == Failure(error)
    {
      if exists r <- revisions :: r.source == revision.source && r.version == revision.version {
        return Failure(DuplicateKey);
      }
      revisions := revisions + [revision];
      return Success(());
    }

    method SaveFirstRecord(obs: Observation, incident: Uuid, now: int) returns (saved: Result<(), Error>)
      modifies this`sources, this`observations, this`associations
      ensures match InsertSource(old(State()), obs, incident, now)
              case Success(tables) => saved == Success(()) && State() == tables
              case Failure(error) => saved == Failure(error)
    {
      if obs.id in sources {
        return Failure(DuplicateKey);
      }
      sources := sources[obs.id := SourceRecord(incident, obs.updatedAt, obs.payload, obs.fields, obs.links, 1,
                                                obs.channel, obs.solution, now, now)];
      SaveObservation(obs, 1, now);
      if exists a <- associations :: a.source == obs.id {
        return Failure(DuplicateKey);
      }
      associations := associations + [Association(obs.id, incident)];
      return Success(());
    }

    /** Reads the classes of all associated sources, row by row, and resolves them. */
    method IncidentLifecycle(incident: Uuid) returns (lifecycle: Lifecycle)
      ensures lifecycle == Resolve(EvidenceOf(State(), incident))
    {
      var solutions: seq<SolutionClass> := [];
      for i := 0 to |associations|
        invariant forall solution :: solution in solutions <==>
                    exists k | 0 <= k < i ::
                      && associations[k].incident == incident && associations[k].source in sources
                      && sources[associations[k].source].solution == solution
      {
        var row := associations[i];
        if row.incident == incident && row.source in sources {
          solutions := solutions + [sources[row.source].solution];
        }
      }
      assert Evidence(solutions) == EvidenceOf(State(), incident) by {
        ReadingAllRows(incident, solutions);
      }
      lifecycle := ResolveLifecycle(solutions);
    }

    lemma ReadingAllRows(incident: Uuid, solutions: seq<SolutionClass>)
      requires forall solution :: solution in solutions <==>
                 exists k | 0 <= k < |associations| ::
                   && associations[k].incident == incident && associations[k].source in sources
                   && sources[associations[k].source].solution == solution
      ensures Evidence(solutions) == EvidenceOf(State(), incident)
    {
      forall solution | solution in Evidence(solutions) ensures solution in EvidenceOf(State(), incident) {
        var k :| 0 <= k < |associations| && associations[k].incident == incident && associations[k].source in sources
                 && sources[associations[k].source].solution == solution;
        assert associations[k] == Association(associations[k].source, incident);
        assert Associated(State(), associations[k].source, incident);
      }
      forall solution | solution in EvidenceOf(State(), incident) ensures solution in Evidence(solutions) {
        var source :| Associated(State(), source, incident) && sources[source].solution == solution;
        var k :| 0 <= k < |associations| && associations[k] == Association(source, incident);
      }
    }

    /** Without a full page, the policy chooses among all eligible incidents. */
    method DecideCorrelation(obs: Observation) returns (choice: Option<Match>)
      ensures choice == CorrelationDecision(geo, State(), obs)
    {
      if !CorrelatedCatalogProvider(obs.id.provider) || obs.fields.magnitude.None? {
        return None;
      }
      var page := CandidatePage(State(), obs.fields.occurredAt, EligibleIncidents(geo, State(), obs));
      if |page| == CANDIDATE_LIMIT {
        return None;
      }
      var decision := PRODUCTION.Correlate(geo.surface, obs.Quake(), page);
      return decision.match_;
    }

    /** Writes the current state of an incident, and its revision. */
    method SaveRevised(incident: Uuid, existing: Incident, current: Incident, source: Identity)
      returns (change: Result<Change, Error>)
      modifies this`incidents, this`revisions
      ensures Follows(Revise(old(State()), incident, existing, current, source), change, State())
    {
      incidents := incidents[incident := current];
      var _ :- SaveRevision(Revision(incident, source, current.version));
      return Success(Change(Updated, incident, Some(existing), current));
    }

    method SettleLifecycle(incident: Uuid, existing: Incident, source: Identity, now: int, unchangedKind: ChangeKind)
      returns (change: Result<Change, Error>)
      modifies this`incidents, this`revisions
      ensures Follows(ApplyLifecycleChange(old(State()), incident, existing, source, now, unchangedKind), change, State())
    {
      var lifecycle := IncidentLifecycle(incident);
      if lifecycle == existing.lifecycle {
        incidents := incidents[incident := existing.(lastSeen := now)];
        return Success(Change(unchangedKind, incident, Some(existing), existing));
      }
      var current := existing.(lifecycle := lifecycle, version := existing.version + 1, lastSeen := now);
      change := SaveRevised(incident, existing, current, source);
    }

    method AdoptObservation(incident: Uuid, existing: Incident, obs: Observation, sourceVersion: nat, now: int)
      returns (change: Result<Change, Error>)
      modifies this`incidents, this`revisions
      ensures Follows(UpdateCanonicalFromSource(old(State()), incident, existing, obs, sourceVersion, now), change, State())
    {
      var lifecycle := IncidentLifecycle(incident);
      if exists other <- incidents.Keys :: other != incident && incidents[other].preferred == obs.id {
        return Failure(DuplicateKey);
      }
      var current := Incident(obs.id, obs.updatedAt, obs.fields, obs.links, existing.version + 1, lifecycle,
                              sourceVersion, obs.channel, existing.firstSeen, now);
      change := SaveRevised(incident, existing, current, obs.id);
    }

    method JoinIncident(incident: Uuid, obs: Observation, now: int) returns (change: Result<Change, Error>)
      modifies this
      ensures Follows(InsertCorrelatedSource(old(State()), incident, obs, now), change, State())
    {
      var preferredSolution :- PreferredSolution(State(), incident);
      var existing := incidents[incident];
      var _ :- SaveFirstRecord(obs, incident, now);
      if PreferCanonicalSource(existing.preferred.provider, preferredSolution, obs.id.provider, obs.solution) {
        change := AdoptObservation(incident, existing, obs, 1, now);
      } else {
        var lifecycle := IncidentLifecycle(incident);
        var current := existing.(lifecycle := lifecycle, version := existing.version + 1, lastSeen := now);
        change := SaveRevised(incident, existing, current, obs.id);
      }
    }

    method OpenIncident(obs: Observation, minted: Uuid, now: int) returns (change: Result<Change, Error>)
      modifies this
      ensures Follows(InsertIncident(old(State()), obs, minted, now), change, State())
    {
      if exists other <- incidents.Keys :: incidents[other].preferred == obs.id {
        return Failure(IdentityRace);
      }
      if minted in incidents {
        return Failure(DuplicateKey);
      }
      var lifecycle := ResolveLifecycle([obs.solution]);
      assert Evidence([obs.solution]) == iset{obs.solution};
      var current := Incident(obs.id, obs.updatedAt, obs.fields, obs.links, 1, lifecycle, 1, obs.channel, now, now);
      incidents := incidents[minted := current];
      var _ :- SaveFirstRecord(obs, minted, now);
      return Success(Change(Inserted, minted, None, current));
    }

    method UpdateKnown(obs: Observation, now: int) returns (change: Result<Change, Error>)
      requires Known(State(), obs.id)
      modifies this
      ensures Follows(ApplyKnown(old(State()), obs, now), change, State())
    {
      var stored := sources[obs.id];
      var existing := incidents[stored.incident];
      if IsStale(existing, obs) {
        SaveObservation(obs, stored.version, now);
        var promoted := StrongerSolution(stored.solution, obs.solution);
        sources := sources[obs.id := Seen(stored, obs, now).(solution := promoted)];
        change := SettleLifecycle(stored.incident, existing, obs.id, now, Stale);
      } else if IsRepeated(existing, stored, obs) {
        SaveObservation(obs, stored.version, now);
        var promoted := StrongerSolution(stored.solution, obs.solution);
        var channel := if promoted != obs.solution then stored.channel else obs.channel;
        sources := sources[obs.id := Seen(stored, obs, now).(channel := channel, solution := promoted)];
        change := SettleLifecycle(stored.incident, existing, obs.id, now, Unchanged);
      } else if IsWeaker(stored, obs) {
        SaveObservation(obs, stored.version, now);
        sources := sources[obs.id := Seen(stored, obs, now)];
        change := SettleLifecycle(stored.incident, existing, obs.id, now, Unchanged);
      } else {
        var version := stored.version + 1;
        sources := sources[obs.id := SourceRecord(stored.incident, obs.updatedAt, obs.payload, obs.fields,
                                                  obs.links.Over(stored.links), version, obs.channel, obs.solution,
                                                  stored.firstSeen, now)];
        SaveObservation(obs, version, now);
        var takesOver :- TakesOver(State(), stored.incident, existing, obs);
        if takesOver {
          change := AdoptObservation(stored.incident, existing, obs, version, now);
        } else {
          change := SettleLifecycle(stored.incident, existing, obs.id, now, Updated);
        }
      }
    }

    method Apply(input: Input) returns (change: Result<Change, Error>)
      modifies this
      ensures Follows(ApplyEvent(geo, old(State()), input), change, State())
    {
      if Known(State(), input.obs.id) {
        change := UpdateKnown(input.obs, input.now);
        return;
      }
      var choice := DecideCorrelation(input.obs);
      match choice
      case Some(best) => change := JoinIncident(best.incident, input.obs, input.now);
      case None => change := OpenIncident(input.obs, input.minted, input.now);
    }

    /** One transaction over a batch: all of it, with its tally, or nothing. */
    method ApplyBatch(inputs: seq<Input>) returns (stats: Result<RunStats, Error>)
      modifies this
      ensures match ApplyAll(geo, old(State()), inputs)
              case Success((tables, changes)) => stats == Success(Tally(changes)) && State() == tables
              case Failure(error) => stats == Failure(error) && State() == old(State())
    {
      var begun := State();
      var counted := RunStats(0, 0, 0, 0);
      ghost var changes: seq<Change> := [];
      for i := 0 to |inputs|
        invariant ApplyAll(geo, begun, inputs[..i]) == Success((State(), changes))
        invariant counted == Tally(changes)
      {
        assert inputs[..i + 1][..i] == inputs[..i];
        var change := Apply(inputs[i]);
        if change.Failure? {
          PrefixFails(geo, begun, inputs, i + 1, change.error);
          Rollback(begun);
          return Failure(change.error);
        }
        assert (changes + [change.value])[..|changes|] == changes;
        changes := changes + [change.value];
        counted := Count(counted, change.value.kind);
      }
      assert inputs[..|inputs|] == inputs;
      return Success(counted);
    }
  }

  /** A batch fails with the error of the first event that fails. */
  lemma {:induction false} PrefixFails(geo: Geography, t: Tables, inputs: seq<Input>, n: nat, error: Error)
    requires n <= |inputs| && ApplyAll(geo, t, inputs[..n]) == Failure(error)
    ensures ApplyAll(geo, t, inputs) == Failure(error)
  {
    if n < |inputs| {
      assert inputs[..|inputs| - 1][..n] == inputs[..n];
      PrefixFails(geo, t, inputs[..|inputs| - 1], n, error);
    } else {
      assert inputs[..n] == inputs;
    }
  }
}
