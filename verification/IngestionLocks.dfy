/** Interleaved ingestion transactions (internal/repository/postgres/repository.go, applyEvent and correlationDecision).
    Each transaction looks its source up; a first sighting from a catalogue with a magnitude then takes the advisory lock,
    reads and locks its candidates, and keeps all locks until it ends. The rows of a known source and its incident are
    locked from the moment they are read, so reading and rewriting them is one step, which waits for candidates that
    another transaction holds. Everything else interleaves. */
module IngestionLocks {
  import opened Wrappers
  import opened Solutions
  import opened Correlation
  import opened IncidentTables
  import opened IncidentInvariants
  import opened Confluence
  import opened TableChanges

  type TxId = nat

  /** `Decided` holds the incidents whose rows were locked to decide, and remembers the tables that the decision was read
      from and how many transactions had committed by then. */
  datatype Stage =
    | Started
    | Waiting
    | Locked
    | Decided(decision: Option<Match>, seen: Tables, held: set<Uuid>, mark: nat)
    | OnRow

  datatype Tx = Tx(input: Input, stage: Stage)

  /** A committed transaction, and whether it held the advisory lock. */
  datatype Entry = Entry(tx: TxId, input: Input, locked: bool)

  /** `born` are the incidents that lock holders opened; `history` is what was committed, a decision under the lock at the
      place where it was taken and everything else in the order of commits; `granted` and `finished` are the lock holders
      that did not abort, in the order of their locks and of their commits. */
  datatype Db = Db(tables: Tables, open: map<TxId, Tx>, holder: Option<TxId>, born: set<Uuid>, history: seq<Entry>,
                   granted: seq<TxId>, finished: seq<TxId>)

  datatype Action =
    | Begin(tx: TxId, input: Input)
    | Look(tx: TxId)
    | Lock(tx: TxId)
    | Decide(tx: TxId)
    | Write(tx: TxId)
    | Abort(tx: TxId)

  predicate NeedsLock(obs: Observation) {
    CorrelatedCatalogProvider(obs.id.provider) && obs.fields.magnitude.Some?
  }

  ghost predicate Enabled(db: Db, action: Action) {
    match action
    case Begin(tx, _) => tx !in db.open
    case Look(tx) => tx in db.open && db.open[tx].stage == Started
    case Lock(tx) => tx in db.open && db.open[tx].stage == Waiting && (db.holder.None? || db.holder == Some(tx))
    case Decide(tx) => tx in db.open && db.open[tx].stage == Locked
    case Write(tx) => tx in db.open && (db.open[tx].stage.Decided? || (db.open[tx].stage == OnRow && RowIsFree(db, tx)))
    case Abort(tx) => tx in db.open
  }

  /** No other transaction has locked the incident of the known source. */
  ghost predicate RowIsFree(db: Db, tx: TxId)
    requires tx in db.open
  {
    var id := db.open[tx].input.obs.id;
    id in db.tables.sources ==>
      forall other <- db.open :: other != tx && db.open[other].stage.Decided? ==>
        db.tables.sources[id].incident !in db.open[other].stage.held
  }

  /** The candidates that a decision locks; of a full page it is left open which. */
  function LockedRows(geo: Geography, t: Tables, obs: Observation): set<Uuid> {
    var eligible := EligibleIncidents(geo, t, obs);
    if |eligible| >= CANDIDATE_LIMIT then {} else eligible
  }

  /** A decision taken on the present tables. */
  ghost function DecidedOn(geo: Geography, db: Db, obs: Observation): Stage {
    Decided(CorrelationDecision(geo, db.tables, obs), db.tables, LockedRows(geo, db.tables, obs), |db.history|)
  }

  /** What a transaction writes, once it has decided. */
  ghost function Written(t: Tables, tx: Tx): Applied
    requires tx.stage.Decided? || (tx.stage == OnRow && Known(t, tx.input.obs.id))
  {
    match tx.stage
    case OnRow => ApplyKnown(t, tx.input.obs, tx.input.now)
    case Decided(decision, _, _, _) => WriteChoice(t, decision, tx.input)
  }

  ghost function AtStage(db: Db, tx: TxId, stage: Stage): Db
    requires tx in db.open
  {
    db.(open := db.open[tx := db.open[tx].(stage := stage)])
  }

  /** Ends a transaction without a trace. */
  ghost function Rolled(db: Db, tx: TxId): Db {
    if db.holder == Some(tx) then
      db.(open := db.open - {tx}, holder := None, granted := db.finished)
    else
      db.(open := db.open - {tx})
  }

  function InsertedAt<T>(history: seq<T>, place: nat, entry: T): seq<T> {
    if place <= |history| then history[..place] + [entry] + history[place..] else history + [entry]
  }

  /** The history with the transaction in its place. */
  function Recorded(db: Db, tx: TxId): seq<Entry>
    requires tx in db.open
  {
    var entry := Entry(tx, db.open[tx].input, db.holder == Some(tx));
    if db.open[tx].stage.Decided? && db.holder == Some(tx) then
      InsertedAt(db.history, db.open[tx].stage.mark, entry)
    else
      db.history + [entry]
  }

  ghost function CommittedDb(db: Db, tx: TxId, outcome: Outcome): Db
    requires tx in db.open
  {
    var next := db.(tables := outcome.tables, open := db.open - {tx}, history := Recorded(db, tx));
    if db.holder == Some(tx) then
      next.(holder := None, finished := db.finished + [tx],
            born := if outcome.change.kind == Inserted then db.born + {outcome.change.incident} else db.born)
    else
      next
  }

  /** Writes and commits, reads again, or aborts. */
  ghost function WriteOf(db: Db, tx: TxId): Db
    requires tx in db.open && (db.open[tx].stage.Decided? || db.open[tx].stage == OnRow)
  {
    if db.open[tx].stage == OnRow && !Known(db.tables, db.open[tx].input.obs.id) then
      db
    else
      match Written(db.tables, db.open[tx])
      case Success(outcome) => CommittedDb(db, tx, outcome)
      case Failure(IdentityRace) => AtStage(db, tx, Started)
      case Failure(_) => Rolled(db, tx)
  }

  ghost function Act(geo: Geography, db: Db, action: Action): Db {
    if !Enabled(db, action) then
      db
    else
      match action
      case Begin(tx, input) => db.(open := db.open[tx := Tx(input, Started)])
      case Look(tx) =>
        var obs := db.open[tx].input.obs;
        if Known(db.tables, obs.id) then AtStage(db, tx, OnRow)
        else if NeedsLock(obs) then AtStage(db, tx, Waiting)
        else AtStage(db, tx, Decided(None, db.tables, {}, 0))
      case Lock(tx) =>
        AtStage(if db.holder.None? then db.(holder := Some(tx), granted := db.granted + [tx]) else db, tx, Locked)
      case Decide(tx) => AtStage(db, tx, DecidedOn(geo, db, db.open[tx].input.obs))
      case Write(tx) => WriteOf(db, tx)
      case Abort(tx) => Rolled(db, tx)
  }

  // ----- What every interleaving keeps -----

  /** The transactions that held the lock, in the order of the history. */
  function LockHolders(history: seq<Entry>): seq<TxId> {
    if history == [] then []
    else LockHolders(history[..|history| - 1]) + if history[|history| - 1].locked then [history[|history| - 1].tx] else []
  }

  ghost predicate LockOrder(db: Db) {
    && LockHolders(db.history) == db.finished
    && db.granted == db.finished + (if db.holder.Some? then [db.holder.value] else [])
    && (db.holder.Some? ==> db.holder.value in db.open && NeedsLock(db.open[db.holder.value].input.obs))
  }

  /** What holds of a transaction under way: only the holder of the lock decides to join an incident, it saw every incident
      that lock holders opened, and no source of its provider has come to the incident that it joins. */
  ghost predicate TxIsSound(geo: Geography, db: Db, tx: TxId)
    requires tx in db.open
  {
    var obs := db.open[tx].input.obs;
    match db.open[tx].stage
    case Started => true
    case Waiting => NeedsLock(obs)
    case Locked => NeedsLock(obs) && db.holder == Some(tx)
    case OnRow => obs.id in db.tables.sources
    case Decided(decision, seen, held, mark) =>
      if NeedsLock(obs) then
        && db.holder == Some(tx)
        && mark <= |db.history| && LockHolders(db.history[..mark]) == db.finished
        && (decision.Some? ==> decision.value.incident in held)
        && decision == CorrelationDecision(geo, seen, obs)
        && db.born <= seen.incidents.Keys
        && (decision.Some? ==> Joinable(db.tables, decision.value.incident, obs.id.provider))
      else
        decision == None && held == {}
  }

  ghost predicate Invariant(geo: Geography, db: Db) {
    && Consistent(db.tables)
    && LockOrder(db)
    && db.born <= db.tables.incidents.Keys
    && forall tx <- db.open :: TxIsSound(geo, db, tx)
  }

  ghost predicate WritesSoundly(t: Tables, tx: Tx, outcome: Outcome) {
    && Step(t, outcome.tables, outcome.change, tx.input.obs.id) && Consistent(outcome.tables)
    && (outcome.change.kind == Inserted <==> outcome.change.incident !in t.incidents)
    && (tx.stage.Decided? && tx.stage.decision.None? <==> outcome.change.incident !in t.incidents)
  }

  lemma StepWritesSoundly(t: Tables, tx: Tx, outcome: Outcome)
    requires Consistent(t) && Step(t, outcome.tables, outcome.change, tx.input.obs.id)
    requires tx.stage.Decided? && tx.stage.decision.None? <==> outcome.change.incident !in t.incidents
    ensures WritesSoundly(t, tx, outcome)
  {
    StepKeepsConsistency(t, outcome.tables, outcome.change, tx.input.obs.id);
  }

  lemma RewriteIsSound(t: Tables, tx: Tx)
    requires Consistent(t) && tx.stage == OnRow && tx.input.obs.id in t.sources
    ensures Written(t, tx).Success? && WritesSoundly(t, tx, Written(t, tx).value)
  {
    ConsistentIsReady(t, t.sources[tx.input.obs.id].incident, tx.input.obs.id);
    KnownIsStep(t, tx.input.obs, tx.input.now);
    StepWritesSoundly(t, tx, ApplyKnown(t, tx.input.obs, tx.input.now).value);
  }

  lemma JoinIsSound(t: Tables, tx: Tx)
    requires Consistent(t) && tx.stage.Decided? && tx.stage.decision.Some? && tx.input.obs.id !in t.sources
    requires Joinable(t, tx.stage.decision.value.incident, tx.input.obs.id.provider)
    ensures Written(t, tx).Success? && WritesSoundly(t, tx, Written(t, tx).value)
  {
    var incident := tx.stage.decision.value.incident;
    ConsistentIsReady(t, incident, tx.input.obs.id);
    CorrelatedIsStep(t, incident, tx.input.obs, tx.input.now);
    StepWritesSoundly(t, tx, InsertCorrelatedSource(t, incident, tx.input.obs, tx.input.now).value);
  }

  lemma OpeningIsSound(t: Tables, tx: Tx)
    requires Consistent(t) && tx.stage.Decided? && tx.stage.decision.None? && tx.input.obs.id !in t.sources
    requires tx.input.minted !in t.incidents
    ensures Written(t, tx).Success? && WritesSoundly(t, tx, Written(t, tx).value)
  {
    NewIncidentIsStep(t, tx.input.obs, tx.input.minted, tx.input.now);
    StepWritesSoundly(t, tx, InsertIncident(t, tx.input.obs, tx.input.minted, tx.input.now).value);
  }

  lemma KnownSourceIsNotInserted(t: Tables, obs: Observation, incident: Uuid, minted: Uuid, now: int)
    requires obs.id in t.sources
    ensures InsertSource(t, obs, incident, now) == Failure(DuplicateKey)
    ensures InsertCorrelatedSource(t, incident, obs, now).Failure?
    ensures InsertCorrelatedSource(t, incident, obs, now).error != IdentityRace
    ensures InsertIncident(t, obs, minted, now).Failure?
    ensures InsertIncident(t, obs, minted, now).error == IdentityRace <==>
            exists other <- t.incidents.Keys :: t.incidents[other].preferred == obs.id
  {
  }

  lemma InsertionNeedsNewNames(t: Tables, tx: Tx)
    requires tx.stage.Decided? && Written(t, tx).Success?
    ensures tx.input.obs.id !in t.sources
    ensures tx.stage.decision.None? ==> tx.input.minted !in t.incidents
  {
    if tx.input.obs.id in t.sources {
      match tx.stage.decision
      case Some(best) => KnownSourceIsNotInserted(t, tx.input.obs, best.incident, tx.input.minted, tx.input.now);
      case None => KnownSourceIsNotInserted(t, tx.input.obs, 0, tx.input.minted, tx.input.now);
    }
  }

  /** A step brings no source to an incident that another transaction is about to join, unless it is a join itself. */
  lemma StepKeepsJoinable(t: Tables, next: Tables, change: Change, id: Identity, incident: Uuid, provider: string)
    requires Step(t, next, change, id) && Joinable(t, incident, provider)
    requires id in t.sources || change.incident !in t.incidents
    ensures Joinable(next, incident, provider)
  {
  }

  lemma WriteIsSound(geo: Geography, db: Db, tx: TxId)
    requires Consistent(db.tables) && tx in db.open && TxIsSound(geo, db, tx)
    requires db.open[tx].stage.Decided? || db.open[tx].stage == OnRow
    requires Written(db.tables, db.open[tx]).Success?
    ensures WritesSoundly(db.tables, db.open[tx], Written(db.tables, db.open[tx]).value)
  {
    if db.open[tx].stage.Decided? {
      InsertionNeedsNewNames(db.tables, db.open[tx]);
    }
    match db.open[tx].stage
    case OnRow => RewriteIsSound(db.tables, db.open[tx]);
    case Decided(Some(_), _, _, _) => JoinIsSound(db.tables, db.open[tx]);
    case Decided(None, _, _, _) => OpeningIsSound(db.tables, db.open[tx]);
  }

  ghost predicate KeepsJoinable(t: Tables, next: Tables) {
    forall incident, provider :: Joinable(t, incident, provider) ==> Joinable(next, incident, provider)
  }

  /** Only the holder of the lock joins incidents. */
  lemma OthersKeepJoinable(geo: Geography, db: Db, tx: TxId, outcome: Outcome)
    requires tx in db.open && TxIsSound(geo, db, tx) && db.holder != Some(tx)
    requires (db.open[tx].stage == OnRow && db.open[tx].input.obs.id in db.tables.sources) || db.open[tx].stage.Decided?
    requires WritesSoundly(db.tables, db.open[tx], outcome)
    ensures KeepsJoinable(db.tables, outcome.tables)
  {
    forall incident, provider | Joinable(db.tables, incident, provider) ensures Joinable(outcome.tables, incident, provider) {
      StepKeepsJoinable(db.tables, outcome.tables, outcome.change, db.open[tx].input.obs.id, incident, provider);
    }
  }

  lemma StepKeepsSources(t: Tables, next: Tables, change: Change, id: Identity)
    requires Step(t, next, change, id)
    ensures t.sources.Keys <= next.sources.Keys
  {
  }

  /** What a committed write does to the transactions still under way. */
  lemma CommitKeepsOthersSound(geo: Geography, db: Db, tx: TxId, outcome: Outcome, other: TxId)
    requires tx in db.open && other in db.open && other != tx && TxIsSound(geo, db, other)
    requires db.tables.sources.Keys <= outcome.tables.sources.Keys
    requires db.holder != Some(tx) ==> KeepsJoinable(db.tables, outcome.tables)
    ensures TxIsSound(geo, CommittedDb(db, tx, outcome), other)
  {
    var stage := db.open[other].stage;
    if stage.Decided? && db.holder == Some(other) && stage.mark <= |db.history| {
      assert Recorded(db, tx)[..stage.mark] == db.history[..stage.mark];
    }
  }

  lemma {:induction false} LockHoldersJoin(a: seq<Entry>, b: seq<Entry>)
    ensures LockHolders(a + b) == LockHolders(a) + LockHolders(b)
  {
    if b == [] {
      assert a + b == a;
    } else {
      LockHoldersJoin(a, b[..|b| - 1]);
      assert (a + b)[..|a + b| - 1] == a + b[..|b| - 1];
    }
  }

  lemma RecordedKeepsHolders(db: Db, tx: TxId)
    requires LockHolders(db.history) == db.finished && tx in db.open
    requires db.open[tx].stage.Decided? && db.holder == Some(tx) ==>
               db.open[tx].stage.mark <= |db.history| && LockHolders(db.history[..db.open[tx].stage.mark]) == db.finished
    ensures LockHolders(Recorded(db, tx)) == db.finished + if db.holder == Some(tx) then [tx] else []
  {
    var entry := Entry(tx, db.open[tx].input, db.holder == Some(tx));
    assert [entry][..0] == [];
    LockHoldersJoin(db.history, [entry]);
    if db.open[tx].stage.Decided? && db.holder == Some(tx) {
      var before, after := db.history[..db.open[tx].stage.mark], db.history[db.open[tx].stage.mark..];
      assert db.history == before + after;
      LockHoldersJoin(before, after);
      LockHoldersJoin(before, [entry]);
      LockHoldersJoin(before + [entry], after);
    }
  }

  lemma CommitKeepsLockOrder(db: Db, tx: TxId, outcome: Outcome)
    requires LockOrder(db) && tx in db.open
    requires db.open[tx].stage.Decided? && db.holder == Some(tx) ==>
               db.open[tx].stage.mark <= |db.history| && LockHolders(db.history[..db.open[tx].stage.mark]) == db.finished
    ensures LockOrder(CommittedDb(db, tx, outcome))
  {
    RecordedKeepsHolders(db, tx);
  }

  lemma CommitKeepsBorn(db: Db, tx: TxId, outcome: Outcome)
    requires tx in db.open && db.born <= db.tables.incidents.Keys
    requires IncidentStep(db.tables, outcome.tables, outcome.change.incident, db.open[tx].input.obs.id)
    ensures CommittedDb(db, tx, outcome).born <= outcome.tables.incidents.Keys
  {
  }

  lemma CommitKeepsInvariant(geo: Geography, db: Db, tx: TxId, outcome: Outcome)
    requires Invariant(geo, db) && tx in db.open && (db.open[tx].stage.Decided? || db.open[tx].stage == OnRow)
    requires WritesSoundly(db.tables, db.open[tx], outcome)
    ensures Invariant(geo, CommittedDb(db, tx, outcome))
  {
    var next := CommittedDb(db, tx, outcome);
    CommitKeepsLockOrder(db, tx, outcome);
    CommitKeepsBorn(db, tx, outcome);
    assert TxIsSound(geo, db, tx);
    StepKeepsSources(db.tables, outcome.tables, outcome.change, db.open[tx].input.obs.id);
    if db.holder != Some(tx) {
      OthersKeepJoinable(geo, db, tx, outcome);
    }
    forall other | other in next.open ensures TxIsSound(geo, next, other) {
      assert TxIsSound(geo, db, other);
      CommitKeepsOthersSound(geo, db, tx, outcome, other);
    }
  }

  lemma RollbackKeepsInvariant(geo: Geography, db: Db, tx: TxId)
    requires Invariant(geo, db)
    ensures Invariant(geo, Rolled(db, tx))
  {
    var next := Rolled(db, tx);
    forall other | other in next.open ensures TxIsSound(geo, next, other) {
      assert TxIsSound(geo, db, other);
    }
  }

  lemma StagingKeepsInvariant(geo: Geography, db: Db, tx: TxId, stage: Stage)
    requires Invariant(geo, db) && tx in db.open && TxIsSound(geo, AtStage(db, tx, stage), tx)
    ensures Invariant(geo, AtStage(db, tx, stage))
  {
    var next := AtStage(db, tx, stage);
    forall other | other in next.open ensures TxIsSound(geo, next, other) {
      if other != tx {
        assert TxIsSound(geo, db, other);
      }
    }
  }

  lemma GrantKeepsInvariant(geo: Geography, db: Db, tx: TxId)
    requires Invariant(geo, db) && tx in db.open && db.holder.None? && NeedsLock(db.open[tx].input.obs)
    ensures Invariant(geo, db.(holder := Some(tx), granted := db.granted + [tx]))
  {
    var next := db.(holder := Some(tx), granted := db.granted + [tx]);
    forall other | other in next.open ensures TxIsSound(geo, next, other) {
      assert TxIsSound(geo, db, other);
    }
  }

  lemma OnRowIsKnown(geo: Geography, db: Db, tx: TxId)
    requires Invariant(geo, db) && tx in db.open && db.open[tx].stage == OnRow
    ensures Known(db.tables, db.open[tx].input.obs.id)
  {
    assert TxIsSound(geo, db, tx);
  }

  lemma WriteOfCases(db: Db, tx: TxId, written: Applied)
    requires tx in db.open && (db.open[tx].stage.Decided? || db.open[tx].stage == OnRow)
    requires Written.requires(db.tables, db.open[tx]) && written == Written(db.tables, db.open[tx])
    ensures WriteOf(db, tx) == if written.Success? then CommittedDb(db, tx, written.value)
                               else if written.error == IdentityRace then AtStage(db, tx, Started) else Rolled(db, tx)
  {
  }

  lemma SuccessKeepsInvariant(geo: Geography, db: Db, tx: TxId)
    requires Invariant(geo, db) && Enabled(db, Write(tx)) && Written.requires(db.tables, db.open[tx])
    requires Written(db.tables, db.open[tx]).Success?
    ensures Invariant(geo, CommittedDb(db, tx, Written(db.tables, db.open[tx]).value))
  {
    assert TxIsSound(geo, db, tx);
    WriteIsSound(geo, db, tx);
    CommitKeepsInvariant(geo, db, tx, Written(db.tables, db.open[tx]).value);
  }

  lemma WriteKeepsInvariant(geo: Geography, db: Db, tx: TxId)
    requires Invariant(geo, db) && Enabled(db, Write(tx))
    ensures Invariant(geo, WriteOf(db, tx))
  {
    if db.open[tx].stage == OnRow {
      OnRowIsKnown(geo, db, tx);
    }
    var written := Written(db.tables, db.open[tx]);
    WriteOfCases(db, tx, written);
    if written.Success? {
      SuccessKeepsInvariant(geo, db, tx);
    } else if written.error == IdentityRace {
      StagingKeepsInvariant(geo, db, tx, Started);
    } else {
      RollbackKeepsInvariant(geo, db, tx);
    }
  }

  lemma MatchIsLocked(geo: Geography, t: Tables, obs: Observation)
    requires Linked(t) && CorrelationDecision(geo, t, obs).Some?
    ensures CorrelationDecision(geo, t, obs).value.incident in LockedRows(geo, t, obs)
    ensures Joinable(t, CorrelationDecision(geo, t, obs).value.incident, obs.id.provider)
  {
    MatchIsEligible(geo, t, obs);
  }

  lemma DecisionIsSound(geo: Geography, db: Db, tx: TxId)
    requires Invariant(geo, db) && Enabled(db, Decide(tx))
    ensures TxIsSound(geo, AtStage(db, tx, DecidedOn(geo, db, db.open[tx].input.obs)), tx)
  {
    assert TxIsSound(geo, db, tx);
    assert db.history[..|db.history|] == db.history;
    if CorrelationDecision(geo, db.tables, db.open[tx].input.obs).Some? {
      MatchIsLocked(geo, db.tables, db.open[tx].input.obs);
    }
  }

  lemma ActKeepsInvariant(geo: Geography, db: Db, action: Action)
    requires Invariant(geo, db)
    ensures Invariant(geo, Act(geo, db, action))
  {
    if Enabled(db, action) {
      match action
      case Begin(tx, input) =>
        BeginKeepsInvariant(geo, db, tx, input);
      case Look(tx) =>
        var obs := db.open[tx].input.obs;
        StagingKeepsInvariant(geo, db, tx, if Known(db.tables, obs.id) then OnRow
                                           else if NeedsLock(obs) then Waiting else Decided(None, db.tables, {}, 0));
      case Lock(tx) =>
        assert TxIsSound(geo, db, tx);
        if db.holder.None? {
          GrantKeepsInvariant(geo, db, tx);
          StagingKeepsInvariant(geo, db.(holder := Some(tx), granted := db.granted + [tx]), tx, Locked);
        } else {
          StagingKeepsInvariant(geo, db, tx, Locked);
        }
      case Decide(tx) =>
        DecisionIsSound(geo, db, tx);
        StagingKeepsInvariant(geo, db, tx, DecidedOn(geo, db, db.open[tx].input.obs));
      case Write(tx) => WriteKeepsInvariant(geo, db, tx);
      case Abort(tx) => RollbackKeepsInvariant(geo, db, tx);
    }
  }

  lemma BeginKeepsInvariant(geo: Geography, db: Db, tx: TxId, input: Input)
    requires Invariant(geo, db) && tx !in db.open
    ensures Invariant(geo, db.(open := db.open[tx := Tx(input, Started)]))
  {
    var next := db.(open := db.open[tx := Tx(input, Started)]);
    forall other | other in next.open ensures TxIsSound(geo, next, other) {
      if other != tx {
        assert TxIsSound(geo, db, other);
      }
    }
  }

  /** Having looked its source up, a transaction waits for the advisory lock if and only if the source is new, of a catalogue
      and has a magnitude. */
  lemma WaitsForTheLockExactlyWhen(geo: Geography, db: Db, tx: TxId)
    requires Enabled(db, Look(tx))
    ensures var obs, next := db.open[tx].input.obs, Act(geo, db, Look(tx));
            && tx in next.open
            && (next.open[tx].stage.Waiting? <==>
                !Known(db.tables, obs.id) && obs.id.provider in {"emsc", "usgs", "geofon", "kndc"} && obs.fields.magnitude.Some?)
            && (next.open[tx].stage.OnRow? <==> Known(db.tables, obs.id))
  {
  }

  // ----- Whole interleavings -----

  const START: Db := Db(EMPTY, map[], None, {}, [], [], [])

  ghost function Perform(geo: Geography, actions: seq<Action>): Db {
    if actions == [] then START
    else Act(geo, Perform(geo, actions[..|actions| - 1]), actions[|actions| - 1])
  }

  /** In every interleaving the store stays consistent, transactions finish in the order of their locks, and whoever
      decides under the lock has seen every incident that an earlier holder of it opened. */
  lemma {:induction false} EveryInterleavingKeepsInvariant(geo: Geography, actions: seq<Action>)
    ensures Invariant(geo, Perform(geo, actions))
  {
    if actions != [] {
      EveryInterleavingKeepsInvariant(geo, actions[..|actions| - 1]);
      ActKeepsInvariant(geo, Perform(geo, actions[..|actions| - 1]), actions[|actions| - 1]);
    }
  }

  // ----- Decisions -----

  lemma OpenedAssociations(t: Tables, newcomer: Observation, minted: Uuid, now: int)
    requires Linked(t) && InsertIncident(t, newcomer, minted, now).Success?
    ensures var next := InsertIncident(t, newcomer, minted, now).value.tables;
            && next.incidents.Keys == t.incidents.Keys + {minted} && minted !in t.incidents
            && (forall incident <- t.incidents :: next.incidents[incident] == t.incidents[incident])
            && next.incidents[minted].fields == newcomer.fields && t.sources.Keys <= next.sources.Keys
            && forall s, incident :: Associated(next, s, incident) <==>
                 Associated(t, s, incident) || (s == newcomer.id && incident == minted)
  {
    var next := InsertIncident(t, newcomer, minted, now).value.tables;
    assert next.associations == t.associations + [Association(newcomer.id, minted)];
  }

  /** An incident that is opened without the lock is no candidate for anyone. */
  lemma OpeningKeepsEligible(geo: Geography, t: Tables, newcomer: Observation, minted: Uuid, now: int, obs: Observation)
    requires Linked(t) && InsertIncident(t, newcomer, minted, now).Success? && !NeedsLock(newcomer)
    ensures var next := InsertIncident(t, newcomer, minted, now).value.tables;
            && EligibleIncidents(geo, next, obs) == EligibleIncidents(geo, t, obs)
            && forall incident <- EligibleIncidents(geo, t, obs) :: CandidateFor(next, incident) == CandidateFor(t, incident)
  {
    var next := InsertIncident(t, newcomer, minted, now).value.tables;
    OpenedAssociations(t, newcomer, minted, now);
    forall incident | incident in next.incidents
      ensures Eligible(geo, next, obs, incident) <==> incident in t.incidents && Eligible(geo, t, obs, incident)
    {
      if incident != minted {
        OtherIncidentStaysEligible(geo, t, next, obs, incident);
      }
    }
  }

  /** The same incident, or none. */
  predicate SameChoice(a: Option<Match>, b: Option<Match>) {
    if a.Some? && b.Some? then a.value.incident == b.value.incident else a.None? && b.None?
  }

  lemma ChoiceNamesItsIncident(t: Tables, choice: Option<Match>, input: Input)
    requires Linked(t) && WriteChoice(t, choice, input).Success?
    ensures var incident := WriteChoice(t, choice, input).value.change.incident;
            if choice.Some? then incident == choice.value.incident && incident in t.incidents else incident !in t.incidents
  {
    if choice.Some? {
      CorrelatedNamesItsIncident(t, choice.value.incident, input.obs, input.now);
    } else {
      OpenedIsGathered(t, input.obs, input.minted, input.now);
    }
  }

  lemma ChoicesAgreeExactlyWhenSame(t: Tables, a: Option<Match>, b: Option<Match>, input: Input)
    requires Linked(t) && WriteChoice(t, a, input).Success?
    ensures WriteChoice(t, a, input) == WriteChoice(t, b, input) <==> SameChoice(a, b)
  {
    ChoiceNamesItsIncident(t, a, input);
    if WriteChoice(t, b, input).Success? {
      ChoiceNamesItsIncident(t, b, input);
    }
  }

  lemma WrittenIsAChoice(t: Tables, tx: Tx)
    requires tx.stage.Decided?
    ensures Written(t, tx) == WriteChoice(t, tx.stage.decision, tx.input)
  {
  }

  /** A first sighting that is written is what one run of the whole event would be now, if and only if the decision would
      still choose the same. */
  lemma WriteIsTheEventExactlyWhenCurrent(geo: Geography, t: Tables, tx: Tx)
    requires Linked(t) && tx.stage.Decided? && Written(t, tx).Success?
    ensures Written(t, tx) == ApplyEvent(geo, t, tx.input) <==>
            SameChoice(tx.stage.decision, CorrelationDecision(geo, t, tx.input.obs))
  {
    InsertionNeedsNewNames(t, tx);
    FirstIsAChoice(geo, t, tx.input);
    WrittenIsAChoice(t, tx);
    ChoicesAgreeExactlyWhenSame(t, tx.stage.decision, CorrelationDecision(geo, t, tx.input.obs), tx.input);
  }

  // ----- Races of one source -----

  lemma OnlyItsIncidentPrefers(t: Tables, id: Identity)
    requires Materialised(t) && id in t.sources && t.sources[id].incident in t.incidents
    ensures (exists other <- t.incidents.Keys :: t.incidents[other].preferred == id) <==>
            t.incidents[t.sources[id].incident].preferred == id
  {
  }

  lemma KnownIdentityFails(t: Tables, tx: Tx)
    requires Consistent(t) && tx.stage.Decided? && tx.input.obs.id in t.sources
    ensures Written(t, tx).Failure?
    ensures Written(t, tx).error == IdentityRace <==>
            tx.stage.decision.None? && t.incidents[t.sources[tx.input.obs.id].incident].preferred == tx.input.obs.id
  {
    OnlyItsIncidentPrefers(t, tx.input.obs.id);
    match tx.stage.decision
    case Some(best) => KnownSourceIsNotInserted(t, tx.input.obs, best.incident, tx.input.minted, tx.input.now);
    case None => KnownSourceIsNotInserted(t, tx.input.obs, 0, tx.input.minted, tx.input.now);
  }

  lemma FailedWrite(db: Db, tx: TxId, error: Error)
    requires tx in db.open && db.open[tx].stage.Decided? && Written(db.tables, db.open[tx]) == Failure(error)
    ensures WriteOf(db, tx) == if error == IdentityRace then AtStage(db, tx, Started) else Rolled(db, tx)
  {
  }

  /** Of two transactions with the first sighting of one source, the second to write writes nothing: it reads again, now
      finding the row, exactly when it opens an incident and the source is preferred, and aborts otherwise. */
  lemma SameIdentityRereadsOrAborts(db: Db, tx: TxId)
    requires Consistent(db.tables) && tx in db.open
    requires db.open[tx].stage.Decided? && db.open[tx].input.obs.id in db.tables.sources
    ensures var obs := db.open[tx].input.obs;
            WriteOf(db, tx) ==
                    if db.open[tx].stage.decision.None?
                       && db.tables.incidents[db.tables.sources[obs.id].incident].preferred == obs.id
                    then AtStage(db, tx, Started) else Rolled(db, tx)
    ensures Known(db.tables, db.open[tx].input.obs.id)
  {
    KnownIdentityFails(db.tables, db.open[tx]);
    FailedWrite(db, tx, Written(db.tables, db.open[tx]).error);
  }
}
