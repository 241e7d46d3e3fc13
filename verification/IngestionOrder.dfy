/** Interleaved ingestion is serial: whatever transactions do in between, the tables are those of one run of the committed
    events, in which a first sighting under the advisory lock stands where it was decided
    (internal/repository/postgres/repository.go, applyEvent and correlationDecision). */
module IngestionOrder {
  import opened Wrappers
  import opened Correlation
  import opened IncidentTables
  import opened IncidentInvariants
  import opened IncidentHistory
  import opened TableChanges
  import opened IngestionLocks

  function Events(history: seq<Entry>): seq<Input> {
    seq(|history|, i requires 0 <= i < |history| => history[i].input)
  }

  /** The tables after one run of a history. */
  ghost function Replay(geo: Geography, history: seq<Entry>): Tables {
    Run(geo, EMPTY, Events(history))
  }

  predicate DecidesUnderLock(tx: Tx) {
    tx.stage.Decided? && NeedsLock(tx.input.obs)
  }

  /** If the transaction wrote now, the tables would be those of the history with its event where it was decided. */
  ghost predicate Fits(geo: Geography, db: Db, tx: TxId)
    requires tx in db.open && db.open[tx].stage.Decided?
  {
    var written := Written(db.tables, db.open[tx]);
    written.Success? ==> SameRows(written.value.tables, Replay(geo, Recorded(db, tx)))
  }

  ghost predicate AllFit(geo: Geography, db: Db) {
    forall tx <- db.open :: DecidesUnderLock(db.open[tx]) ==> Fits(geo, db, tx)
  }

  ghost predicate IsSerial(geo: Geography, db: Db) {
    SameRows(db.tables, Replay(geo, db.history)) && AllFit(geo, db)
  }

  lemma ReplayGains(geo: Geography, history: seq<Entry>, entry: Entry)
    ensures Replay(geo, history + [entry]) == Committed(geo, Replay(geo, history), entry.input)
  {
    var events := Events(history + [entry]);
    assert events[..|events| - 1] == Events(history) && events[|events| - 1] == entry.input;
    RunOfOneMore(geo, events);
  }

  lemma RunOfOneMore(geo: Geography, events: seq<Input>)
    requires events != []
    ensures Run(geo, EMPTY, events) == Committed(geo, Run(geo, EMPTY, events[..|events| - 1]), events[|events| - 1])
  {
  }

  /** An event has the same effect on the tables and on the replayed history. */
  lemma EventExtends(geo: Geography, t: Tables, history: seq<Entry>, entry: Entry)
    requires Consistent(t) && SameRows(t, Replay(geo, history))
    ensures SameRows(Committed(geo, t, entry.input), Replay(geo, history + [entry]))
  {
    ReplayGains(geo, history, entry);
    EveryReachableStoreIsConsistent(geo, Events(history));
    EventIsRowwise(geo, t, Replay(geo, history), entry.input);
  }

  lemma WrittenEvent(geo: Geography, t: Tables, tx: Tx)
    requires Consistent(t) && Written.requires(t, tx) && Written(t, tx).Success?
    requires tx.stage.Decided? ==> tx.stage.decision == CorrelationDecision(geo, t, tx.input.obs)
    ensures Committed(geo, t, tx.input) == Written(t, tx).value.tables
  {
    EventCommits(geo, t, tx.input);
    if tx.stage.Decided? {
      WriteIsTheEventExactlyWhenCurrent(geo, t, tx);
    } else {
      KnownIsFound(geo, t, tx.input);
    }
  }

  lemma DecidedWriteExtends(geo: Geography, t: Tables, tx: Tx, history: seq<Entry>, entry: Entry, recorded: seq<Entry>)
    requires Consistent(t) && SameRows(t, Replay(geo, history)) && tx.stage.Decided? && Written(t, tx).Success?
    requires tx.stage.decision == CorrelationDecision(geo, t, tx.input.obs)
    requires entry.input == tx.input && recorded == history + [entry]
    ensures SameRows(Written(t, tx).value.tables, Replay(geo, recorded))
  {
    WrittenEvent(geo, t, tx);
    EventExtends(geo, t, history, entry);
  }

  lemma LastIsRecorded(geo: Geography, db: Db, tx: TxId)
    requires tx in db.open && db.holder == Some(tx)
    ensures Recorded(AtStage(db, tx, DecidedOn(geo, db, db.open[tx].input.obs)), tx)
            == db.history + [Entry(tx, db.open[tx].input, true)]
  {
  }

  /** A decision fits where it is taken. */
  lemma DecisionFits(geo: Geography, db: Db, tx: TxId)
    requires Consistent(db.tables) && SameRows(db.tables, Replay(geo, db.history)) && tx in db.open && db.holder == Some(tx)
    ensures Fits(geo, AtStage(db, tx, DecidedOn(geo, db, db.open[tx].input.obs)), tx)
  {
    var next := AtStage(db, tx, DecidedOn(geo, db, db.open[tx].input.obs));
    LastIsRecorded(geo, db, tx);
    if Written(db.tables, next.open[tx]).Success? {
      DecidedWriteExtends(geo, db.tables, next.open[tx], db.history, Entry(tx, db.open[tx].input, true), Recorded(next, tx));
    }
  }

  // ----- Commits beside a decision -----

  lemma WrittenNeedsWritable(t: Tables, tx: Tx)
    requires tx.stage.Decided? && Written(t, tx).Success?
    requires tx.stage.decision.Some? ==> Joinable(t, tx.stage.decision.value.incident, tx.input.obs.id.provider)
    ensures IsWritable(t, tx.stage.decision, tx.input)
  {
    InsertionNeedsNewNames(t, tx);
  }

  /** What could be written after another write to other rows could be written before. */
  lemma WritableBefore(t: Tables, next: Tables, choice: Option<Match>, input: Input)
    requires IsWritable(next, choice, input) && t.sources.Keys <= next.sources.Keys && t.incidents.Keys <= next.incidents.Keys
    requires choice.Some? ==> Joinable(t, choice.value.incident, input.obs.id.provider)
    ensures IsWritable(t, choice, input)
  {
  }

  /** The transaction's choice and the event of another one have one effect in both orders. */
  ghost predicate Commutes(geo: Geography, t: Tables, next: Tables, tx: Tx, event: Input)
    requires tx.stage.Decided?
  {
    Written(next, tx).Success? ==>
      && Written(t, tx).Success? && Consistent(Written(t, tx).value.tables)
      && SameRows(Written(next, tx).value.tables, Committed(geo, Written(t, tx).value.tables, event))
  }

  lemma RewriteCommutes(geo: Geography, t: Tables, tx: Tx, event: Input)
    requires Consistent(t) && event.obs.id in t.sources && tx.stage.Decided?
    requires tx.stage.decision.Some? ==>
               Joinable(t, tx.stage.decision.value.incident, tx.input.obs.id.provider)
               && tx.stage.decision.value.incident != t.sources[event.obs.id].incident
    ensures ApplyKnown(t, event.obs, event.now).Success?
    ensures Commutes(geo, t, ApplyKnown(t, event.obs, event.now).value.tables, tx, event)
  {
    KnownWrites(t, event.obs, event.now);
    var incident := t.sources[event.obs.id].incident;
    var next := ApplyKnown(t, event.obs, event.now).value.tables;
    WriteIsConsistent(t, ApplyKnown(t, event.obs, event.now), incident, event.obs);
    if Written(next, tx).Success? {
      WrittenIsAChoice(next, tx);
      WrittenIsAChoice(t, tx);
      if tx.stage.decision.Some? {
        WriteKeepsJoinable(t, ApplyKnown(t, event.obs, event.now), incident, event.obs, tx.stage.decision.value.incident,
                           tx.input.obs.id.provider);
      }
      WrittenNeedsWritable(next, tx);
      WritableBefore(t, next, tx.stage.decision, tx.input);
      KnownCommutes(t, tx.stage.decision, tx.input, event.obs, event.now);
      var written := Written(t, tx).value.tables;
      KnownIsFound(geo, written, event);
      EventCommits(geo, written, event);
    }
  }

  lemma OpeningCommutes(geo: Geography, t: Tables, tx: Tx, event: Input)
    requires Consistent(t) && IsWritable(t, None, event) && tx.stage.Decided? && !NeedsLock(event.obs)
    requires tx.stage.decision.Some? ==> Joinable(t, tx.stage.decision.value.incident, tx.input.obs.id.provider)
    ensures WriteChoice(t, None, event).Success?
    ensures Commutes(geo, t, WriteChoice(t, None, event).value.tables, tx, event)
  {
    ChoiceWrites(t, None, event);
    var next := WriteChoice(t, None, event).value.tables;
    WriteIsConsistent(t, WriteChoice(t, None, event), event.minted, event.obs);
    if Written(next, tx).Success? {
      WrittenIsAChoice(next, tx);
      WrittenIsAChoice(t, tx);
      if tx.stage.decision.Some? {
        WriteKeepsJoinable(t, WriteChoice(t, None, event), event.minted, event.obs, tx.stage.decision.value.incident,
                           tx.input.obs.id.provider);
      }
      WrittenNeedsWritable(next, tx);
      WritableBefore(t, next, tx.stage.decision, tx.input);
      ChoicesCommute(t, tx.stage.decision, tx.input, None, event);
      var written := Written(t, tx).value.tables;
      UnlockedDecidesNothing(geo, written, event.obs);
      FirstIsAChoice(geo, written, event);
      EventCommits(geo, written, event);
    }
  }

  lemma UnlockedDecidesNothing(geo: Geography, t: Tables, obs: Observation)
    requires !NeedsLock(obs)
    ensures CorrelationDecision(geo, t, obs).None?
  {
  }

  lemma FitExtends(geo: Geography, t: Tables, u: Tables, history: seq<Entry>, entry: Entry, recorded: seq<Entry>)
    requires Consistent(t) && SameRows(t, Replay(geo, history)) && SameRows(u, Committed(geo, t, entry.input))
    requires recorded == history + [entry]
    ensures SameRows(u, Replay(geo, recorded))
  {
    EventExtends(geo, t, history, entry);
  }

  lemma RecordedGains(db: Db, next: Db, tx: TxId, entry: Entry)
    requires tx in db.open && tx in next.open && next.open[tx] == db.open[tx] && db.open[tx].stage.Decided?
    requires db.open[tx].stage.mark <= |db.history| && db.holder == next.holder == Some(tx)
    requires next.history == db.history + [entry]
    ensures Recorded(next, tx) == Recorded(db, tx) + [entry]
  {
  }

  /** A commit beside a decision leaves it fitting where it was taken. */
  lemma CommitKeepsFit(geo: Geography, db: Db, next: Db, other: TxId, entry: Entry)
    requires other in db.open && other in next.open && next.open[other] == db.open[other] && db.open[other].stage.Decided?
    requires db.open[other].stage.mark <= |db.history| && db.holder == next.holder == Some(other)
    requires next.history == db.history + [entry] && Fits(geo, db, other)
    requires Commutes(geo, db.tables, next.tables, db.open[other], entry.input)
    ensures Fits(geo, next, other)
  {
    RecordedGains(db, next, other, entry);
    if Written(next.tables, next.open[other]).Success? {
      FitExtends(geo, Written(db.tables, db.open[other]).value.tables, Written(next.tables, next.open[other]).value.tables,
                 Recorded(db, other), entry, Recorded(next, other));
    }
  }

  /** What the invariant says of a decision under the lock, in the terms of this module. */
  lemma PendingDecision(geo: Geography, db: Db, tx: TxId)
    requires Invariant(geo, db) && tx in db.open && DecidesUnderLock(db.open[tx])
    ensures db.holder == Some(tx) && db.open[tx].stage.mark <= |db.history|
    ensures var tx' := db.open[tx];
            tx'.stage.decision.Some? ==>
              Joinable(db.tables, tx'.stage.decision.value.incident, tx'.input.obs.id.provider)
              && tx'.stage.decision.value.incident in tx'.stage.held
  {
    assert TxIsSound(geo, db, tx);
  }

  lemma RowIsNotChosen(db: Db, tx: TxId, other: TxId)
    requires tx in db.open && RowIsFree(db, tx) && db.open[tx].input.obs.id in db.tables.sources
    requires other in db.open && other != tx && db.open[other].stage.Decided? && db.open[other].stage.decision.Some?
    requires db.open[other].stage.decision.value.incident in db.open[other].stage.held
    ensures db.open[other].stage.decision.value.incident != db.tables.sources[db.open[tx].input.obs.id].incident
  {
  }

  lemma CommitCommutes(geo: Geography, db: Db, tx: TxId, other: TxId)
    requires Invariant(geo, db) && Enabled(db, Write(tx)) && Written.requires(db.tables, db.open[tx])
    requires Written(db.tables, db.open[tx]).Success?
    requires other in db.open && other != tx && DecidesUnderLock(db.open[other])
    ensures Commutes(geo, db.tables, Written(db.tables, db.open[tx]).value.tables, db.open[other], db.open[tx].input)
  {
    PendingDecision(geo, db, other);
    assert TxIsSound(geo, db, tx);
    if db.open[tx].stage == OnRow {
      if db.open[other].stage.decision.Some? {
        RowIsNotChosen(db, tx, other);
      }
      RewriteCommutes(geo, db.tables, db.open[other], db.open[tx].input);
    } else {
      InsertionNeedsNewNames(db.tables, db.open[tx]);
      OpeningCommutes(geo, db.tables, db.open[other], db.open[tx].input);
    }
  }

  // ----- Every action -----

  /** The committed tables are those of the recorded history. */
  lemma CommitIsReplayed(geo: Geography, db: Db, tx: TxId)
    requires Invariant(geo, db) && IsSerial(geo, db) && Enabled(db, Write(tx)) && Written.requires(db.tables, db.open[tx])
    requires Written(db.tables, db.open[tx]).Success?
    ensures SameRows(Written(db.tables, db.open[tx]).value.tables, Replay(geo, Recorded(db, tx)))
  {
    assert TxIsSound(geo, db, tx);
    if DecidesUnderLock(db.open[tx]) {
      assert Fits(geo, db, tx);
    } else {
      if db.open[tx].stage.Decided? {
        UnlockedDecidesNothing(geo, db.tables, db.open[tx].input.obs);
      }
      WrittenEvent(geo, db.tables, db.open[tx]);
      EventExtends(geo, db.tables, db.history, Entry(tx, db.open[tx].input, db.holder == Some(tx)));
    }
  }

  lemma CommitKeepsSerial(geo: Geography, db: Db, tx: TxId, outcome: Outcome)
    requires Invariant(geo, db) && IsSerial(geo, db) && Enabled(db, Write(tx)) && Written.requires(db.tables, db.open[tx])
    requires Written(db.tables, db.open[tx]) == Success(outcome)
    ensures IsSerial(geo, CommittedDb(db, tx, outcome))
  {
    var next := CommittedDb(db, tx, outcome);
    CommitIsReplayed(geo, db, tx);
    forall other | other in next.open && DecidesUnderLock(next.open[other]) ensures Fits(geo, next, other) {
      PendingDecision(geo, db, other);
      CommitCommutes(geo, db, tx, other);
      CommitKeepsFit(geo, db, next, other, Entry(tx, db.open[tx].input, false));
    }
  }

  /** Nothing changes for the decisions of others when only one transaction moves on. */
  lemma OthersStillFit(geo: Geography, db: Db, next: Db, tx: TxId)
    requires Invariant(geo, db) && AllFit(geo, db)
    requires next.tables == db.tables && next.history == db.history
    requires forall other <- next.open :: other != tx ==> other in db.open && next.open[other] == db.open[other]
    requires next.holder == db.holder || db.holder.None? || db.holder == Some(tx)
    ensures forall other <- next.open :: other != tx && DecidesUnderLock(next.open[other]) ==> Fits(geo, next, other)
  {
    forall other | other in next.open && other != tx && DecidesUnderLock(next.open[other]) ensures Fits(geo, next, other) {
      PendingDecision(geo, db, other);
      assert Fits(geo, db, other);
      assert Recorded(next, other) == Recorded(db, other);
    }
  }

  lemma StagingKeepsSerial(geo: Geography, db: Db, tx: TxId, stage: Stage)
    requires Invariant(geo, db) && IsSerial(geo, db) && tx in db.open
    requires stage.Decided? && NeedsLock(db.open[tx].input.obs) ==> Fits(geo, AtStage(db, tx, stage), tx)
    ensures IsSerial(geo, AtStage(db, tx, stage))
  {
    OthersStillFit(geo, db, AtStage(db, tx, stage), tx);
  }

  lemma LockKeepsSerial(geo: Geography, db: Db, tx: TxId)
    requires Invariant(geo, db) && IsSerial(geo, db) && Enabled(db, Lock(tx))
    ensures IsSerial(geo, Act(geo, db, Lock(tx)))
  {
    OthersStillFit(geo, db, Act(geo, db, Lock(tx)), tx);
  }

  lemma RollbackKeepsSerial(geo: Geography, db: Db, tx: TxId)
    requires Invariant(geo, db) && IsSerial(geo, db)
    ensures IsSerial(geo, Rolled(db, tx))
  {
    OthersStillFit(geo, db, Rolled(db, tx), tx);
  }

  lemma BeginKeepsSerial(geo: Geography, db: Db, tx: TxId, input: Input)
    requires Invariant(geo, db) && IsSerial(geo, db) && tx !in db.open
    ensures IsSerial(geo, db.(open := db.open[tx := Tx(input, Started)]))
  {
    OthersStillFit(geo, db, db.(open := db.open[tx := Tx(input, Started)]), tx);
  }

  lemma DecideKeepsSerial(geo: Geography, db: Db, tx: TxId)
    requires Invariant(geo, db) && IsSerial(geo, db) && Enabled(db, Decide(tx))
    ensures IsSerial(geo, AtStage(db, tx, DecidedOn(geo, db, db.open[tx].input.obs)))
  {
    assert TxIsSound(geo, db, tx);
    DecisionFits(geo, db, tx);
    StagingKeepsSerial(geo, db, tx, DecidedOn(geo, db, db.open[tx].input.obs));
  }

  lemma WriteKeepsSerial(geo: Geography, db: Db, tx: TxId)
    requires Invariant(geo, db) && IsSerial(geo, db) && Enabled(db, Write(tx))
    ensures IsSerial(geo, WriteOf(db, tx))
  {
    if db.open[tx].stage == OnRow {
      OnRowIsKnown(geo, db, tx);
    }
    var written := Written(db.tables, db.open[tx]);
    WriteOfCases(db, tx, written);
    if written.Success? {
      CommitKeepsSerial(geo, db, tx, written.value);
    } else if written.error == IdentityRace {
      StagingKeepsSerial(geo, db, tx, Started);
    } else {
      RollbackKeepsSerial(geo, db, tx);
    }
  }

  lemma ActKeepsSerial(geo: Geography, db: Db, action: Action)
    requires Invariant(geo, db) && IsSerial(geo, db)
    ensures IsSerial(geo, Act(geo, db, action))
  {
    if Enabled(db, action) {
      match action
      case Begin(tx, input) => BeginKeepsSerial(geo, db, tx, input);
      case Look(tx) =>
        var obs := db.open[tx].input.obs;
        StagingKeepsSerial(geo, db, tx, if Known(db.tables, obs.id) then OnRow
                                        else if NeedsLock(obs) then Waiting else Decided(None, db.tables, {}, 0));
      case Lock(tx) => LockKeepsSerial(geo, db, tx);
      case Decide(tx) => DecideKeepsSerial(geo, db, tx);
      case Write(tx) => WriteKeepsSerial(geo, db, tx);
      case Abort(tx) => RollbackKeepsSerial(geo, db, tx);
    }
  }

  lemma {:induction false} EveryInterleavingIsSerial(geo: Geography, actions: seq<Action>)
    ensures IsSerial(geo, Perform(geo, actions))
  {
    if actions == [] {
      assert Events([]) == [];
    } else {
      EveryInterleavingKeepsInvariant(geo, actions[..|actions| - 1]);
      EveryInterleavingIsSerial(geo, actions[..|actions| - 1]);
      ActKeepsSerial(geo, Perform(geo, actions[..|actions| - 1]), actions[|actions| - 1]);
    }
  }

  /** In every interleaving of transactions the tables are, but for the order in which rows were written, those of one run
      of the committed events, one by one; and in that run the holders of the advisory lock come in the order of their
      locks. */
  lemma InterleavingIsSerial(geo: Geography, actions: seq<Action>)
    ensures var db := Perform(geo, actions);
            && SameRows(db.tables, Run(geo, EMPTY, Events(db.history)))
            && LockHolders(db.history) == db.finished && db.finished <= db.granted
  {
    EveryInterleavingIsSerial(geo, actions);
    EveryInterleavingKeepsInvariant(geo, actions);
  }
}
