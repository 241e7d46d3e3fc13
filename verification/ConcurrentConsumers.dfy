/** Consumers whose transactions interleave (internal/core/consumer.go, ApplyProviderMessage in
    internal/repository/postgres/messaging.go). A transaction inserts its inbox row first, which waits for any other that has
    the same message or position under way; then it applies the observation as IngestionLocks does, writes the outbox row of
    the change, and commits. */
module ConcurrentConsumers {
  import opened Wrappers
  import opened Correlation
  import opened IncidentTables
  import opened IncidentHistory
  import opened TableChanges
  import opened IngestionLocks
  import opened IngestionOrder
  import opened CoreMessaging
  import Contracts

  /** A message whose transaction is under way. `after` is history: how many messages had been committed when it began. */
  datatype Job = Job(row: InboxRow, mode: string, baselineComplete: bool, after: nat)

  /** `inbox` and `began` list the committed messages in the order of their commits. `order` is history: the same messages,
      each where IngestionLocks records its event. */
  datatype Consumers = Consumers(db: Db, jobs: map<TxId, Job>, inbox: seq<InboxRow>, began: seq<nat>, order: seq<InboxRow>,
                                 outbox: Outbox)

  datatype Step =
    | Receive(tx: TxId, position: Position, message: Contracts.ProviderObservation, minted: Uuid, now: int)
    | Proceed(action: Action)

  predicate Clash(a: InboxRow, b: InboxRow) {
    a.id == b.id || a.position == b.position
  }

  /** A well-formed message whose inbox row conflicts neither with a committed one nor with one under way. */
  predicate Receivable(c: Consumers, step: Step)
    requires step.Receive?
  {
    && step.tx !in c.db.open && step.now != 0 && Contracts.UnmarshalProviderObservation(step.message).Success?
    && !Conflicts(c.inbox, step.message.id.value, step.position)
    && forall tx <- c.jobs :: !Clash(c.jobs[tx].row, RowOf(step))
  }

  function RowOf(step: Step): InboxRow
    requires step.Receive? && step.message.id.Some?
  {
    InboxRow(step.message.id.value, step.position, Input(step.message.observation, step.minted, step.now))
  }

  ghost predicate Commits(db: Db, action: Action) {
    && action.Write? && Enabled(db, action) && Written.requires(db.tables, db.open[action.tx])
    && Written(db.tables, db.open[action.tx]).Success?
  }

  /** The messages with the transaction's own where its event is recorded. */
  function Placed(c: Consumers, tx: TxId): seq<InboxRow>
    requires tx in c.db.open && tx in c.jobs
  {
    if c.db.open[tx].stage.Decided? && c.db.holder == Some(tx) then
      InsertedAt(c.order, c.db.open[tx].stage.mark, c.jobs[tx].row)
    else
      c.order + [c.jobs[tx].row]
  }

  /** The inbox row, the incident's tables and the outbox row are committed together. */
  ghost function Committing(c: Consumers, tx: TxId): Consumers
    requires Commits(c.db, Write(tx)) && tx in c.jobs
  {
    var outcome, job := Written(c.db.tables, c.db.open[tx]).value, c.jobs[tx];
    Consumers(CommittedDb(c.db, tx, outcome), c.jobs - {tx}, c.inbox + [job.row], c.began + [job.after], Placed(c, tx),
              Publishable(c.outbox, outcome.change, job.mode, job.baselineComplete, job.row.input.now))
  }

  /** Nothing was committed; transactions may have ended. */
  function Moved(c: Consumers, db: Db): Consumers {
    c.(db := db, jobs := map tx | tx in c.jobs && tx in db.open :: c.jobs[tx])
  }

  ghost function Next(geo: Geography, c: Consumers, step: Step): Consumers {
    match step
    case Receive(tx, _, message, _, _) =>
      if Receivable(c, step) then
        c.(db := Act(geo, c.db, Begin(tx, RowOf(step).input)),
           jobs := c.jobs[tx := Job(RowOf(step), message.mode, message.baselineComplete, |c.inbox|)])
      else
        c
    case Proceed(action) =>
      if action.Begin? then
        c
      else if Commits(c.db, action) && action.tx in c.jobs then
        Committing(c, action.tx)
      else
        Moved(c, Act(geo, c.db, action))
  }

  const QUIET: Consumers := Consumers(START, map[], [], [], [], map[])

  ghost function Execute(geo: Geography, steps: seq<Step>): Consumers {
    if steps == [] then QUIET
    else Next(geo, Execute(geo, steps[..|steps| - 1]), steps[|steps| - 1])
  }

  // ----- What every interleaving keeps -----

  /** Each open transaction works on a well-formed message. */
  ghost predicate JobsAreBound(c: Consumers) {
    && c.jobs.Keys == c.db.open.Keys
    && forall tx <- c.jobs ::
         && c.jobs[tx].row.input == c.db.open[tx].input && c.jobs[tx].row.input.now != 0
         && c.jobs[tx].after <= |c.inbox| && Contracts.ValidIngestionMode(c.jobs[tx].mode)
  }

  /** No two of them work on one message or position, nor on a committed one. */
  ghost predicate JobsAreApart(jobs: map<TxId, Job>, inbox: seq<InboxRow>) {
    && (forall tx <- jobs :: !Conflicts(inbox, jobs[tx].row.id, jobs[tx].row.position))
    && (forall tx, other | tx in jobs && other in jobs && tx != other :: !Clash(jobs[tx].row, jobs[other].row))
  }

  /** The recorded order lists the committed messages and stands for the history of events. */
  ghost predicate OrderIsRecorded(c: Consumers) {
    Inputs(c.order) == Events(c.db.history) && multiset(c.order) == multiset(c.inbox)
  }

  predicate AreAt(order: seq<InboxRow>, i: int, j: int, a: InboxRow, b: InboxRow) {
    0 <= i < j < |order| && order[i] == a && order[j] == b
  }

  ghost predicate Precedes(order: seq<InboxRow>, a: InboxRow, b: InboxRow) {
    exists i, j :: AreAt(order, i, j, a, b)
  }

  /** Of two messages of which one was committed before the other began, the first comes first. */
  ghost predicate OrderIsTimely(c: Consumers) {
    && |c.began| == |c.inbox| && (forall j :: 0 <= j < |c.inbox| ==> c.began[j] <= |c.inbox|)
    && forall i, j :: 0 <= i < |c.inbox| && 0 <= j < |c.inbox| && i < c.began[j] ==> Precedes(c.order, c.inbox[i], c.inbox[j])
  }

  /** The holder of the lock has decided after all that was committed when it began. */
  ghost predicate DecisionsAreTimely(c: Consumers) {
    forall tx <- c.jobs :: tx in c.db.open && c.db.open[tx].stage.Decided? && c.db.holder == Some(tx) ==>
      && c.db.open[tx].stage.mark <= |c.order| && c.jobs[tx].after <= |c.inbox|
      && forall i :: 0 <= i < c.jobs[tx].after ==> c.inbox[i] in c.order[..c.db.open[tx].stage.mark]
  }

  ghost predicate ConsumersInvariant(geo: Geography, c: Consumers) {
    && Invariant(geo, c.db) && IsSerial(geo, c.db)
    && JobsAreBound(c) && JobsAreApart(c.jobs, c.inbox) && DistinctInbox(c.inbox)
    && OrderIsRecorded(c) && OrderIsTimely(c) && DecisionsAreTimely(c)
    && OutboxIsComplete(Core(c.db.tables, [], c.outbox))
  }

  // ----- A commit -----

  lemma {:induction false} InsertedOnce<T>(order: seq<T>, place: nat, entry: T)
    ensures multiset(InsertedAt(order, place, entry)) == multiset(order + [entry])
  {
    if place <= |order| {
      assert order == order[..place] + order[place..];
    }
  }

  lemma InsertedInputs(order: seq<InboxRow>, history: seq<Entry>, place: nat, row: InboxRow, entry: Entry)
    requires Inputs(order) == Events(history) && row.input == entry.input
    ensures Inputs(InsertedAt(order, place, row)) == Events(InsertedAt(history, place, entry))
  {
    assert |order| == |Inputs(order)| == |Events(history)| == |history|;
    var a, b := InsertedAt(order, place, row), InsertedAt(history, place, entry);
    forall k | 0 <= k < |a| ensures a[k].input == b[k].input {
      if place <= |order| {
        if k < place {
          assert Inputs(order)[k] == Events(history)[k];
        } else if k > place {
          assert Inputs(order)[k - 1] == Events(history)[k - 1];
        }
      } else if k < |order| {
        assert Inputs(order)[k] == Events(history)[k];
      }
    }
  }

  lemma CommitKeepsRecord(c: Consumers, tx: TxId)
    requires OrderIsRecorded(c) && JobsAreBound(c) && Commits(c.db, Write(tx)) && tx in c.jobs
    ensures OrderIsRecorded(Committing(c, tx))
  {
    var place := if c.db.open[tx].stage.Decided? && c.db.holder == Some(tx) then c.db.open[tx].stage.mark else |c.order| + 1;
    assert |c.order| == |Inputs(c.order)| == |Events(c.db.history)| == |c.db.history|;
    InsertedOnce(c.order, place, c.jobs[tx].row);
    InsertedInputs(c.order, c.db.history, place, c.jobs[tx].row, Entry(tx, c.db.open[tx].input, c.db.holder == Some(tx)));
  }

  /** Inserting a message keeps the order of the others. */
  lemma InsertedKeepsPrecedes(order: seq<InboxRow>, place: nat, row: InboxRow, a: InboxRow, b: InboxRow)
    requires Precedes(order, a, b)
    ensures Precedes(InsertedAt(order, place, row), a, b)
  {
    var i, j :| AreAt(order, i, j, a, b);
    var x := if place <= i && place <= |order| then i + 1 else i;
    var y := if place <= j && place <= |order| then j + 1 else j;
    assert AreAt(InsertedAt(order, place, row), x, y, a, b);
  }

  lemma InsertedComesAfter(order: seq<InboxRow>, place: nat, row: InboxRow, a: InboxRow)
    requires a in order[..if place <= |order| then place else |order|]
    ensures Precedes(InsertedAt(order, place, row), a, row)
  {
    var end := if place <= |order| then place else |order|;
    var i :| 0 <= i < end && order[..end][i] == a;
    assert AreAt(InsertedAt(order, place, row), i, end, a, row);
  }

  lemma CommittedAreOrdered(c: Consumers)
    requires OrderIsRecorded(c)
    ensures forall row <- c.inbox :: row in c.order
  {
    forall row | row in c.inbox ensures row in c.order {
      assert row in multiset(c.order);
    }
  }

  lemma InsertedIsTimely(order: seq<InboxRow>, place: nat, inbox: seq<InboxRow>, began: seq<nat>, row: InboxRow, after: nat)
    requires |began| == |inbox| && after <= |inbox|
    requires forall i, j :: 0 <= i < |inbox| && 0 <= j < |inbox| && i < began[j] ==> Precedes(order, inbox[i], inbox[j])
    requires forall i :: 0 <= i < after ==> inbox[i] in order[..if place <= |order| then place else |order|]
    ensures forall i, j :: 0 <= i < |inbox| && 0 <= j < |inbox| && i < began[j] ==>
              Precedes(InsertedAt(order, place, row), inbox[i], inbox[j])
    ensures forall i :: 0 <= i < after ==> Precedes(InsertedAt(order, place, row), inbox[i], row)
  {
    forall i, j | 0 <= i < |inbox| && 0 <= j < |inbox| && i < began[j]
      ensures Precedes(InsertedAt(order, place, row), inbox[i], inbox[j])
    {
      InsertedKeepsPrecedes(order, place, row, inbox[i], inbox[j]);
    }
    forall i | 0 <= i < after ensures Precedes(InsertedAt(order, place, row), inbox[i], row) {
      InsertedComesAfter(order, place, row, inbox[i]);
    }
  }

  lemma OneMoreIsTimely(order: seq<InboxRow>, inbox: seq<InboxRow>, began: seq<nat>, row: InboxRow, after: nat)
    requires |began| == |inbox| && after <= |inbox|
    requires forall i, j :: 0 <= i < |inbox| && 0 <= j < |inbox| && i < began[j] ==> Precedes(order, inbox[i], inbox[j])
    requires forall i :: 0 <= i < after ==> Precedes(order, inbox[i], row)
    requires forall j :: 0 <= j < |inbox| ==> began[j] <= |inbox|
    ensures forall i, j | 0 <= i <= |inbox| && 0 <= j <= |inbox| && i < (began + [after])[j] ::
              Precedes(order, (inbox + [row])[i], (inbox + [row])[j])
  {
  }

  lemma CommitIsTimely(c: Consumers, tx: TxId)
    requires OrderIsRecorded(c) && OrderIsTimely(c) && DecisionsAreTimely(c) && JobsAreBound(c)
    requires Commits(c.db, Write(tx)) && tx in c.jobs
    ensures OrderIsTimely(Committing(c, tx))
  {
    var row, after := c.jobs[tx].row, c.jobs[tx].after;
    var place := if c.db.open[tx].stage.Decided? && c.db.holder == Some(tx) then c.db.open[tx].stage.mark else |c.order| + 1;
    CommittedAreOrdered(c);
    assert c.order[..|c.order|] == c.order;
    InsertedIsTimely(c.order, place, c.inbox, c.began, row, after);
    OneMoreIsTimely(InsertedAt(c.order, place, row), c.inbox, c.began, row, after);
  }

  lemma CommitKeepsDecisions(c: Consumers, tx: TxId)
    requires DecisionsAreTimely(c) && JobsAreBound(c) && Commits(c.db, Write(tx)) && tx in c.jobs
    ensures DecisionsAreTimely(Committing(c, tx))
  {
    var next := Committing(c, tx);
    forall other | other in next.jobs && other in next.db.open && next.db.open[other].stage.Decided? && next.db.holder == Some(other)
      ensures next.db.open[other].stage.mark <= |next.order| && next.jobs[other].after <= |next.inbox|
      ensures forall i :: 0 <= i < next.jobs[other].after ==> next.inbox[i] in next.order[..next.db.open[other].stage.mark]
    {
      var mark := c.db.open[other].stage.mark;
      assert next.order == c.order + [c.jobs[tx].row];
      assert next.order[..mark] == c.order[..mark];
    }
  }

  lemma CommitKeepsJobs(c: Consumers, tx: TxId)
    requires JobsAreBound(c) && Commits(c.db, Write(tx)) && tx in c.jobs
    ensures JobsAreBound(Committing(c, tx))
  {
  }

  lemma CommitKeepsApart(jobs: map<TxId, Job>, inbox: seq<InboxRow>, tx: TxId)
    requires JobsAreApart(jobs, inbox) && DistinctInbox(inbox) && tx in jobs
    ensures JobsAreApart(jobs - {tx}, inbox + [jobs[tx].row]) && DistinctInbox(inbox + [jobs[tx].row])
  {
    ProcessedKeepsInbox(inbox, jobs[tx].row);
    forall other | other in jobs - {tx} ensures !Conflicts(inbox + [jobs[tx].row], jobs[other].row.id, jobs[other].row.position) {
      assert !Clash(jobs[other].row, jobs[tx].row);
    }
  }

  lemma CommitKeepsDb(geo: Geography, db: Db, tx: TxId)
    requires Invariant(geo, db) && IsSerial(geo, db) && Commits(db, Write(tx))
    ensures var next := CommittedDb(db, tx, Written(db.tables, db.open[tx]).value); Invariant(geo, next) && IsSerial(geo, next)
  {
    assert TxIsSound(geo, db, tx);
    WriteIsSound(geo, db, tx);
    CommitKeepsInvariant(geo, db, tx, Written(db.tables, db.open[tx]).value);
    CommitKeepsSerial(geo, db, tx, Written(db.tables, db.open[tx]).value);
  }

  lemma CommitKeepsOutbox(geo: Geography, c: Consumers, tx: TxId)
    requires Invariant(geo, c.db) && JobsAreBound(c) && OutboxIsComplete(Core(c.db.tables, [], c.outbox))
    requires Commits(c.db, Write(tx)) && tx in c.jobs
    ensures OutboxIsComplete(Core(Committing(c, tx).db.tables, [], Committing(c, tx).outbox))
  {
    assert TxIsSound(geo, c.db, tx);
    WriteIsSound(geo, c.db, tx);
    var t, outcome, job := c.db.tables, Written(c.db.tables, c.db.open[tx]).value, c.jobs[tx];
    StepReportsVersion(t, outcome.tables, outcome.change, c.db.open[tx].input.obs.id);
    PublishableKeepsComplete(t, outcome.tables, c.outbox, outcome.change, c.db.open[tx].input.obs.id,
                             job.mode, job.baselineComplete, job.row.input.now);
  }

  lemma CommitKeepsConsumers(geo: Geography, c: Consumers, tx: TxId)
    requires ConsumersInvariant(geo, c) && Commits(c.db, Write(tx)) && tx in c.jobs
    ensures ConsumersInvariant(geo, Committing(c, tx))
  {
    CommitKeepsDb(geo, c.db, tx);
    CommitKeepsJobs(c, tx);
    CommitKeepsApart(c.jobs, c.inbox, tx);
    CommitKeepsRecord(c, tx);
    CommitIsTimely(c, tx);
    CommitKeepsDecisions(c, tx);
    CommitKeepsOutbox(geo, c, tx);
  }

  // ----- The other steps -----

  lemma ReceivedIsValid(message: Contracts.ProviderObservation)
    requires Contracts.UnmarshalProviderObservation(message).Success?
    ensures message.id.Some? && Contracts.ValidIngestionMode(message.mode)
  {
  }

  lemma ReceiveKeepsJobs(geo: Geography, c: Consumers, step: Step)
    requires JobsAreBound(c) && step.Receive? && Receivable(c, step)
    ensures JobsAreBound(Next(geo, c, step))
  {
    ReceivedIsValid(step.message);
  }

  lemma ReceiveKeepsApart(jobs: map<TxId, Job>, inbox: seq<InboxRow>, tx: TxId, job: Job)
    requires JobsAreApart(jobs, inbox) && tx !in jobs && !Conflicts(inbox, job.row.id, job.row.position)
    requires forall other <- jobs :: !Clash(jobs[other].row, job.row)
    ensures JobsAreApart(jobs[tx := job], inbox)
  {
  }

  lemma ReceiveKeepsDecisions(geo: Geography, c: Consumers, step: Step)
    requires DecisionsAreTimely(c) && step.Receive? && Receivable(c, step)
    ensures DecisionsAreTimely(Next(geo, c, step))
  {
  }

  lemma ReceiveKeepsConsumers(geo: Geography, c: Consumers, step: Step)
    requires ConsumersInvariant(geo, c) && step.Receive? && Receivable(c, step)
    ensures ConsumersInvariant(geo, Next(geo, c, step))
  {
    var begin := Begin(step.tx, RowOf(step).input);
    ActKeepsInvariant(geo, c.db, begin);
    ActKeepsSerial(geo, c.db, begin);
    BeginChangesNoRow(geo, c.db, step.tx, RowOf(step).input);
    ReceiveKeepsJobs(geo, c, step);
    ReceiveKeepsApart(c.jobs, c.inbox, step.tx, Next(geo, c, step).jobs[step.tx]);
    ReceiveKeepsDecisions(geo, c, step);
  }

  lemma BeginChangesNoRow(geo: Geography, db: Db, tx: TxId, input: Input)
    ensures Act(geo, db, Begin(tx, input)).tables == db.tables && Act(geo, db, Begin(tx, input)).history == db.history
  {
  }

  /** What an action other than a commit changes of the transactions. */
  ghost predicate Stages(db: Db, next: Db) {
    && next.tables == db.tables && next.history == db.history && next.open.Keys <= db.open.Keys
    && (forall tx <- next.open :: next.open[tx].input == db.open[tx].input)
    && forall tx <- next.open :: next.open[tx].stage.Decided? && next.holder == Some(tx) ==>
         next.open[tx].stage.mark == |db.history| || (next.open[tx] == db.open[tx] && db.holder == Some(tx))
  }

  lemma WriteStages(geo: Geography, db: Db, tx: TxId)
    requires Invariant(geo, db) && Enabled(db, Write(tx)) && !Commits(db, Write(tx))
    ensures Stages(db, Act(geo, db, Write(tx)))
  {
    assert TxIsSound(geo, db, tx);
    var written := Written(db.tables, db.open[tx]);
    WriteOfCases(db, tx, written);
    var next := if written.error == IdentityRace then AtStage(db, tx, Started) else Rolled(db, tx);
    assert Act(geo, db, Write(tx)) == next;
  }

  lemma LookStages(geo: Geography, db: Db, tx: TxId)
    requires Invariant(geo, db) && Enabled(db, Look(tx))
    ensures Stages(db, Act(geo, db, Look(tx)))
  {
    assert TxIsSound(geo, db, tx);
    assert db.holder.Some? ==> NeedsLock(db.open[db.holder.value].input.obs);
  }

  lemma LockStages(geo: Geography, db: Db, tx: TxId)
    requires Invariant(geo, db) && Enabled(db, Lock(tx))
    ensures Stages(db, Act(geo, db, Lock(tx)))
  {
  }

  lemma ActStages(geo: Geography, db: Db, action: Action)
    requires Invariant(geo, db) && !action.Begin? && !Commits(db, action)
    ensures Stages(db, Act(geo, db, action))
  {
    if Enabled(db, action) {
      match action
      case Write(tx) => WriteStages(geo, db, tx);
      case Look(tx) => LookStages(geo, db, tx);
      case Lock(tx) => LockStages(geo, db, tx);
      case _ =>
    }
  }

  lemma StagingKeepsDecisions(c: Consumers, db: Db)
    requires JobsAreBound(c) && OrderIsRecorded(c) && DecisionsAreTimely(c) && Stages(c.db, db)
    ensures DecisionsAreTimely(Moved(c, db))
  {
    CommittedAreOrdered(c);
    assert |c.order| == |Inputs(c.order)| == |Events(c.db.history)| == |c.db.history|;
    assert c.order[..|c.order|] == c.order;
  }

  lemma StagingKeepsJobs(c: Consumers, db: Db)
    requires JobsAreBound(c) && JobsAreApart(c.jobs, c.inbox) && Stages(c.db, db)
    ensures JobsAreBound(Moved(c, db)) && JobsAreApart(Moved(c, db).jobs, c.inbox)
  {
  }

  lemma StagingKeepsConsumers(geo: Geography, c: Consumers, db: Db)
    requires ConsumersInvariant(geo, c) && Stages(c.db, db) && Invariant(geo, db) && IsSerial(geo, db)
    ensures ConsumersInvariant(geo, Moved(c, db))
  {
    StagingKeepsJobs(c, db);
    StagingKeepsDecisions(c, db);
  }

  lemma ProceedKeepsConsumers(geo: Geography, c: Consumers, action: Action)
    requires ConsumersInvariant(geo, c) && !action.Begin?
    ensures ConsumersInvariant(geo, Next(geo, c, Proceed(action)))
  {
    if Commits(c.db, action) {
      CommitKeepsConsumers(geo, c, action.tx);
    } else {
      ActKeepsInvariant(geo, c.db, action);
      ActKeepsSerial(geo, c.db, action);
      ActStages(geo, c.db, action);
      StagingKeepsConsumers(geo, c, Act(geo, c.db, action));
    }
  }

  lemma {:induction false} EveryRunKeepsConsumers(geo: Geography, steps: seq<Step>)
    ensures ConsumersInvariant(geo, Execute(geo, steps))
  {
    if steps == [] {
      EveryInterleavingKeepsInvariant(geo, []);
      EveryInterleavingIsSerial(geo, []);
      assert Inputs([]) == Events([]);
    } else {
      var c, step := Execute(geo, steps[..|steps| - 1]), steps[|steps| - 1];
      EveryRunKeepsConsumers(geo, steps[..|steps| - 1]);
      if step.Receive? {
        if Receivable(c, step) {
          ReceiveKeepsConsumers(geo, c, step);
        }
      } else if !step.action.Begin? {
        ProceedKeepsConsumers(geo, c, step.action);
      }
    }
  }

  /** However the transactions of consumers interleave, the committed messages can be put in an order in which applying them
      one by one gives the tables, but for the order of rows; what was committed before another began comes before it. No
      message or position was committed twice, and the outbox holds exactly the versions of the incidents. */
  lemma InterleavedConsumptionIsAFold(geo: Geography, steps: seq<Step>)
    ensures var c := Execute(geo, steps);
            && multiset(c.order) == multiset(c.inbox) && SameRows(c.db.tables, Run(geo, EMPTY, Inputs(c.order)))
            && OrderIsTimely(c) && DistinctInbox(c.inbox)
            && OutboxIsComplete(Core(c.db.tables, c.inbox, c.outbox))
  {
    EveryRunKeepsConsumers(geo, steps);
  }
}
