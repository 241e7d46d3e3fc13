/** The messaging tables as the program keeps them, and the relay that drains the outbox
    (internal/repository/postgres/messaging.go, internal/core/outbox.go). Each method is proved against the functions of
    CoreMessaging and Pipelines. */
module MessagingRepositories {
  import opened Wrappers
  import opened Correlation
  import opened IncidentTables
  import opened Repositories
  import opened Contracts
  import opened CoreMessaging
  import OutboxRelay
  import Pipelines

  class MessagingRepository {
    const store: Repository
    var inbox: seq<InboxRow>
    var outbox: Outbox
    var notifications: seq<Pipelines.NotificationRow>

    constructor (store: Repository)
      ensures this.store == store && inbox == [] && outbox == map[] && notifications == []
    {
      this.store := store;
      inbox, outbox, notifications := [], map[], [];
    }

    function State(): Core
      reads this, store
    {
      Core(store.State(), inbox, outbox)
    }

    method Enqueue(change: Change, mode: string, baselineComplete: bool, now: int)
      modifies this`outbox
      ensures outbox == EnqueueIncidentChange(old(outbox), change, mode, baselineComplete, now)
    {
      var message := NewIncidentChanged(change, mode, baselineComplete, now);
      if message.id.value !in outbox {
        outbox := outbox[message.id.value := OutboxRow(message, change.incident, 0, now, now, None, None, None)];
      }
    }

    /** Inbox row, incident change and outbox row in one transaction; nothing of it after an error. */
    method ApplyProvider(position: Position, message: ProviderObservation, minted: Uuid, receivedAt: int)
      returns (processed: Result<bool, MessageError>)
      modifies this`inbox, this`outbox, store
      ensures match ApplyProviderMessage(store.geo, old(State()), position, message, minted, receivedAt)
              case Success((core, now)) => processed == Success(now) && State() == core
              case Failure(error) => processed == Failure(error) && State() == old(State())
    {
      if position.topic != PROVIDER_OBSERVATIONS_TOPIC || position.partition < 0 || position.offset < 0 {
        return Failure(InvalidPosition);
      }
      if message.id.None? || message.producedAt == 0 || message.mode == "" {
        return Failure(Envelope(IncompleteEnvelope));
      }
      var event := EventOf(message);
      if event.Failure? {
        return Failure(Envelope(event.error));
      }
      if Conflicts(inbox, message.id.value, position) {
        if !IsDuplicate(inbox, message.id.value, position) {
          return Failure(PositionConflict);
        }
        return Success(false);
      }
      var begun := store.State();
      var input := Input(event.value, minted, receivedAt);
      var change := store.Apply(input);
      if change.Failure? {
        store.Rollback(begun);
        return Failure(Storage(change.error));
      }
      inbox := inbox + [InboxRow(message.id.value, position, input)];
      if change.value.kind == Inserted || change.value.kind == Updated {
        Enqueue(change.value, message.mode, message.baselineComplete, receivedAt);
      }
      return Success(true);
    }

    method ApplyIncident(position: Position, message: IncidentChanged) returns (processed: Result<bool, MessageError>)
      modifies this`notifications
      ensures match Pipelines.ApplyIncidentMessage(old(notifications), position, message)
              case Success((rows, now)) => processed == Success(now) && notifications == rows
              case Failure(error) => processed == Failure(error) && notifications == old(notifications)
    {
      if position.topic != INCIDENT_CHANGES_TOPIC || position.partition < 0 || position.offset < 0 {
        return Failure(InvalidPosition);
      }
      if message.id.None? || message.producedAt == 0 {
        return Failure(Envelope(IncompleteEnvelope));
      }
      var change := ChangeOf(message);
      if change.Failure? {
        return Failure(Envelope(change.error));
      }
      if Pipelines.NotificationConflicts(notifications, message.id.value, position) {
        if !Pipelines.IsDuplicateNotification(notifications, message.id.value, position) {
          return Failure(PositionConflict);
        }
        return Success(false);
      }
      notifications := notifications + [Pipelines.NotificationRow(message.id.value, position)];
      return Success(true);
    }

    /** Finds the most overdue of a set of rows. */
    method MostOverdue(ids: set<ChangeId>) returns (first: ChangeId)
      requires ids != {} && ids <= outbox.Keys
      ensures first in ids && forall id <- ids :: DueBefore(outbox[first], outbox[id])
    {
      first :| first in ids;
      var rest := ids - {first};
      while rest != {}
        invariant rest <= ids && first in ids
        invariant forall id <- ids - rest :: DueBefore(outbox[first], outbox[id])
        decreases |rest|
      {
        var id :| id in rest;
        rest := rest - {id};
        if !DueBefore(outbox[first], outbox[id]) {
          first := id;
        }
      }
    }

    /** At most `batch` claimable rows that are not busy: all of them, or none that another one precedes. */
    method DueRows(batch: nat, lockTimeout: int, now: int, busy: set<ChangeId>) returns (ids: set<ChangeId>)
      ensures IsClaim(outbox, ids, busy, batch, lockTimeout, now)
    {
      var due := set id | id in outbox.Keys && id !in busy && Claimable(outbox[id], lockTimeout, now);
      ids := {};
      while due != {} && |ids| < batch
        invariant ids !! due && ids + due <= outbox.Keys && |ids| <= batch
        invariant forall id <- outbox.Keys :: id in ids + due <==> id !in busy && Claimable(outbox[id], lockTimeout, now)
        invariant forall chosen <- ids, other <- due :: DueBefore(outbox[chosen], outbox[other])
        decreases |due|
      {
        var first := MostOverdue(due);
        ids, due := ids + {first}, due - {first};
      }
    }

    /** Locks up to `batch` due rows for a worker, the most overdue first, skipping those that other transactions keep busy. */
    method ClaimCoreOutbox(worker: Worker, batch: int, lockTimeout: int, now: int, busy: set<ChangeId>)
      returns (claimed: Option<set<ChangeId>>)
      modifies this`outbox
      ensures claimed.None? <==> worker == "" || batch <= 0
      ensures claimed.None? ==> outbox == old(outbox)
      ensures claimed.Some? ==> IsClaim(old(outbox), claimed.value, busy, batch, lockTimeout, now)
      ensures claimed.Some? ==> TakesTheMostOverdue(old(outbox), claimed.value, busy, batch, lockTimeout, now)
      ensures claimed.Some? ==> outbox == ClaimAll(old(outbox), claimed.value, worker, now)
      ensures claimed.Some? ==> outbox.Keys == old(outbox).Keys
      ensures claimed.Some? ==> forall id <- old(outbox) ::
                outbox[id] == if id in claimed.value then old(outbox)[id].(lockedAt := Some(now), lockedBy := Some(worker))
                              else old(outbox)[id]
    {
      if worker == "" || batch <= 0 {
        return None;
      }
      var ids := DueRows(batch, lockTimeout, now, busy);
      ClaimTakesTheMostOverdue(outbox, ids, busy, batch, lockTimeout, now);
      outbox := ClaimAll(outbox, ids, worker, now);
      return Some(ids);
    }

    /** Marks a row published; a worker that no longer holds the row learns that it was not found. */
    method CompleteCoreOutbox(id: ChangeId, worker: Worker, now: int) returns (found: bool)
      modifies this`outbox
      ensures found <==> id in old(outbox) && HeldBy(old(outbox)[id], worker)
      ensures outbox == if found then old(outbox)[id := Completed(old(outbox)[id], now)] else old(outbox)
    {
      if id !in outbox || !HeldBy(outbox[id], worker) {
        return false;
      }
      var row := outbox[id];
      outbox := outbox[id := row.(publishedAt := Some(now), lockedAt := None, lockedBy := None, attempts := row.attempts + 1)];
      return true;
    }

    method FailCoreOutbox(id: ChangeId, worker: Worker, nextAttemptAt: int) returns (found: bool)
      modifies this`outbox
      ensures found <==> id in old(outbox) && HeldBy(old(outbox)[id], worker)
      ensures outbox == if found then old(outbox)[id := Failed(old(outbox)[id], nextAttemptAt)] else old(outbox)
    {
      if id !in outbox || !HeldBy(outbox[id], worker) {
        return false;
      }
      var row := outbox[id];
      outbox := outbox[id := row.(lockedAt := None, lockedBy := None, attempts := row.attempts + 1, nextAttemptAt := nextAttemptAt)];
      return true;
    }
  }

  /** One publication: whether the broker appended the record, and whether it acknowledged that. */
  datatype Publication = Publication(record: Pipelines.ChangeRecord, appended: bool, acknowledged: bool)

  /** What publications append to the log. */
  function Appended(publications: seq<Publication>): seq<Pipelines.ChangeRecord> {
    if publications == [] then []
    else
      var last := publications[|publications| - 1];
      Appended(publications[..|publications| - 1]) + if last.appended then [last.record] else []
  }

  /** The broker as a relay sees it: a publication may be appended or not, and an error says nothing about which.
      `publications` is history. */
  class Broker {
    var log: seq<Pipelines.ChangeRecord>
    var publications: seq<Publication>

    method Publish(record: Pipelines.ChangeRecord) returns (acknowledged: bool)
      modifies this
      ensures var appended := |log| > |old(log)|;
              && publications == old(publications) + [Publication(record, appended, acknowledged)]
              && log == old(log) + (if appended then [record] else []) && (acknowledged ==> appended)
    {
      var appended: bool := *;
      acknowledged := *;
      appended := appended || acknowledged;
      if appended {
        log := log + [record];
      }
      publications := publications + [Publication(record, appended, acknowledged)];
    }
  }

  /** A row that a relay was done with by some time from `now` on: completed if the broker acknowledged its message, and put
      off by the backoff of its attempts otherwise. */
  ghost predicate IsSettledBy(before: OutboxRow, after: OutboxRow, p: Publication, now: int) {
    && p.record == Pipelines.RecordOf(before) && (p.acknowledged ==> p.appended)
    && if p.acknowledged then
         after.publishedAt.Some? && after == Completed(before, after.publishedAt.value) && after.publishedAt.value >= now
       else
         after == Failed(before, after.nextAttemptAt) && after.nextAttemptAt >= now + OutboxRelay.Backoff(before.attempts)
  }

  ghost predicate IsSettled(before: OutboxRow, after: OutboxRow, publications: seq<Publication>, now: int) {
    exists p <- publications :: IsSettledBy(before, after, p, now)
  }

  /** Publishes one claimed row, then completes it or puts it off. */
  method PublishAndSettle(repo: MessagingRepository, broker: Broker, worker: Worker, id: ChangeId, now: int)
    returns (ghost publication: Publication)
    requires id in repo.outbox && HeldBy(repo.outbox[id], worker)
    modifies repo`outbox, broker
    ensures broker.publications == old(broker.publications) + [publication]
    ensures broker.log == old(broker.log) + if publication.appended then [publication.record] else []
    ensures id in repo.outbox && repo.outbox == old(repo.outbox)[id := repo.outbox[id]]
    ensures IsSettledBy(old(repo.outbox)[id], repo.outbox[id], publication, now)
  {
    var record := Pipelines.RecordOf(repo.outbox[id]);
    var acknowledged := broker.Publish(record);
    publication := broker.publications[|broker.publications| - 1];
    var later :| later >= 0;
    if acknowledged {
      var _ := repo.CompleteCoreOutbox(id, worker, now + later);
    } else {
      var delay := OutboxRelay.Backoff(repo.outbox[id].attempts);
      var _ := repo.FailCoreOutbox(id, worker, now + later + delay);
    }
  }

  /** A round that has settled the claimed rows but the pending ones. */
  ghost predicate SettledUpTo(before: Outbox, after: Outbox, claimed: set<ChangeId>, pending: set<ChangeId>, worker: Worker,
                              publications: seq<Publication>, now: int)
  {
    && after.Keys == before.Keys && pending <= claimed <= before.Keys && |publications| + |pending| == |claimed|
    && (forall id <- pending :: after[id] == Claimed(before[id], worker, now) && before[id].publishedAt.None?)
    && (forall id <- claimed - pending :: IsSettled(before[id], after[id], publications, now))
    && (forall id <- before :: id !in claimed ==> after[id] == before[id])
  }

  lemma SettlingOneMore(before: Outbox, outbox: Outbox, next: Outbox, claimed: set<ChangeId>, pending: set<ChangeId>,
                        id: ChangeId, worker: Worker, publications: seq<Publication>, p: Publication, now: int)
    requires SettledUpTo(before, outbox, claimed, pending, worker, publications, now) && id in pending
    requires id in next && next == outbox[id := next[id]] && IsSettledBy(outbox[id], next[id], p, now)
    ensures SettledUpTo(before, next, claimed, pending - {id}, worker, publications + [p], now)
  {
    assert Pipelines.RecordOf(outbox[id]) == Pipelines.RecordOf(before[id]);
    assert forall at :: Completed(outbox[id], at) == Completed(before[id], at) && Failed(outbox[id], at) == Failed(before[id], at);
    forall done | done in claimed - (pending - {id}) ensures IsSettled(before[done], next[done], publications + [p], now) {
      if done == id {
        assert p in publications + [p] && IsSettledBy(before[id], next[id], p, now);
      } else {
        assert IsSettled(before[done], outbox[done], publications, now);
        var q :| q in publications && IsSettledBy(before[done], outbox[done], q, now);
        assert q in publications + [p];
      }
    }
  }

  /** What the broker has done since it had the earlier publications and log. */
  ghost predicate IsHistory(broker: Broker, first: seq<Publication>, log: seq<Pipelines.ChangeRecord>, publications: seq<Publication>)
    reads broker
  {
    broker.publications == first + publications && broker.log == log + Appended(publications)
  }

  lemma HistoryGoesOn(broker: Broker, first: seq<Publication>, log: seq<Pipelines.ChangeRecord>, publications: seq<Publication>,
                      p: Publication)
    requires broker.publications == first + publications + [p]
    requires broker.log == log + Appended(publications) + if p.appended then [p.record] else []
    ensures IsHistory(broker, first, log, publications + [p])
  {
    assert (publications + [p])[..|publications|] == publications;
  }

  /** Settles the claimed rows one by one. */
  method SettleClaimed(repo: MessagingRepository, broker: Broker, worker: Worker, claimed: set<ChangeId>, now: int,
                       ghost before: Outbox)
    returns (ghost publications: seq<Publication>)
    requires SettledUpTo(before, repo.outbox, claimed, claimed, worker, [], now)
    modifies repo`outbox, broker
    ensures SettledUpTo(before, repo.outbox, claimed, {}, worker, publications, now)
    ensures broker.publications == old(broker.publications) + publications
    ensures broker.log == old(broker.log) + Appended(publications)
  {
    publications := [];
    var pending := claimed;
    ghost var first, log := broker.publications, broker.log;
    while pending != {}
      invariant IsHistory(broker, first, log, publications)
      invariant SettledUpTo(before, repo.outbox, claimed, pending, worker, publications, now)
      decreases |pending|
    {
      var id :| id in pending;
      ghost var outbox := repo.outbox;
      ghost var p := PublishAndSettle(repo, broker, worker, id, now);
      SettlingOneMore(before, outbox, repo.outbox, claimed, pending, id, worker, publications, p, now);
      HistoryGoesOn(broker, first, log, publications, p);
      pending, publications := pending - {id}, publications + [p];
    }
  }

  /** One round of a relay that starts at `now`: each row that it claims is published once and settled, and no other row
      changes. */
  method ProcessOutbox(repo: MessagingRepository, broker: Broker, worker: Worker, batch: int, lockTimeout: int, now: int,
                       busy: set<ChangeId>)
    returns (ghost claimed: Option<set<ChangeId>>, ghost publications: seq<Publication>)
    modifies repo`outbox, broker
    ensures claimed.None? <==> worker == "" || batch <= 0
    ensures claimed.None? ==> repo.outbox == old(repo.outbox) && publications == []
    ensures claimed.Some? ==> TakesTheMostOverdue(old(repo.outbox), claimed.value, busy, batch, lockTimeout, now)
    ensures claimed.Some? ==> |publications| == |claimed.value|
    ensures broker.publications == old(broker.publications) + publications
    ensures broker.log == old(broker.log) + Appended(publications)
    ensures repo.outbox.Keys == old(repo.outbox).Keys
    ensures claimed.Some? ==>
              forall id <- old(repo.outbox) ::
                if id in claimed.value then IsSettled(old(repo.outbox)[id], repo.outbox[id], publications, now)
                else repo.outbox[id] == old(repo.outbox)[id]
  {
    publications := [];
    var rows := repo.ClaimCoreOutbox(worker, batch, lockTimeout, now, busy);
    claimed := rows;
    if rows.Some? {
      publications := SettleClaimed(repo, broker, worker, rows.value, now, old(repo.outbox));
    }
  }
}
