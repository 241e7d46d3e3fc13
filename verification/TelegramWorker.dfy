/** The worker that brings one claimed Telegram alert to its desired version (internal/notification/worker.go). One call
    of it is a call to Telegram and a result, in the terms of TelegramAlerts. */
module TelegramWorkers {
  import opened Wrappers
  import opened TelegramAlerts
  import opened NotificationRepositories
  import OutboxRelay

  /** One call: a send, or an edit of a message, with the text, the message that it took effect on, if any, and whether
      Telegram confirmed that. */
  datatype Exchange = Exchange(edited: Option<MessageId>, text: string, effect: Option<MessageId>, confirmed: bool)

  /** Telegram as a worker sees it: a send or edit may take effect or not, and an error says nothing about which.
      `exchanges` is history. */
  class TelegramClient {
    var messages: map<MessageId, string>
    var exchanges: seq<Exchange>

    method Send(payload: string) returns (confirmed: Option<MessageId>, ghost created: Option<MessageId>)
      modifies this
      ensures created.None? ==> confirmed.None? && messages == old(messages)
      ensures created.Some? ==> created.value !in old(messages) && messages == old(messages)[created.value := payload]
      ensures confirmed.Some? ==> created == confirmed
      ensures exchanges == old(exchanges) + [Exchange(None, payload, created, confirmed.Some?)]
    {
      confirmed := None;
      var sent: Option<MessageId> := None;
      if * {
        var id := Unused(messages.Keys);
        messages := messages[id := payload];
        sent := Some(id);
        if * {
          confirmed := Some(id);
        }
      }
      created := sent;
      exchanges := exchanges + [Exchange(None, payload, sent, confirmed.Some?)];
    }

    static method Unused(ids: set<MessageId>) returns (id: MessageId)
      ensures id !in ids
    {
      id := 1;
      ghost var left := set other | other in ids && other >= id;
      while id in ids
        invariant left == set other | other in ids && other >= id
        decreases left
      {
        assert id in left;
        id := id + 1;
        left := set other | other in ids && other >= id;
      }
    }

    method Edit(id: MessageId, payload: string) returns (confirmed: bool, ghost applied: bool)
      modifies this
      ensures messages == if applied then old(messages)[id := payload] else old(messages)
      ensures confirmed ==> applied
      ensures exchanges == old(exchanges) + [Exchange(Some(id), payload, if applied then Some(id) else None, confirmed)]
    {
      confirmed := false;
      var edited := false;
      if * {
        messages := messages[id := payload];
        edited := true;
        confirmed := *;
      }
      applied := edited;
      exchanges := exchanges + [Exchange(Some(id), payload, if edited then Some(id) else None, confirmed)];
    }
  }

  const HOUR: int := 3600 * OutboxRelay.SECOND

  /** Five seconds doubled with every attempt up to the tenth, at most an hour. */
  function RetryCeiling(attempt: nat): int
    requires attempt >= 1
  {
    var delay := 5 * OutboxRelay.SECOND * OutboxRelay.PowerOfTwo(if attempt - 1 < 9 then attempt - 1 else 9);
    if delay > HOUR then HOUR else delay
  }

  /** The upper half of the ceiling, with jitter. */
  method RetryDelay(attempt: nat) returns (delay: int)
    requires attempt >= 1
    ensures RetryCeiling(attempt) / 2 <= delay <= RetryCeiling(attempt)
  {
    var half := RetryCeiling(attempt) / 2;
    var jitter: int :| 0 <= jitter <= half;
    delay := half + jitter;
  }

  /** Delays never shrink from one attempt to the next by more than the jitter, and the documented cap of one hour is
      never reached: the tenth attempt and all later ones wait at most 2560 seconds. */
  lemma CeilingsGrowBelowTheCap(attempt: nat)
    requires attempt >= 1
    ensures RetryCeiling(attempt) <= RetryCeiling(attempt + 1) <= 2 * RetryCeiling(attempt)
    ensures RetryCeiling(1) == 5_000_000_000
    ensures RetryCeiling(attempt + 1) == if attempt < 10 then 2 * RetryCeiling(attempt) else RetryCeiling(attempt)
    ensures 5_000_000_000 <= RetryCeiling(attempt) <= 2560_000_000_000 < HOUR
  {
    if attempt <= 9 {
      assert OutboxRelay.PowerOfTwo(attempt) == 2 * OutboxRelay.PowerOfTwo(attempt - 1);
      OutboxRelay.PowersGrow(attempt - 1, 9);
      OutboxRelay.PowersGrow(attempt, 9);
    }
    OutboxRelay.PowersGrow(0, if attempt - 1 < 9 then attempt - 1 else 9);
    assert OutboxRelay.PowerOfTwo(3) == 8;
    assert OutboxRelay.PowerOfTwo(6) == 64;
    assert OutboxRelay.PowerOfTwo(9) == 512;
  }

  /** The worker's view of the row, and Telegram's messages, as a state of the protocol. */
  ghost predicate Shows(w: World, repo: NotificationRepository, telegram: TelegramClient, key: AlertKey)
    reads repo, telegram
  {
    w.alert == Lookup(repo.alerts, key) && w.remote == telegram.messages
  }

  ghost function Called(setting: Setting, w: World, call: Option<Action>): World {
    if call.Some? then Act(setting, w, call.value) else w
  }

  /** The action that an exchange is. */
  function ActionOf(worker: Worker, e: Exchange): Option<Action> {
    match e.effect
    case None => None
    case Some(id) => Some(if e.edited.None? then Send(worker, id, e.confirmed) else Edit(worker, e.confirmed))
  }

  /** Delivers what the worker read, in one call to Telegram, if `readable` tells that the payload can be rendered: it sends a
      message, or edits the one that the row stores. Then it completes the row if and only if Telegram confirmed. */
  method DeliverTelegramAlert(repo: NotificationRepository, telegram: TelegramClient, setting: Setting, key: AlertKey,
                              worker: Worker, read: Alert, readable: bool, retryAfter: int, now: int, finishedAt: int,
                              ghost w: World)
    returns (ghost call: Option<Action>, ghost result: Action)
    requires Shows(w, repo, telegram, key) && w.alert.Some? && worker in w.hands && w.hands[worker] == Hand(read, false, None)
    modifies repo`alerts, telegram
    ensures old(telegram.exchanges) <= telegram.exchanges
    ensures var exchanges := telegram.exchanges[|old(telegram.exchanges)|..];
            if readable then
              && |exchanges| == 1 && exchanges[0].edited == read.messageId && exchanges[0].text == read.desired.payload
              && call == ActionOf(worker, exchanges[0]) && (result.Complete? <==> exchanges[0].confirmed)
            else
              exchanges == [] && call == None && result.Fail?
    ensures call.Some? ==> Enabled(setting, w, call.value)
    ensures Enabled(setting, Called(setting, w, call), result)
    ensures result == Complete(worker, finishedAt) <==> call.Some? && call.value.confirmed
    ensures !result.Complete? ==>
              result.Fail? && result.worker == worker
              && if retryAfter > 0 then
                   result.nextAttemptAt == now + retryAfter
                 else
                   RetryCeiling(read.attempts + 1) / 2 <= result.nextAttemptAt - now <= RetryCeiling(read.attempts + 1)
    ensures Shows(Act(setting, Called(setting, w, call), result), repo, telegram, key)
    ensures repo.alerts.Keys == old(repo.alerts).Keys
    ensures forall other <- old(repo.alerts) :: other != key ==> repo.alerts[other] == old(repo.alerts)[other]
  {
    var attempt := read.attempts + 1;
    var confirmed: Option<MessageId> := None;
    call := None;
    if readable {
      if read.messageId.None? {
        ghost var created;
        confirmed, created := telegram.Send(read.desired.payload);
        if created.Some? {
          call := Some(Send(worker, created.value, confirmed.Some?));
        }
      } else {
        var edited;
        ghost var applied;
        edited, applied := telegram.Edit(read.messageId.value, read.desired.payload);
        if applied {
          call := Some(Edit(worker, edited));
        }
        if edited {
          confirmed := read.messageId;
        }
      }
    }
    if confirmed.Some? {
      result := Complete(worker, finishedAt);
      var _ := repo.CompleteAlert(key, read.desired.version, confirmed.value, attempt, finishedAt);
    } else {
      var delay := RetryDelay(attempt);
      if retryAfter > 0 {
        delay := retryAfter;
      }
      result := Fail(worker, now + delay);
      var _ := repo.FailAlert(key, attempt, now + delay, attempt >= setting.maxAttempts);
    }
  }
}
