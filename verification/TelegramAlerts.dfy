/** One Telegram alert: the desired and delivered versions of a message about an incident
    (internal/repository/postgres/telegram_alert.go, internal/notification/worker.go). Any number of workers claim it,
    call Telegram, and store the result; upserts arrive at any time. A message shows the payload it was last given. */
module TelegramAlerts {
  import opened Wrappers
  import opened Solutions

  type Worker = string
  type MessageId = int

  /** What a version of an incident should look like. */
  datatype Content = Content(version: nat, payload: string, lifecycle: Lifecycle)

  datatype Status = PendingSend | PendingEdit | Processing | Active | Retry | Dead

  /** A row of telegram_alert_messages. */
  datatype Alert = Alert(messageId: Option<MessageId>, desired: Content, delivered: Option<nat>, status: Status,
                         attempts: nat, nextAttemptAt: int, lockedAt: Option<int>, lockedBy: Option<Worker>)

  // ----- Statements -----

  function Inserted(content: Content, now: int): Alert {
    Alert(None, content, None, PendingSend, 0, now, None, None)
  }

  /** Only a newer version changes what is desired; it may reopen a row that a worker is busy with. */
  function Upserted(a: Alert, content: Content, now: int): Alert {
    if content.version <= a.desired.version then
      a
    else
      a.(desired := content,
         status := if a.messageId.None? then PendingSend else PendingEdit,
         nextAttemptAt := if now < a.nextAttemptAt then now else a.nextAttemptAt)
  }

  predicate IsDue(a: Alert, lockTimeout: int, now: int) {
    || ((a.status == PendingSend || a.status == PendingEdit || a.status == Retry) && a.nextAttemptAt <= now)
    || (a.status == Processing && a.lockedAt.Some? && a.lockedAt.value < now - lockTimeout)
  }

  function Claimed(a: Alert, worker: Worker, now: int): Alert {
    a.(status := Processing, lockedAt := Some(now), lockedBy := Some(worker))
  }

  function Completed(a: Alert, version: nat, messageId: MessageId, attempt: nat, now: int): Alert {
    a.(messageId := if a.messageId.None? then Some(messageId) else a.messageId,
       delivered := Some(if a.delivered.GetOr(0) > version then a.delivered.GetOr(0) else version),
       status := if a.desired.version > version then PendingEdit else Active,
       attempts := attempt, nextAttemptAt := now, lockedAt := None, lockedBy := None)
  }

  function Failed(a: Alert, attempt: nat, nextAttemptAt: int, dead: bool): Alert {
    a.(status := if dead then Dead else Retry, attempts := attempt, nextAttemptAt := nextAttemptAt,
       lockedAt := None, lockedBy := None)
  }

  // ----- Steps -----

  /** A worker at work on the row: what it read, whether its one call to Telegram took effect, and the message that
      Telegram confirmed to it. */
  datatype Hand = Hand(read: Alert, called: bool, confirmed: Option<MessageId>)

  /** `remote` is what Telegram shows. `upserts` and `last` are history: all that was ever desired, and what the worker that
      made the last call on a message had read. */
  datatype World = World(alert: Option<Alert>, upserts: set<Content>, hands: map<Worker, Hand>, remote: map<MessageId, string>,
                         last: map<MessageId, Content>)

  datatype Setting = Setting(lockTimeout: nat, maxAttempts: nat)

  datatype Action =
    | Upsert(content: Content, now: int)
    | Claim(worker: Worker, now: int)
    | Send(worker: Worker, messageId: MessageId, confirmed: bool)
    | Edit(worker: Worker, confirmed: bool)
    | Complete(worker: Worker, now: int)
    | Fail(worker: Worker, nextAttemptAt: int)
    | Crash(worker: Worker)

  ghost predicate Enabled(setting: Setting, w: World, action: Action) {
    match action
    case Upsert(content, _) => content.version >= 1
    case Claim(worker, now) => w.alert.Some? && worker !in w.hands && IsDue(w.alert.value, setting.lockTimeout, now)
    case Send(worker, messageId, _) =>
      worker in w.hands && !w.hands[worker].called && w.hands[worker].read.messageId.None? && messageId !in w.remote
    case Edit(worker, _) =>
      worker in w.hands && !w.hands[worker].called && w.hands[worker].read.messageId.Some?
    case Complete(worker, _) => w.alert.Some? && worker in w.hands && w.hands[worker].confirmed.Some?
    case Fail(worker, _) => w.alert.Some? && worker in w.hands && w.hands[worker].confirmed.None?
    case Crash(worker) => true
  }

  function Confirm(hand: Hand, messageId: MessageId, confirmed: bool): Hand {
    hand.(called := true, confirmed := if confirmed then Some(messageId) else None)
  }

  /** The message shows what the worker had read. */
  function Call(w: World, worker: Worker, messageId: MessageId, confirmed: bool): World
    requires worker in w.hands
  {
    var hand := w.hands[worker];
    w.(remote := w.remote[messageId := hand.read.desired.payload], last := w.last[messageId := hand.read.desired],
       hands := w.hands[worker := Confirm(hand, messageId, confirmed)])
  }

  /** A call may take effect without the worker learning of it. An action that is not enabled does nothing. */
  ghost function Act(setting: Setting, w: World, action: Action): World {
    if !Enabled(setting, w, action) then
      w
    else
      match action
      case Upsert(content, now) =>
        w.(alert := Some(if w.alert.Some? then Upserted(w.alert.value, content, now) else Inserted(content, now)),
           upserts := w.upserts + {content})
      case Claim(worker, now) =>
        var claimed := Claimed(w.alert.value, worker, now);
        w.(alert := Some(claimed), hands := w.hands[worker := Hand(claimed, false, None)])
      case Send(worker, messageId, confirmed) =>
        Call(w, worker, messageId, confirmed)
      case Edit(worker, confirmed) =>
        Call(w, worker, w.hands[worker].read.messageId.value, confirmed)
      case Complete(worker, now) =>
        var hand := w.hands[worker];
        w.(alert := Some(Completed(w.alert.value, hand.read.desired.version, hand.confirmed.value, hand.read.attempts + 1, now)),
           hands := w.hands - {worker})
      case Fail(worker, nextAttemptAt) =>
        var attempt := w.hands[worker].read.attempts + 1;
        w.(alert := Some(Failed(w.alert.value, attempt, nextAttemptAt, attempt >= setting.maxAttempts)), hands := w.hands - {worker})
      case Crash(worker) => w.(hands := w.hands - {worker})
  }

  const NOTHING: World := World(None, {}, map[], map[], map[])

  ghost function Perform(setting: Setting, actions: seq<Action>): World {
    if actions == [] then NOTHING
    else Act(setting, Perform(setting, actions[..|actions| - 1]), actions[|actions| - 1])
  }

  // ----- What any number of workers keep -----

  /** Statuses agree with what is stored: nothing sent yet, something to edit, or all delivered. */
  predicate StatusIsHonest(a: Alert) {
    && (a.status == PendingSend ==> a.messageId.None?)
    && (a.status == PendingEdit ==> a.messageId.Some?)
    && (a.status == Active ==> a.messageId.Some? && a.delivered == Some(a.desired.version))
    && (a.status == Processing ==> a.lockedAt.Some?)
    && (a.delivered.Some? ==> a.delivered.value <= a.desired.version)
  }

  /** The desired content is the first one upserted at the highest version ever upserted. */
  ghost predicate DesiresTheNewest(a: Alert, upserts: set<Content>) {
    a.desired in upserts && forall content <- upserts :: content.version <= a.desired.version
  }

  /** A worker read an earlier or the present state of the row. */
  ghost predicate HandsAreBehind(a: Alert, upserts: set<Content>, hands: map<Worker, Hand>) {
    forall worker <- hands ::
      var read := hands[worker].read;
      && read.desired in upserts && (read.desired == a.desired || read.desired.version < a.desired.version)
      && (read.messageId.Some? ==> a.messageId == read.messageId)
      && (hands[worker].confirmed.Some? ==> hands[worker].called)
      && (read.messageId.Some? && hands[worker].confirmed.Some? ==> hands[worker].confirmed == read.messageId)
  }

  /** Messages show what was last put on them, which is never newer than what is desired. */
  ghost predicate MessagesAreBehind(a: Alert, upserts: set<Content>, remote: map<MessageId, string>, last: map<MessageId, Content>) {
    && remote.Keys == last.Keys && (forall m <- last :: last[m] in upserts)
    && (forall m <- remote :: remote[m] == last[m].payload)
    && (forall m <- last :: last[m] == a.desired || last[m].version < a.desired.version)
  }

  /** What is stored or confirmed was sent. */
  ghost predicate MessagesExist(a: Alert, hands: map<Worker, Hand>, remote: map<MessageId, string>) {
    && (a.messageId.Some? ==> a.messageId.value in remote)
    && (forall worker <- hands :: hands[worker].confirmed.Some? ==> hands[worker].confirmed.value in remote)
  }

  ghost predicate Projection(w: World) {
    match w.alert
    case None => w.hands == map[] && w.upserts == {} && w.remote == map[] && w.last == map[]
    case Some(a) =>
      && StatusIsHonest(a) && DesiresTheNewest(a, w.upserts) && HandsAreBehind(a, w.upserts, w.hands)
      && MessagesAreBehind(a, w.upserts, w.remote, w.last) && MessagesExist(a, w.hands, w.remote)
  }

  /** The desired version and the delivered one never fall, and the message identifier is written once. */
  predicate Advances(a: Alert, next: Alert) {
    && a.desired.version <= next.desired.version
    && (a.desired.version == next.desired.version ==> a.desired == next.desired)
    && a.delivered.GetOr(0) <= next.delivered.GetOr(0)
    && (a.messageId.Some? ==> next.messageId == a.messageId)
  }

  /** What one action keeps of the projection and of the row. */
  ghost predicate Keeps(setting: Setting, w: World, action: Action) {
    var next := Act(setting, w, action);
    Projection(next) && (w.alert.Some? ==> next.alert.Some? && Advances(w.alert.value, next.alert.value))
  }

  lemma UpsertKeepsProjection(setting: Setting, w: World, content: Content, now: int)
    requires Projection(w)
    ensures Keeps(setting, w, Upsert(content, now))
  {
  }

  lemma ClaimKeepsProjection(setting: Setting, w: World, worker: Worker, now: int)
    requires Projection(w)
    ensures Keeps(setting, w, Claim(worker, now))
  {
  }

  lemma CallKeepsProjection(w: World, worker: Worker, messageId: MessageId, confirmed: bool)
    requires Projection(w) && w.alert.Some? && worker in w.hands
    requires w.hands[worker].read.messageId.Some? ==> messageId == w.hands[worker].read.messageId.value
    ensures Projection(Call(w, worker, messageId, confirmed)) && Call(w, worker, messageId, confirmed).alert == w.alert
  {
  }

  lemma SendKeepsProjection(setting: Setting, w: World, worker: Worker, messageId: MessageId, confirmed: bool)
    requires Projection(w)
    ensures Keeps(setting, w, Send(worker, messageId, confirmed))
  {
    if Enabled(setting, w, Send(worker, messageId, confirmed)) {
      CallKeepsProjection(w, worker, messageId, confirmed);
    }
  }

  lemma EditKeepsProjection(setting: Setting, w: World, worker: Worker, confirmed: bool)
    requires Projection(w)
    ensures Keeps(setting, w, Edit(worker, confirmed))
  {
    if Enabled(setting, w, Edit(worker, confirmed)) {
      CallKeepsProjection(w, worker, w.hands[worker].read.messageId.value, confirmed);
    }
  }

  lemma CompleteKeepsProjection(setting: Setting, w: World, worker: Worker, now: int)
    requires Projection(w)
    ensures Keeps(setting, w, Complete(worker, now))
  {
  }

  lemma FailKeepsProjection(setting: Setting, w: World, worker: Worker, nextAttemptAt: int)
    requires Projection(w)
    ensures Keeps(setting, w, Fail(worker, nextAttemptAt))
  {
  }

  lemma CrashKeepsProjection(setting: Setting, w: World, worker: Worker)
    requires Projection(w)
    ensures Keeps(setting, w, Crash(worker))
  {
  }

  lemma ActKeepsProjection(setting: Setting, w: World, action: Action)
    requires Projection(w)
    ensures Projection(Act(setting, w, action))
    ensures w.alert.Some? ==> Act(setting, w, action).alert.Some? && Advances(w.alert.value, Act(setting, w, action).alert.value)
  {
    match action
    case Upsert(content, now) => UpsertKeepsProjection(setting, w, content, now);
    case Claim(worker, now) => ClaimKeepsProjection(setting, w, worker, now);
    case Send(worker, messageId, confirmed) => SendKeepsProjection(setting, w, worker, messageId, confirmed);
    case Edit(worker, confirmed) => EditKeepsProjection(setting, w, worker, confirmed);
    case Complete(worker, now) => CompleteKeepsProjection(setting, w, worker, now);
    case Fail(worker, nextAttemptAt) => FailKeepsProjection(setting, w, worker, nextAttemptAt);
    case Crash(worker) => CrashKeepsProjection(setting, w, worker);
    assert Keeps(setting, w, action);
  }

  /** Every run with any number of workers, overlapping claims included, keeps the projection. */
  lemma {:induction false} EveryRunKeepsProjection(setting: Setting, actions: seq<Action>)
    ensures Projection(Perform(setting, actions))
  {
    if actions != [] {
      EveryRunKeepsProjection(setting, actions[..|actions| - 1]);
      ActKeepsProjection(setting, Perform(setting, actions[..|actions| - 1]), actions[|actions| - 1]);
    }
  }

  // ----- What the message shows -----

  /** An active alert's message shows the payload of the desired version. */
  ghost predicate Truthful(w: World) {
    w.alert.Some? && w.alert.value.status == Active ==>
      var a := w.alert.value;
      a.messageId.Some? && a.messageId.value in w.remote && w.remote[a.messageId.value] == a.desired.payload
  }

  /** No worker claims the row while another is at work on it. */
  ghost predicate Exclusive(w: World, action: Action) {
    action.Claim? ==> w.hands == map[]
  }

  ghost predicate NeverOverlaps(setting: Setting, actions: seq<Action>) {
    actions == []
    || (NeverOverlaps(setting, actions[..|actions| - 1])
        && Exclusive(Perform(setting, actions[..|actions| - 1]), actions[|actions| - 1]))
  }

  /** The one worker at work, if any, knows the stored message, and what it had confirmed is still shown. */
  ghost predicate SoleHand(w: World) {
    forall worker <- w.hands ::
      && w.hands.Keys == {worker} && w.alert.Some? && w.alert.value.status != Active
      && var hand := w.hands[worker];
         && hand.read.messageId == w.alert.value.messageId
         && (hand.confirmed.Some? ==>
               hand.confirmed.value in w.remote && w.remote[hand.confirmed.value] == hand.read.desired.payload)
  }

  ghost predicate Orderly(w: World) {
    Projection(w) && SoleHand(w) && Truthful(w)
  }

  lemma ExclusiveActKeepsSoleHand(setting: Setting, w: World, action: Action)
    requires Orderly(w) && Exclusive(w, action)
    ensures SoleHand(Act(setting, w, action))
  {
  }

  lemma ExclusiveActIsTruthful(setting: Setting, w: World, action: Action)
    requires Orderly(w) && Exclusive(w, action)
    ensures Truthful(Act(setting, w, action))
  {
  }

  lemma ExclusiveActIsOrderly(setting: Setting, w: World, action: Action)
    requires Orderly(w) && Exclusive(w, action)
    ensures Orderly(Act(setting, w, action))
  {
    ActKeepsProjection(setting, w, action);
    ExclusiveActKeepsSoleHand(setting, w, action);
    ExclusiveActIsTruthful(setting, w, action);
  }

  /** As long as claims do not overlap, an active alert shows the desired payload in every run, whatever crashes, lost
      responses, failed calls and concurrent upserts it has. */
  lemma {:induction false} ConvergenceWithoutOverlap(setting: Setting, actions: seq<Action>)
    requires NeverOverlaps(setting, actions)
    ensures Orderly(Perform(setting, actions))
  {
    if actions != [] {
      ConvergenceWithoutOverlap(setting, actions[..|actions| - 1]);
      ExclusiveActIsOrderly(setting, Perform(setting, actions[..|actions| - 1]), actions[|actions| - 1]);
    }
  }

  /** The time from which a row that is neither active nor dead can be claimed. */
  function DueFrom(a: Alert, lockTimeout: int): int {
    if a.status == Processing then a.lockedAt.GetOr(0) + lockTimeout + 1 else a.nextAttemptAt
  }

  /** The call that a worker makes for the row, and that Telegram confirms. */
  function ConfirmedCall(a: Alert, worker: Worker, messageId: MessageId): Action {
    if a.messageId.None? then Send(worker, messageId, true) else Edit(worker, true)
  }

  /** A claim, a confirmed call and a completion, one after the other. */
  ghost function Delivered(setting: Setting, w: World, worker: Worker, now: int, call: Action): World {
    Act(setting, Act(setting, Act(setting, w, Claim(worker, now)), call), Complete(worker, now))
  }

  lemma DeliveryKeepsOrder(setting: Setting, w: World, worker: Worker, now: int, call: Action)
    requires Orderly(w) && w.hands == map[] && !call.Claim?
    ensures Orderly(Delivered(setting, w, worker, now, call))
  {
    var claimed := Act(setting, w, Claim(worker, now));
    ExclusiveActIsOrderly(setting, w, Claim(worker, now));
    ExclusiveActIsOrderly(setting, claimed, call);
    ExclusiveActIsOrderly(setting, Act(setting, claimed, call), Complete(worker, now));
  }

  lemma DueIsClaimed(setting: Setting, w: World, worker: Worker, now: int)
    requires w.alert.Some? && worker !in w.hands && StatusIsHonest(w.alert.value)
    requires w.alert.value.status != Active && w.alert.value.status != Dead
    requires now >= DueFrom(w.alert.value, setting.lockTimeout)
    ensures var read := Claimed(w.alert.value, worker, now);
            Act(setting, w, Claim(worker, now)) == w.(alert := Some(read), hands := w.hands[worker := Hand(read, false, None)])
  {
  }

  lemma ConfirmedIsShown(setting: Setting, w: World, worker: Worker, call: Action, messageId: MessageId)
    requires w.alert.Some? && worker in w.hands && w.hands[worker] == Hand(w.alert.value, false, None) && messageId !in w.remote
    requires call == ConfirmedCall(w.alert.value, worker, messageId)
    ensures var a, next := w.alert.value, Act(setting, w, call);
            var shown := if a.messageId.Some? then a.messageId.value else messageId;
            && next.alert == w.alert && worker in next.hands && next.hands[worker] == Hand(a, true, Some(shown))
            && shown in next.remote && next.remote[shown] == a.desired.payload
  {
  }

  lemma CurrentCompletes(setting: Setting, w: World, worker: Worker, now: int)
    requires w.alert.Some? && worker in w.hands && w.hands[worker].read == w.alert.value && w.hands[worker].confirmed.Some?
    requires var a, shown := w.alert.value, w.hands[worker].confirmed.value;
             && (a.messageId.Some? ==> shown == a.messageId.value)
             && shown in w.remote && w.remote[shown] == a.desired.payload
    ensures var done := Act(setting, w, Complete(worker, now));
            && done.alert.Some? && done.alert.value.status == Active && done.alert.value.desired == w.alert.value.desired
            && Truthful(done)
  {
  }

  /** Once upserts stop, one successful send or edit brings any alert that is not dead to the newest payload, also while
      other workers still hold the row. */
  lemma OneDeliveryConverges(setting: Setting, w: World, worker: Worker, now: int, messageId: MessageId)
    requires Projection(w) && worker !in w.hands && w.alert.Some? && messageId !in w.remote
    requires w.alert.value.status != Active && w.alert.value.status != Dead
    requires now >= DueFrom(w.alert.value, setting.lockTimeout)
    ensures var done := Delivered(setting, w, worker, now, ConfirmedCall(w.alert.value, worker, messageId));
            && done.alert.Some? && done.alert.value.status == Active && done.alert.value.desired == w.alert.value.desired
            && Truthful(done) && (Orderly(w) && w.hands == map[] ==> Orderly(done))
  {
    var call := ConfirmedCall(w.alert.value, worker, messageId);
    if Orderly(w) && w.hands == map[] {
      DeliveryKeepsOrder(setting, w, worker, now, call);
    }
    var claimed := Act(setting, w, Claim(worker, now));
    DueIsClaimed(setting, w, worker, now);
    ConfirmedIsShown(setting, claimed, worker, call, messageId);
    CurrentCompletes(setting, Act(setting, claimed, call), worker, now);
  }
}
