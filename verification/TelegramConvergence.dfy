/** When edits converge on the newest text (docs/event-correlation.md:115). An upsert may reopen a row under delivery, so
    that claims overlap; what then decides is whether a claim finds a worker that may still put an older text on the
    message that the row stores or will store. */
module TelegramConvergence {
  import opened Wrappers
  import opened Solutions
  import opened TelegramAlerts

  /** In every run an active alert shows some version that was upserted, the desired one or an older one. */
  lemma ActiveShowsAVersion(setting: Setting, actions: seq<Action>)
    requires Perform(setting, actions).alert.Some? && Perform(setting, actions).alert.value.status == Active
    ensures var w := Perform(setting, actions);
            var a := w.alert.value;
            && a.messageId.Some? && a.messageId.value in w.remote
            && exists shown <- w.upserts ::
                 w.remote[a.messageId.value] == shown.payload && (shown == a.desired || shown.version < a.desired.version)
  {
    EveryRunKeepsProjection(setting, actions);
    var w := Perform(setting, actions);
    var m := w.alert.value.messageId.value;
    assert m in w.remote.Keys;
    assert w.last[m] in w.upserts;
  }

  // ----- Harm -----

  /** The worker read another text than is desired, and may still put it on the stored message: an edit is open, or no
      message is stored yet and its own may become the one. */
  predicate IsHarmful(a: Alert, hand: Hand) {
    && hand.read.desired.payload != a.desired.payload
    && (if a.messageId.None? then hand.called ==> hand.confirmed.Some? else hand.read.messageId.Some? && !hand.called)
  }

  /** The action is no claim beside a worker that may do harm. */
  ghost predicate FindsNoHarm(setting: Setting, w: World, action: Action) {
    action.Claim? && Enabled(setting, w, action) ==> forall worker <- w.hands :: !IsHarmful(w.alert.value, w.hands[worker])
  }

  ghost predicate NeverFindsHarm(setting: Setting, actions: seq<Action>) {
    actions == []
    || (NeverFindsHarm(setting, actions[..|actions| - 1])
        && FindsNoHarm(setting, Perform(setting, actions[..|actions| - 1]), actions[|actions| - 1]))
  }

  // ----- Claims that find no harm -----

  predicate HasReadTheDesired(a: Alert, hand: Hand) {
    hand.read.desired == a.desired
  }

  /** The desired version is delivered, or a worker has read it. */
  ghost predicate IsTaken(a: Alert, hands: map<Worker, Hand>) {
    a.delivered == Some(a.desired.version) || exists worker <- hands :: HasReadTheDesired(a, hands[worker])
  }

  ghost predicate HarmIsOver(a: Alert, hands: map<Worker, Hand>) {
    IsTaken(a, hands) ==> forall worker <- hands :: !IsHarmful(a, hands[worker])
  }

  predicate IsShown(messageId: Option<MessageId>, payload: string, remote: map<MessageId, string>) {
    messageId.Some? && messageId.value in remote && remote[messageId.value] == payload
  }

  /** As long as no message is stored, a confirmed message shows what its worker read. */
  ghost predicate SendsAreShown(a: Alert, hands: map<Worker, Hand>, remote: map<MessageId, string>) {
    a.messageId.None? ==> forall worker <- hands ::
      hands[worker].confirmed.Some? ==> IsShown(hands[worker].confirmed, hands[worker].read.desired.payload, remote)
  }

  /** After a delivery of the desired version the stored message shows it. So it does beside a worker that read that version,
      unless the worker still has to edit it. */
  ghost predicate DesiredIsShown(a: Alert, hands: map<Worker, Hand>, remote: map<MessageId, string>) {
    && (a.delivered == Some(a.desired.version) ==> IsShown(a.messageId, a.desired.payload, remote))
    && (forall worker <- hands :: HasReadTheDesired(a, hands[worker]) && a.messageId.Some? ==>
          (hands[worker].read.messageId.Some? && hands[worker].confirmed.None?)
          || IsShown(a.messageId, a.desired.payload, remote))
  }

  ghost predicate HarmlessOn(a: Alert, hands: map<Worker, Hand>, remote: map<MessageId, string>) {
    HarmIsOver(a, hands) && DesiredIsShown(a, hands, remote)
  }

  ghost predicate SendsShow(w: World) {
    w.alert.Some? ==> SendsAreShown(w.alert.value, w.hands, w.remote)
  }

  ghost predicate Harmless(w: World) {
    w.alert.Some? ==> HarmlessOn(w.alert.value, w.hands, w.remote)
  }

  lemma CallKeepsSends(w: World, worker: Worker, messageId: MessageId, confirmed: bool)
    requires Projection(w) && w.alert.Some? && SendsShow(w) && worker in w.hands
    requires w.hands[worker].read.messageId.None? ==> messageId !in w.remote
    ensures SendsShow(Call(w, worker, messageId, confirmed))
  {
  }

  lemma ActKeepsSends(setting: Setting, w: World, action: Action)
    requires Projection(w) && SendsShow(w)
    ensures SendsShow(Act(setting, w, action))
  {
    if Enabled(setting, w, action) {
      match action
      case Send(worker, messageId, confirmed) => CallKeepsSends(w, worker, messageId, confirmed);
      case Edit(worker, confirmed) => CallKeepsSends(w, worker, w.hands[worker].read.messageId.value, confirmed);
      case _ =>
    }
  }

  lemma {:induction false} EveryRunShowsSends(setting: Setting, actions: seq<Action>)
    ensures SendsShow(Perform(setting, actions))
  {
    if actions != [] {
      EveryRunShowsSends(setting, actions[..|actions| - 1]);
      EveryRunKeepsProjection(setting, actions[..|actions| - 1]);
      ActKeepsSends(setting, Perform(setting, actions[..|actions| - 1]), actions[|actions| - 1]);
    }
  }

  lemma UpsertKeepsHarmless(setting: Setting, w: World, content: Content, now: int)
    requires Projection(w) && Harmless(w)
    ensures Harmless(Act(setting, w, Upsert(content, now)))
  {
  }

  lemma ClaimKeepsHarmless(setting: Setting, w: World, worker: Worker, now: int)
    requires Projection(w) && Harmless(w) && FindsNoHarm(setting, w, Claim(worker, now))
    ensures Harmless(Act(setting, w, Claim(worker, now)))
  {
  }

  lemma CallKeepsHarmIsOver(a: Alert, hands: map<Worker, Hand>, worker: Worker, called: Hand)
    requires worker in hands && !hands[worker].called && HarmIsOver(a, hands)
    requires called.read == hands[worker].read && called.called
    requires a.messageId.None? ==> hands[worker].read.messageId.None?
    ensures HarmIsOver(a, hands[worker := called])
    ensures IsTaken(a, hands) <==> IsTaken(a, hands[worker := called])
  {
    var next := hands[worker := called];
    assert HasReadTheDesired(a, hands[worker]) <==> HasReadTheDesired(a, next[worker]);
    forall other | other in hands ensures HasReadTheDesired(a, hands[other]) <==> HasReadTheDesired(a, next[other]) {
    }
  }

  lemma SendKeepsHarmless(setting: Setting, w: World, worker: Worker, messageId: MessageId, confirmed: bool)
    requires Projection(w) && Harmless(w) && Enabled(setting, w, Send(worker, messageId, confirmed))
    ensures Harmless(Act(setting, w, Send(worker, messageId, confirmed)))
  {
    CallKeepsHarmIsOver(w.alert.value, w.hands, worker, Confirm(w.hands[worker], messageId, confirmed));
  }

  lemma EditKeepsHarmless(setting: Setting, w: World, worker: Worker, confirmed: bool)
    requires Projection(w) && Harmless(w) && Enabled(setting, w, Edit(worker, confirmed))
    ensures Harmless(Act(setting, w, Edit(worker, confirmed)))
  {
    var a, m := w.alert.value, w.hands[worker].read.messageId.value;
    CallKeepsHarmIsOver(a, w.hands, worker, Confirm(w.hands[worker], m, confirmed));
    if IsTaken(a, w.hands) {
      assert !IsHarmful(a, w.hands[worker]);
    }
  }

  lemma CompleteKeepsHarmless(setting: Setting, w: World, worker: Worker, now: int)
    requires Projection(w) && SendsShow(w) && Harmless(w) && Enabled(setting, w, Complete(worker, now))
    ensures Harmless(Act(setting, w, Complete(worker, now)))
  {
    var a, next := w.alert.value, Act(setting, w, Complete(worker, now));
    if IsTaken(next.alert.value, next.hands) {
      assert IsTaken(a, w.hands);
      assert !IsHarmful(a, w.hands[worker]);
    }
  }

  lemma ReleaseKeepsHarmless(setting: Setting, w: World, action: Action)
    requires Projection(w) && Harmless(w) && (action.Fail? || action.Crash?)
    ensures Harmless(Act(setting, w, action))
  {
  }

  lemma ActKeepsHarmless(setting: Setting, w: World, action: Action)
    requires Projection(w) && SendsShow(w) && Harmless(w) && FindsNoHarm(setting, w, action)
    ensures Harmless(Act(setting, w, action))
  {
    if Enabled(setting, w, action) {
      match action
      case Upsert(content, now) => UpsertKeepsHarmless(setting, w, content, now);
      case Claim(worker, now) => ClaimKeepsHarmless(setting, w, worker, now);
      case Send(worker, messageId, confirmed) => SendKeepsHarmless(setting, w, worker, messageId, confirmed);
      case Edit(worker, confirmed) => EditKeepsHarmless(setting, w, worker, confirmed);
      case Complete(worker, now) => CompleteKeepsHarmless(setting, w, worker, now);
      case Fail(_, _) => ReleaseKeepsHarmless(setting, w, action);
      case Crash(_) => ReleaseKeepsHarmless(setting, w, action);
    }
  }

  lemma {:induction false} HarmlessRun(setting: Setting, actions: seq<Action>)
    requires NeverFindsHarm(setting, actions)
    ensures Harmless(Perform(setting, actions))
  {
    if actions != [] {
      var done := actions[..|actions| - 1];
      HarmlessRun(setting, done);
      EveryRunKeepsProjection(setting, done);
      EveryRunShowsSends(setting, done);
      ActKeepsHarmless(setting, Perform(setting, done), actions[|actions| - 1]);
    }
  }

  /** As long as no claim finds a worker that may do harm, an active alert shows the desired text in every run: claims may
      overlap, upserts arrive, and workers crash, fail and lose responses. */
  lemma ConvergenceWithoutHarm(setting: Setting, actions: seq<Action>)
    requires NeverFindsHarm(setting, actions)
    ensures Truthful(Perform(setting, actions))
  {
    HarmlessRun(setting, actions);
    EveryRunKeepsProjection(setting, actions);
  }

  // ----- A claim that finds harm -----

  /** The message that the row stores once the worker's completion is stored. */
  function StoredAfter(a: Alert, hand: Hand): MessageId
    requires hand.confirmed.Some?
  {
    if a.messageId.Some? then a.messageId.value else hand.confirmed.value
  }

  lemma CompletionIsTruthfulExactlyWhen(setting: Setting, w: World, worker: Worker, now: int)
    requires Projection(w) && Enabled(setting, w, Complete(worker, now))
    ensures var a, hand := w.alert.value, w.hands[worker];
            && StoredAfter(a, hand) in w.remote
            && (Truthful(Act(setting, w, Complete(worker, now))) <==>
                a.desired.version > hand.read.desired.version
                || w.remote[StoredAfter(a, hand)] == a.desired.payload)
  {
  }

  /** Both workers have made their calls: what `stale` put on the message that will be stored is not desired. */
  ghost predicate IsDoomed(w: World, worker: Worker, stale: Worker) {
    && w.alert.Some? && worker in w.hands && stale in w.hands && worker != stale
    && w.hands[worker].confirmed.Some? && w.hands[stale].confirmed.Some?
    && HasReadTheDesired(w.alert.value, w.hands[worker])
    && w.hands[stale].read.desired.payload != w.alert.value.desired.payload
    && IsShown(Some(StoredAfter(w.alert.value, w.hands[stale])), w.hands[stale].read.desired.payload, w.remote)
  }

  lemma DoomedEndsUntruthful(setting: Setting, w: World, worker: Worker, stale: Worker, now: int)
    requires Projection(w) && IsDoomed(w, worker, stale)
    ensures var end := Act(setting, Act(setting, w, Complete(stale, now)), Complete(worker, now));
            end.alert.Some? && end.alert.value.status == Active && !Truthful(end)
            && end.hands == w.hands - {stale} - {worker}
  {
    ActKeepsProjection(setting, w, Complete(stale, now));
    CompletionIsTruthfulExactlyWhen(setting, Act(setting, w, Complete(stale, now)), worker, now);
  }

  lemma CallIsConfirmed(setting: Setting, w: World, worker: Worker, unused: MessageId)
    requires w.alert.Some? && worker in w.hands && !w.hands[worker].called && unused !in w.remote
    requires w.hands[worker].read.messageId == w.alert.value.messageId
    ensures var a, read, next := w.alert.value, w.hands[worker].read, Act(setting, w, ConfirmedCall(w.alert.value, worker, unused));
            var m := a.messageId.GetOr(unused);
            && next.alert == w.alert && next.hands == w.hands[worker := Hand(read, true, Some(m))]
            && next.remote == w.remote[m := read.desired.payload]
  {
  }

  /** After the claim and the claimant's call. */
  ghost function Overtaken(setting: Setting, w: World, worker: Worker, now: int, unused: MessageId): World
    requires w.alert.Some?
  {
    Act(setting, Act(setting, w, Claim(worker, now)), ConfirmedCall(w.alert.value, worker, unused))
  }

  lemma OvertakenStands(setting: Setting, w: World, worker: Worker, now: int, unused: MessageId)
    requires Projection(w) && Enabled(setting, w, Claim(worker, now)) && unused !in w.remote
    ensures var a, m, next := w.alert.value, w.alert.value.messageId.GetOr(unused), Overtaken(setting, w, worker, now, unused);
            && Projection(next) && next.alert == Some(Claimed(a, worker, now))
            && next.hands == w.hands[worker := Hand(Claimed(a, worker, now), true, Some(m))]
            && next.remote == w.remote[m := a.desired.payload]
  {
    var claimed := Act(setting, w, Claim(worker, now));
    ActKeepsProjection(setting, w, Claim(worker, now));
    ActKeepsProjection(setting, claimed, ConfirmedCall(w.alert.value, worker, unused));
    CallIsConfirmed(setting, claimed, worker, unused);
  }

  /** The other worker has sent its message already. */
  lemma SendDooms(setting: Setting, w: World, worker: Worker, stale: Worker, now: int, unused: MessageId)
    requires Projection(w) && SendsShow(w) && Enabled(setting, w, Claim(worker, now)) && unused !in w.remote
    requires stale in w.hands && IsHarmful(w.alert.value, w.hands[stale]) && w.hands[stale].called
    ensures IsDoomed(Overtaken(setting, w, worker, now, unused), worker, stale)
    ensures Projection(Overtaken(setting, w, worker, now, unused))
    ensures Overtaken(setting, w, worker, now, unused).hands - {stale} - {worker} == w.hands - {worker, stale}
  {
    OvertakenStands(setting, w, worker, now, unused);
  }

  /** The other worker makes its call later. */
  ghost function Outdone(setting: Setting, w: World, worker: Worker, stale: Worker, now: int, unused: MessageId): World
    requires w.alert.Some?
  {
    Act(setting, Overtaken(setting, w, worker, now, unused), ConfirmedCall(w.alert.value, stale, unused + 1))
  }

  lemma HarmfulReadTheStored(a: Alert, upserts: set<Content>, hands: map<Worker, Hand>, worker: Worker)
    requires HandsAreBehind(a, upserts, hands) && worker in hands && IsHarmful(a, hands[worker]) && !hands[worker].called
    ensures hands[worker].read.messageId == a.messageId
  {
  }

  lemma OvertakenLeavesTheOther(setting: Setting, w: World, worker: Worker, stale: Worker, now: int, unused: MessageId)
    requires Projection(w) && Enabled(setting, w, Claim(worker, now)) && unused !in w.remote && unused + 1 !in w.remote
    requires stale in w.hands && IsHarmful(w.alert.value, w.hands[stale]) && !w.hands[stale].called
    ensures var first := Overtaken(setting, w, worker, now, unused);
            && first.alert.Some? && first.alert.value.messageId == w.alert.value.messageId && unused + 1 !in first.remote
            && stale in first.hands && first.hands[stale] == w.hands[stale]
            && w.hands[stale].read.messageId == w.alert.value.messageId
            && ConfirmedCall(first.alert.value, stale, unused + 1) == ConfirmedCall(w.alert.value, stale, unused + 1)
  {
    HarmfulReadTheStored(w.alert.value, w.upserts, w.hands, stale);
    OvertakenStands(setting, w, worker, now, unused);
  }

  lemma OutdoneStands(setting: Setting, w: World, worker: Worker, stale: Worker, now: int, unused: MessageId)
    requires Projection(w) && Enabled(setting, w, Claim(worker, now)) && unused !in w.remote && unused + 1 !in w.remote
    requires stale in w.hands && IsHarmful(w.alert.value, w.hands[stale]) && !w.hands[stale].called
    ensures var first, next := Overtaken(setting, w, worker, now, unused), Outdone(setting, w, worker, stale, now, unused);
            var read, m := w.hands[stale].read, w.alert.value.messageId.GetOr(unused + 1);
            && next.alert == first.alert && next.hands == first.hands[stale := Hand(read, true, Some(m))]
            && next.remote == first.remote[m := read.desired.payload]
  {
    OvertakenLeavesTheOther(setting, w, worker, stale, now, unused);
    CallIsConfirmed(setting, Overtaken(setting, w, worker, now, unused), stale, unused + 1);
  }

  lemma OutdoneIsProjected(setting: Setting, w: World, worker: Worker, stale: Worker, now: int, unused: MessageId)
    requires Projection(w) && Enabled(setting, w, Claim(worker, now)) && unused !in w.remote
    ensures Projection(Outdone(setting, w, worker, stale, now, unused))
  {
    OvertakenStands(setting, w, worker, now, unused);
    ActKeepsProjection(setting, Overtaken(setting, w, worker, now, unused), ConfirmedCall(w.alert.value, stale, unused + 1));
  }

  lemma BothAreReplaced(hands: map<Worker, Hand>, worker: Worker, stale: Worker, first: Hand, second: Hand)
    ensures hands[worker := first][stale := second] - {stale} - {worker} == hands - {worker, stale}
  {
  }

  lemma LateCallDooms(setting: Setting, w: World, worker: Worker, stale: Worker, now: int, unused: MessageId)
    requires Projection(w) && Enabled(setting, w, Claim(worker, now)) && unused !in w.remote && unused + 1 !in w.remote
    requires stale in w.hands && IsHarmful(w.alert.value, w.hands[stale]) && !w.hands[stale].called
    ensures var end := Outdone(setting, w, worker, stale, now, unused);
            IsDoomed(end, worker, stale) && Projection(end) && end.hands - {stale} - {worker} == w.hands - {worker, stale}
  {
    OvertakenStands(setting, w, worker, now, unused);
    OutdoneStands(setting, w, worker, stale, now, unused);
    OutdoneIsProjected(setting, w, worker, stale, now, unused);
    var end := Outdone(setting, w, worker, stale, now, unused);
    BothAreReplaced(w.hands, worker, stale, end.hands[worker], end.hands[stale]);
  }

  /** Every action leads from its state to the next. */
  ghost predicate Leads(setting: Setting, states: seq<World>, actions: seq<Action>) {
    && |states| == |actions| + 1
    && forall i :: 0 <= i < |actions| ==> Act(setting, states[i], actions[i]) == states[i + 1]
  }

  lemma {:induction false} LeadsToTheLast(setting: Setting, done: seq<Action>, states: seq<World>, actions: seq<Action>)
    requires Leads(setting, states, actions) && Perform(setting, done) == states[0]
    ensures Perform(setting, done + actions) == states[|actions|]
  {
    if actions == [] {
      assert done + actions == done;
    } else {
      LeadsToTheLast(setting, done, states[..|actions|], actions[..|actions| - 1]);
      assert (done + actions)[..|done + actions| - 1] == done + actions[..|actions| - 1];
    }
  }

  /** What the workers do by themselves: neither upserts nor further claims. */
  predicate IsLeftAlone(rest: seq<Action>) {
    forall action <- rest :: !action.Upsert? && !action.Claim?
  }

  /** The claimant calls, the other worker makes its call if it has made none, and they complete in this order. */
  function HarmfulCourse(a: Alert, worker: Worker, stale: Worker, hand: Hand, unused: MessageId, now: int): seq<Action> {
    if hand.called then
      [ConfirmedCall(a, worker, unused), Complete(stale, now), Complete(worker, now)]
    else
      [ConfirmedCall(a, worker, unused), ConfirmedCall(a, stale, unused + 1), Complete(stale, now), Complete(worker, now)]
  }

  /** The last two steps of the course. */
  lemma DoomIsSealed(setting: Setting, done: seq<Action>, states: seq<World>, actions: seq<Action>, worker: Worker, stale: Worker, now: int)
    requires Leads(setting, states, actions) && Perform(setting, done) == states[0]
    requires Projection(states[|actions|]) && IsDoomed(states[|actions|], worker, stale)
    ensures var end := Perform(setting, done + (actions + [Complete(stale, now), Complete(worker, now)]));
            && end.alert.Some? && end.alert.value.status == Active && !Truthful(end)
            && end.hands == states[|actions|].hands - {stale} - {worker}
  {
    var doomed := states[|actions|];
    var one := Act(setting, doomed, Complete(stale, now));
    DoomedEndsUntruthful(setting, doomed, worker, stale, now);
    LeadsToTheLast(setting, done, states, actions);
    assert done + (actions + [Complete(stale, now), Complete(worker, now)]) == done + actions + [Complete(stale, now), Complete(worker, now)];
    LeadsToTheLast(setting, done + actions, [doomed, one, Act(setting, one, Complete(worker, now))],
                   [Complete(stale, now), Complete(worker, now)]);
  }

  /** What the claim beside a worker that may do harm leads to. */
  ghost predicate EndsUntruthful(setting: Setting, done: seq<Action>, worker: Worker, stale: Worker, actions: seq<Action>) {
    var end := Perform(setting, done + actions);
    && end.alert.Some? && end.alert.value.status == Active && !Truthful(end)
    && end.hands == Perform(setting, done).hands - {worker, stale}
  }

  lemma HarmAfterSend(setting: Setting, done: seq<Action>, worker: Worker, stale: Worker, now: int, unused: MessageId)
    requires var w := Perform(setting, done);
             && Projection(w) && SendsShow(w) && Enabled(setting, w, Claim(worker, now)) && unused !in w.remote
             && stale in w.hands && IsHarmful(w.alert.value, w.hands[stale]) && w.hands[stale].called
    ensures EndsUntruthful(setting, done, worker, stale,
                           [Claim(worker, now), ConfirmedCall(Perform(setting, done).alert.value, worker, unused)]
                           + [Complete(stale, now), Complete(worker, now)])
  {
    var w := Perform(setting, done);
    var last := Overtaken(setting, w, worker, now, unused);
    SendDooms(setting, w, worker, stale, now, unused);
    DoomIsSealed(setting, done, [w, Act(setting, w, Claim(worker, now)), last],
                 [Claim(worker, now), ConfirmedCall(w.alert.value, worker, unused)], worker, stale, now);
  }

  lemma LateCallLeads(setting: Setting, w: World, worker: Worker, stale: Worker, now: int, unused: MessageId)
    requires w.alert.Some?
    ensures var a := w.alert.value;
            Leads(setting, [w, Act(setting, w, Claim(worker, now)), Overtaken(setting, w, worker, now, unused),
                            Outdone(setting, w, worker, stale, now, unused)],
                  [Claim(worker, now), ConfirmedCall(a, worker, unused), ConfirmedCall(a, stale, unused + 1)])
  {
  }

  lemma HarmAfterLateCall(setting: Setting, done: seq<Action>, worker: Worker, stale: Worker, now: int, unused: MessageId)
    requires var w := Perform(setting, done);
             && Projection(w) && Enabled(setting, w, Claim(worker, now)) && unused !in w.remote && unused + 1 !in w.remote
             && stale in w.hands && IsHarmful(w.alert.value, w.hands[stale]) && !w.hands[stale].called
    ensures var a := Perform(setting, done).alert.value;
            EndsUntruthful(setting, done, worker, stale,
                           [Claim(worker, now), ConfirmedCall(a, worker, unused), ConfirmedCall(a, stale, unused + 1)]
                           + [Complete(stale, now), Complete(worker, now)])
  {
    var w := Perform(setting, done);
    var a, first := w.alert.value, Overtaken(setting, w, worker, now, unused);
    var last := Outdone(setting, w, worker, stale, now, unused);
    LateCallDooms(setting, w, worker, stale, now, unused);
    LateCallLeads(setting, w, worker, stale, now, unused);
    DoomIsSealed(setting, done, [w, Act(setting, w, Claim(worker, now)), first, last],
                 [Claim(worker, now), ConfirmedCall(a, worker, unused), ConfirmedCall(a, stale, unused + 1)], worker, stale, now);
  }

  /** A claim beside a worker that may do harm: without any further upsert or claim the alert may end active, at rest between
      the two, and untruthful. */
  lemma HarmfulClaimBreaksConvergence(setting: Setting, done: seq<Action>, worker: Worker, stale: Worker, now: int, unused: MessageId)
    requires var w := Perform(setting, done);
             && Enabled(setting, w, Claim(worker, now)) && stale in w.hands && IsHarmful(w.alert.value, w.hands[stale])
             && unused !in w.remote && unused + 1 !in w.remote
    ensures var w := Perform(setting, done);
            var course := HarmfulCourse(w.alert.value, worker, stale, w.hands[stale], unused, now);
            IsLeftAlone(course) && EndsUntruthful(setting, done, worker, stale, [Claim(worker, now)] + course)
  {
    var w := Perform(setting, done);
    var a, claim, completions := w.alert.value, Claim(worker, now), [Complete(stale, now), Complete(worker, now)];
    EveryRunKeepsProjection(setting, done);
    EveryRunShowsSends(setting, done);
    var course := HarmfulCourse(a, worker, stale, w.hands[stale], unused, now);
    if w.hands[stale].called {
      HarmAfterSend(setting, done, worker, stale, now, unused);
      assert [claim] + course == [claim, ConfirmedCall(a, worker, unused)] + completions;
    } else {
      HarmAfterLateCall(setting, done, worker, stale, now, unused);
      assert [claim] + course == [claim, ConfirmedCall(a, worker, unused), ConfirmedCall(a, stale, unused + 1)] + completions;
    }
  }

  // ----- The exact condition -----

  lemma {:induction false} Unused(ids: set<MessageId>) returns (unused: MessageId)
    ensures forall id <- ids :: id < unused
  {
    unused := 1;
    if id :| id in ids {
      var above := Unused(ids - {id});
      unused := if above <= id then id + 1 else above;
      forall other | other in ids ensures other < unused {
        assert other == id || other in ids - {id};
      }
    }
  }

  lemma {:induction false} LeftAloneFindsNoHarm(setting: Setting, done: seq<Action>, rest: seq<Action>)
    requires NeverFindsHarm(setting, done) && IsLeftAlone(rest)
    ensures NeverFindsHarm(setting, done + rest)
  {
    if rest == [] {
      assert done + rest == done;
    } else {
      LeftAloneFindsNoHarm(setting, done, rest[..|rest| - 1]);
      assert (done + rest)[..|done + rest| - 1] == done + rest[..|rest| - 1];
    }
  }

  /** Whatever the workers still do after the run, an active alert shows the desired text. */
  ghost predicate Converges(setting: Setting, actions: seq<Action>) {
    forall rest | IsLeftAlone(rest) :: Truthful(Perform(setting, actions + rest))
  }

  /** So it does wherever the run is broken off. */
  ghost predicate AlwaysConverges(setting: Setting, actions: seq<Action>) {
    forall n | 0 <= n <= |actions| :: Converges(setting, actions[..n])
  }

  lemma {:induction false} PrefixFindsNoHarm(setting: Setting, actions: seq<Action>, n: nat)
    requires NeverFindsHarm(setting, actions) && n <= |actions|
    ensures NeverFindsHarm(setting, actions[..n])
  {
    if n < |actions| {
      PrefixFindsNoHarm(setting, actions[..|actions| - 1], n);
      assert actions[..|actions| - 1][..n] == actions[..n];
    } else {
      assert actions[..n] == actions;
    }
  }

  lemma HarmlessConverges(setting: Setting, actions: seq<Action>)
    requires NeverFindsHarm(setting, actions)
    ensures Converges(setting, actions)
  {
    forall rest | IsLeftAlone(rest) ensures Truthful(Perform(setting, actions + rest)) {
      LeftAloneFindsNoHarm(setting, actions, rest);
      ConvergenceWithoutHarm(setting, actions + rest);
    }
  }

  lemma HarmDoesNotConverge(setting: Setting, done: seq<Action>, worker: Worker, stale: Worker, now: int)
    requires var w := Perform(setting, done);
             Enabled(setting, w, Claim(worker, now)) && stale in w.hands && IsHarmful(w.alert.value, w.hands[stale])
    ensures !Converges(setting, done + [Claim(worker, now)])
  {
    var w := Perform(setting, done);
    var unused := Unused(w.remote.Keys);
    HarmfulClaimBreaksConvergence(setting, done, worker, stale, now, unused);
    var course := HarmfulCourse(w.alert.value, worker, stale, w.hands[stale], unused, now);
    assert done + ([Claim(worker, now)] + course) == done + [Claim(worker, now)] + course;
  }

  /** The last action of a run that converges finds no harm. */
  lemma ConvergingFindsNoHarm(setting: Setting, done: seq<Action>, action: Action)
    requires Converges(setting, done + [action])
    ensures FindsNoHarm(setting, Perform(setting, done), action)
  {
    var w := Perform(setting, done);
    if action.Claim? && Enabled(setting, w, action) {
      forall stale | stale in w.hands ensures !IsHarmful(w.alert.value, w.hands[stale]) {
        if IsHarmful(w.alert.value, w.hands[stale]) {
          HarmDoesNotConverge(setting, done, action.worker, stale, action.now);
        }
      }
    }
  }

  lemma {:induction false} ConvergingNeverFindsHarm(setting: Setting, actions: seq<Action>)
    requires AlwaysConverges(setting, actions)
    ensures NeverFindsHarm(setting, actions)
  {
    if actions != [] {
      var done, action := actions[..|actions| - 1], actions[|actions| - 1];
      forall n | 0 <= n <= |done| ensures Converges(setting, done[..n]) {
        assert done[..n] == actions[..n];
      }
      ConvergingNeverFindsHarm(setting, done);
      assert done + [action] == actions[..|actions|];
      ConvergingFindsNoHarm(setting, done, action);
    }
  }

  /** A run converges, wherever it is broken off, if and only if none of its claims finds a worker that may do harm. */
  lemma ConvergesExactlyWhenNoClaimFindsHarm(setting: Setting, actions: seq<Action>)
    ensures AlwaysConverges(setting, actions) <==> NeverFindsHarm(setting, actions)
  {
    if AlwaysConverges(setting, actions) {
      ConvergingNeverFindsHarm(setting, actions);
    } else if NeverFindsHarm(setting, actions) {
      forall n | 0 <= n <= |actions| ensures Converges(setting, actions[..n]) {
        PrefixFindsNoHarm(setting, actions, n);
        HarmlessConverges(setting, actions[..n]);
      }
    }
  }

  /** No claim is made while a worker that read an older version is still at work; others may be. */
  ghost predicate FindsNoStaleHand(w: World, action: Action) {
    action.Claim? && w.alert.Some? ==> forall worker <- w.hands :: HasReadTheDesired(w.alert.value, w.hands[worker])
  }

  ghost predicate NeverFindsStaleHands(setting: Setting, actions: seq<Action>) {
    actions == []
    || (NeverFindsStaleHands(setting, actions[..|actions| - 1])
        && FindsNoStaleHand(Perform(setting, actions[..|actions| - 1]), actions[|actions| - 1]))
  }

  /** Harm comes from older readings, so their absence is enough. */
  lemma {:induction false} ConvergenceWithoutStaleHands(setting: Setting, actions: seq<Action>)
    requires NeverFindsStaleHands(setting, actions)
    ensures NeverFindsHarm(setting, actions) && AlwaysConverges(setting, actions)
  {
    if actions != [] {
      ConvergenceWithoutStaleHands(setting, actions[..|actions| - 1]);
    }
    ConvergesExactlyWhenNoClaimFindsHarm(setting, actions);
  }

  // ----- Runs in which convergence fails -----

  const FIRST: Content := Content(1, "version 1", Preliminary)
  const SECOND: Content := Content(2, "version 2", Confirmed)
  const THIRD: Content := Content(3, "version 3", Reviewed)

  /** The alert is active at this content while the stored message shows another payload. */
  ghost predicate ActiveButShows(w: World, desired: Content, messageId: MessageId, payload: string) {
    && w.alert.Some? && w.alert.value.status == Active && w.alert.value.desired == desired
    && w.alert.value.messageId == Some(messageId) && messageId in w.remote && w.remote[messageId] == payload
    && payload != desired.payload && !Truthful(w)
  }

  // The first worker reads the first version, and an upsert reopens the row for the second.

  function ReadFirst(): Alert {
    Claimed(Inserted(FIRST, 0), "a", 0)
  }

  function ReadSecond(): Alert {
    Claimed(Upserted(ReadFirst(), SECOND, 0), "b", 0)
  }

  /** Both have sent a message. */
  function BothSent(): World {
    World(Some(ReadSecond()), {FIRST, SECOND},
          map["a" := Hand(ReadFirst(), true, Some(100)), "b" := Hand(ReadSecond(), true, Some(200))],
          map[100 := FIRST.payload, 200 := SECOND.payload], map[100 := FIRST, 200 := SECOND])
  }

  lemma BothComplete(setting: Setting, done: seq<Action>)
    requires Perform(setting, done) == BothSent()
    ensures ActiveButShows(Perform(setting, done + [Complete("a", 0), Complete("b", 0)]), SECOND, 100, FIRST.payload)
  {
    var w := BothSent();
    var stored := Completed(ReadSecond(), 1, 100, 1, 0);
    assert w.hands - {"a"} == map["b" := Hand(ReadSecond(), true, Some(200))];
    assert w.hands - {"a"} - {"b"} == map[];
    var last := w.(alert := Some(Completed(stored, 2, 200, 1, 0)), hands := map[]);
    LeadsToTheLast(setting, done, [w, w.(alert := Some(stored), hands := w.hands - {"a"}), last],
                   [Complete("a", 0), Complete("b", 0)]);
  }

  lemma FirstIsRead(setting: Setting)
    ensures Perform(setting, [Upsert(FIRST, 0), Claim("a", 0)])
            == World(Some(ReadFirst()), {FIRST}, map["a" := Hand(ReadFirst(), false, None)], map[], map[])
  {
    var inserted := World(Some(Inserted(FIRST, 0)), {FIRST}, map[], map[], map[]);
    var read := World(Some(ReadFirst()), {FIRST}, map["a" := Hand(ReadFirst(), false, None)], map[], map[]);
    assert NOTHING.upserts + {FIRST} == {FIRST};
    LeadsToTheLast(setting, [], [NOTHING, inserted, read], [Upsert(FIRST, 0), Claim("a", 0)]);
    assert [] + [Upsert(FIRST, 0), Claim("a", 0)] == [Upsert(FIRST, 0), Claim("a", 0)];
  }

  /** Two workers send: the first message is the one stored. */
  lemma OverlapBreaksConvergence(setting: Setting)
    ensures ActiveButShows(Perform(setting, [Upsert(FIRST, 0), Claim("a", 0)]
                                            + [Upsert(SECOND, 0), Claim("b", 0), Send("a", 100, true), Send("b", 200, true)]
                                            + [Complete("a", 0), Complete("b", 0)]), SECOND, 100, FIRST.payload)
  {
    FirstIsRead(setting);
    var done := [Upsert(FIRST, 0), Claim("a", 0)];
    var a, b := Hand(ReadFirst(), false, None), Hand(ReadSecond(), false, None);
    var w := World(Some(ReadFirst()), {FIRST}, map["a" := a], map[], map[]);
    assert {FIRST} + {SECOND} == {FIRST, SECOND};
    var reopened := w.(alert := Some(Upserted(ReadFirst(), SECOND, 0)), upserts := {FIRST, SECOND});
    var claimed := reopened.(alert := Some(ReadSecond()), hands := map["a" := a, "b" := b]);
    var sent := Call(claimed, "a", 100, true);
    assert Call(sent, "b", 200, true) == BothSent();
    LeadsToTheLast(setting, done, [w, reopened, claimed, sent, BothSent()],
                   [Upsert(SECOND, 0), Claim("b", 0), Send("a", 100, true), Send("b", 200, true)]);
    BothComplete(setting, done + [Upsert(SECOND, 0), Claim("b", 0), Send("a", 100, true), Send("b", 200, true)]);
  }

  /** The last call on the stored message may have been made with no other worker at work. */
  lemma LateOverlapBreaksConvergence(setting: Setting)
    ensures ActiveButShows(Perform(setting, [Upsert(FIRST, 0), Claim("a", 0)]
                                            + [Send("a", 100, true), Upsert(SECOND, 0), Claim("b", 0), Send("b", 200, true)]
                                            + [Complete("a", 0), Complete("b", 0)]), SECOND, 100, FIRST.payload)
  {
    FirstIsRead(setting);
    var done := [Upsert(FIRST, 0), Claim("a", 0)];
    var a, b := Hand(ReadFirst(), true, Some(100)), Hand(ReadSecond(), false, None);
    var w := World(Some(ReadFirst()), {FIRST}, map["a" := Hand(ReadFirst(), false, None)], map[], map[]);
    assert {FIRST} + {SECOND} == {FIRST, SECOND};
    var sent := World(Some(ReadFirst()), {FIRST}, map["a" := a], map[100 := FIRST.payload], map[100 := FIRST]);
    var reopened := sent.(alert := Some(Upserted(ReadFirst(), SECOND, 0)), upserts := {FIRST, SECOND});
    var claimed := reopened.(alert := Some(ReadSecond()), hands := map["a" := a, "b" := b]);
    assert Call(claimed, "b", 200, true) == BothSent();
    LeadsToTheLast(setting, done, [w, sent, reopened, claimed, BothSent()],
                   [Send("a", 100, true), Upsert(SECOND, 0), Claim("b", 0), Send("b", 200, true)]);
    BothComplete(setting, done + [Send("a", 100, true), Upsert(SECOND, 0), Claim("b", 0), Send("b", 200, true)]);
  }

  // The first version is delivered; then both workers edit its message.

  /** An alert whose first version was sent as message 100. */
  function FirstActive(): Alert {
    Alert(Some(100), FIRST, Some(1), Active, 1, 0, None, None)
  }

  lemma FirstIsDelivered(setting: Setting)
    ensures Perform(setting, [Upsert(FIRST, 0), Claim("a", 0)] + [Send("a", 100, true), Complete("a", 0)])
            == World(Some(FirstActive()), {FIRST}, map[], map[100 := FIRST.payload], map[100 := FIRST])
  {
    FirstIsRead(setting);
    var w := World(Some(ReadFirst()), {FIRST}, map["a" := Hand(ReadFirst(), false, None)], map[], map[]);
    var sent := World(Some(ReadFirst()), {FIRST}, map["a" := Hand(ReadFirst(), true, Some(100))], map[100 := FIRST.payload], map[100 := FIRST]);
    assert sent.hands - {"a"} == map[];
    LeadsToTheLast(setting, [Upsert(FIRST, 0), Claim("a", 0)],
                   [w, sent, sent.(alert := Some(FirstActive()), hands := map[])], [Send("a", 100, true), Complete("a", 0)]);
  }

  function ReadToEdit(): Alert {
    Claimed(Upserted(FirstActive(), SECOND, 0), "a", 0)
  }

  function ReadToEditAgain(): Alert {
    Claimed(Upserted(ReadToEdit(), THIRD, 0), "b", 0)
  }

  /** Both have read the row to edit its message. */
  function BothRead(): World {
    World(Some(ReadToEditAgain()), {FIRST, SECOND, THIRD},
          map["a" := Hand(ReadToEdit(), false, None), "b" := Hand(ReadToEditAgain(), false, None)],
          map[100 := FIRST.payload], map[100 := FIRST])
  }

  lemma BothReadToEdit(setting: Setting, done: seq<Action>)
    requires Perform(setting, done) == World(Some(FirstActive()), {FIRST}, map[], map[100 := FIRST.payload], map[100 := FIRST])
    ensures Perform(setting, done + [Upsert(SECOND, 0), Claim("a", 0), Upsert(THIRD, 0), Claim("b", 0)]) == BothRead()
  {
    var w := World(Some(FirstActive()), {FIRST}, map[], map[100 := FIRST.payload], map[100 := FIRST]);
    assert {FIRST} + {SECOND} == {FIRST, SECOND} && {FIRST, SECOND} + {THIRD} == {FIRST, SECOND, THIRD};
    var second := w.(alert := Some(Upserted(FirstActive(), SECOND, 0)), upserts := {FIRST, SECOND});
    var read := second.(alert := Some(ReadToEdit()), hands := map["a" := Hand(ReadToEdit(), false, None)]);
    var third := read.(alert := Some(Upserted(ReadToEdit(), THIRD, 0)), upserts := {FIRST, SECOND, THIRD});
    LeadsToTheLast(setting, done, [w, second, read, third, BothRead()],
                   [Upsert(SECOND, 0), Claim("a", 0), Upsert(THIRD, 0), Claim("b", 0)]);
  }

  /** Both have edited it, the one that read the older version last. */
  function BothEdited(): World {
    World(Some(ReadToEditAgain()), {FIRST, SECOND, THIRD},
          map["a" := Hand(ReadToEdit(), true, Some(100)), "b" := Hand(ReadToEditAgain(), true, Some(100))],
          map[100 := SECOND.payload], map[100 := SECOND])
  }

  function NewerEdited(): World {
    World(Some(ReadToEditAgain()), {FIRST, SECOND, THIRD},
          map["a" := Hand(ReadToEdit(), false, None), "b" := Hand(ReadToEditAgain(), true, Some(100))],
          map[100 := THIRD.payload], map[100 := THIRD])
  }

  lemma BothEdit(setting: Setting, done: seq<Action>)
    requires Perform(setting, done) == BothRead()
    ensures Perform(setting, done + [Edit("b", true), Edit("a", true)]) == BothEdited()
  {
    assert Act(setting, BothRead(), Edit("b", true)) == NewerEdited();
    assert Act(setting, NewerEdited(), Edit("a", true)) == BothEdited();
    LeadsToTheLast(setting, done, [BothRead(), NewerEdited(), BothEdited()], [Edit("b", true), Edit("a", true)]);
  }

  lemma BothCompleteEdits(setting: Setting, done: seq<Action>)
    requires Perform(setting, done) == BothEdited()
    ensures ActiveButShows(Perform(setting, done + [Complete("a", 0), Complete("b", 0)]), THIRD, 100, SECOND.payload)
  {
    var w := BothEdited();
    var stored := Completed(ReadToEditAgain(), 2, 100, 2, 0);
    var one := w.(alert := Some(stored), hands := w.hands - {"a"});
    var none := one.(alert := Some(Completed(stored, 3, 100, 2, 0)), hands := one.hands - {"b"});
    LeadsToTheLast(setting, done, [w, one, none], [Complete("a", 0), Complete("b", 0)]);
  }

  /** Two workers edit the stored message, the one that read the older version last: the alert becomes active and shows that
      version, although the row stores the very message that the other had confirmed. */
  lemma EditsBreakConvergence(setting: Setting)
    ensures ActiveButShows(Perform(setting, [Upsert(FIRST, 0), Claim("a", 0)] + [Send("a", 100, true), Complete("a", 0)]
                                            + [Upsert(SECOND, 0), Claim("a", 0), Upsert(THIRD, 0), Claim("b", 0)]
                                            + [Edit("b", true), Edit("a", true)] + [Complete("a", 0), Complete("b", 0)]),
                           THIRD, 100, SECOND.payload)
  {
    FirstIsDelivered(setting);
    var done := [Upsert(FIRST, 0), Claim("a", 0)] + [Send("a", 100, true), Complete("a", 0)];
    BothReadToEdit(setting, done);
    var read := done + [Upsert(SECOND, 0), Claim("a", 0), Upsert(THIRD, 0), Claim("b", 0)];
    BothEdit(setting, read);
    BothCompleteEdits(setting, read + [Edit("b", true), Edit("a", true)]);
  }
}
