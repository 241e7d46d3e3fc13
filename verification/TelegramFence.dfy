/** The lock timeout of Telegram alerts: when a worker may claim a row that another is still at work on
    (internal/repository/postgres/telegram_alert.go). */
module TelegramFence {
  import opened Wrappers
  import opened TelegramAlerts

  /** The action takes the row out of processing: an upsert of a newer version, a completion or a failure. */
  ghost predicate Releases(setting: Setting, w: World, action: Action) {
    && Enabled(setting, w, action) && (action.Upsert? || action.Complete? || action.Fail?)
    && w.alert.Some? && w.alert.value.status == Processing
    && Act(setting, w, action).alert.value.status != Processing
  }

  ghost predicate Claims(setting: Setting, w: World, action: Action, worker: Worker) {
    action.Claim? && action.worker == worker && Enabled(setting, w, action)
  }

  /** The j-th action of the run took the row out of processing, and the worker has made no claim since. */
  ghost predicate IsReleasedAt(setting: Setting, actions: seq<Action>, worker: Worker, j: int) {
    && 0 <= j < |actions| && Releases(setting, Perform(setting, actions[..j]), actions[j])
    && forall i | j < i < |actions| :: !Claims(setting, Perform(setting, actions[..i]), actions[i], worker)
  }

  ghost predicate IsReleased(setting: Setting, actions: seq<Action>, worker: Worker) {
    exists j :: IsReleasedAt(setting, actions, worker, j)
  }

  lemma ReleaseLasts(setting: Setting, actions: seq<Action>, action: Action, worker: Worker)
    requires IsReleased(setting, actions, worker) && !Claims(setting, Perform(setting, actions), action, worker)
    ensures IsReleased(setting, actions + [action], worker)
  {
    var j :| IsReleasedAt(setting, actions, worker, j);
    var longer := actions + [action];
    assert longer[..j] == actions[..j];
    forall i | j < i < |longer| ensures !Claims(setting, Perform(setting, longer[..i]), longer[i], worker) {
      assert longer[..i] == actions[..i];
    }
    assert IsReleasedAt(setting, longer, worker, j);
  }

  lemma ReleaseIsNoticed(setting: Setting, actions: seq<Action>, action: Action, worker: Worker)
    requires Releases(setting, Perform(setting, actions), action)
    ensures IsReleased(setting, actions + [action], worker)
  {
    assert (actions + [action])[..|actions|] == actions;
    assert IsReleasedAt(setting, actions + [action], worker, |actions|);
  }

  /** The row is locked by the worker's claim, or by one that was made after it had outlived the timeout. */
  predicate IsBehindTheLock(setting: Setting, a: Alert, hand: Hand) {
    && a.status == Processing && a.lockedAt.Some? && hand.read.lockedAt.Some?
    && (a.lockedAt == hand.read.lockedAt || hand.read.lockedAt.value + setting.lockTimeout < a.lockedAt.value)
  }

  /** Every worker's claim stands behind the lock of the row, unless the row was released since. */
  ghost predicate IsFenced(setting: Setting, actions: seq<Action>) {
    var w := Perform(setting, actions);
    forall worker <- w.hands ::
      && w.alert.Some? && w.hands[worker].read.lockedAt.Some?
      && (IsBehindTheLock(setting, w.alert.value, w.hands[worker]) || IsReleased(setting, actions, worker))
  }

  lemma PerformGoesOn(setting: Setting, actions: seq<Action>, action: Action)
    ensures Perform(setting, actions + [action]) == Act(setting, Perform(setting, actions), action)
  {
    assert (actions + [action])[..|actions|] == actions;
  }

  /** What an action that is no claim leaves of a worker's place behind the lock. */
  lemma StaysBehindOrIsReleased(setting: Setting, w: World, action: Action, worker: Worker)
    requires w.alert.Some? && worker in w.hands && worker in Act(setting, w, action).hands && !action.Claim?
    requires IsBehindTheLock(setting, w.alert.value, w.hands[worker])
    ensures var next := Act(setting, w, action);
            && next.alert.Some? && next.hands[worker].read == w.hands[worker].read
            && (IsBehindTheLock(setting, next.alert.value, next.hands[worker]) || Releases(setting, w, action))
  {
  }

  /** A claim on a row under another's lock comes after the timeout. */
  lemma ClaimComesLate(setting: Setting, w: World, worker: Worker, now: int, other: Worker)
    requires Enabled(setting, w, Claim(worker, now)) && other in w.hands && w.alert.Some?
    requires IsBehindTheLock(setting, w.alert.value, w.hands[other])
    ensures w.hands[other].read.lockedAt.value + setting.lockTimeout < now
    ensures var next := Act(setting, w, Claim(worker, now));
            next.alert.Some? && other in next.hands && IsBehindTheLock(setting, next.alert.value, next.hands[other])
  {
  }

  lemma HandsGoOn(setting: Setting, w: World, action: Action, worker: Worker)
    requires worker in Act(setting, w, action).hands && !Claims(setting, w, action, worker)
    ensures worker in w.hands && Act(setting, w, action).hands[worker].read == w.hands[worker].read
    ensures w.alert.Some? ==> Act(setting, w, action).alert.Some?
  {
  }

  lemma ClaimantIsBehind(setting: Setting, w: World, action: Action, worker: Worker)
    requires Claims(setting, w, action, worker)
    ensures var next := Act(setting, w, action);
            worker in next.hands && next.alert.Some? && IsBehindTheLock(setting, next.alert.value, next.hands[worker])
            && next.hands[worker].read.lockedAt == Some(action.now)
  {
  }

  lemma WorkerStaysFenced(setting: Setting, actions: seq<Action>, action: Action, worker: Worker)
    requires IsFenced(setting, actions) && worker in Act(setting, Perform(setting, actions), action).hands
    ensures var next := Act(setting, Perform(setting, actions), action);
            && next.alert.Some? && next.hands[worker].read.lockedAt.Some?
            && (IsBehindTheLock(setting, next.alert.value, next.hands[worker]) || IsReleased(setting, actions + [action], worker))
  {
    var w := Perform(setting, actions);
    if Claims(setting, w, action, worker) {
      ClaimantIsBehind(setting, w, action, worker);
    } else {
      HandsGoOn(setting, w, action, worker);
      if IsReleased(setting, actions, worker) {
        ReleaseLasts(setting, actions, action, worker);
      } else if action.Claim? {
        if Enabled(setting, w, action) {
          ClaimComesLate(setting, w, action.worker, action.now, worker);
        }
      } else {
        StaysBehindOrIsReleased(setting, w, action, worker);
        if Releases(setting, w, action) {
          ReleaseIsNoticed(setting, actions, action, worker);
        }
      }
    }
  }

  lemma {:induction false} EveryRunIsFenced(setting: Setting, actions: seq<Action>)
    ensures IsFenced(setting, actions)
  {
    if actions != [] {
      var done, action := actions[..|actions| - 1], actions[|actions| - 1];
      EveryRunIsFenced(setting, done);
      assert done + [action] == actions;
      forall worker | worker in Perform(setting, actions).hands
        ensures var w := Perform(setting, actions);
                && w.alert.Some? && w.hands[worker].read.lockedAt.Some?
                && (IsBehindTheLock(setting, w.alert.value, w.hands[worker]) || IsReleased(setting, actions, worker))
      {
        WorkerStaysFenced(setting, done, action, worker);
      }
    }
  }

  /** In every run, a worker claims a row that another is still at work on only if the other's claim has outlived the lock
      timeout, or an upsert, a completion or a failure took the row out of processing since. */
  lemma ClaimsOverlapOnlyLateOrReleased(setting: Setting, actions: seq<Action>, worker: Worker, now: int, other: Worker)
    requires Enabled(setting, Perform(setting, actions), Claim(worker, now)) && other in Perform(setting, actions).hands
    ensures var hand := Perform(setting, actions).hands[other];
            && other != worker && hand.read.lockedAt.Some?
            && (hand.read.lockedAt.value + setting.lockTimeout < now || IsReleased(setting, actions, other))
  {
    EveryRunIsFenced(setting, actions);
    var w := Perform(setting, actions);
    if IsBehindTheLock(setting, w.alert.value, w.hands[other]) {
      ClaimComesLate(setting, w, worker, now, other);
    }
  }
}
