/** Any number of relays that claim outbox rows, publish them, and complete or fail them
    (internal/core/outbox.go, internal/repository/postgres/messaging.go). Relays may crash at any point, and a row whose
    lock has timed out may be claimed while an older claim on it is still at work. */
module OutboxRelay {
  import opened Wrappers
  import opened CoreMessaging
  import opened Contracts

  /** A relay at work on a row. */
  datatype Grip = Grip(worker: Worker, id: ChangeId)

  /** What the relay's clock showed and what it read when it claimed the row, and whether the broker has acknowledged its publication. */
  datatype Held = Held(claimedAt: int, attempts: nat, acknowledged: bool)

  /** `acknowledged` and `completions` are history: which rows the broker ever acknowledged, and the completions that
      took effect. */
  datatype Relays = Relays(rows: Outbox, grips: map<Grip, Held>, acknowledged: set<ChangeId>, completions: seq<ChangeId>)

  datatype Action =
    | Enqueue(id: ChangeId, row: OutboxRow)
    | Claim(worker: Worker, ids: set<ChangeId>, busy: set<ChangeId>, batch: nat, now: int)
    | Acknowledge(worker: Worker, id: ChangeId)
    | Complete(worker: Worker, id: ChangeId, now: int)
    | Fail(worker: Worker, id: ChangeId, now: int)
    | Crash(worker: Worker)

  const SECOND: int := 1_000_000_000

  function PowerOfTwo(n: nat): nat {
    if n == 0 then 1 else 2 * PowerOfTwo(n - 1)
  }

  /** One second, doubled with every attempt up to the eighth. */
  function Backoff(attempts: nat): int {
    SECOND * PowerOfTwo(if attempts < 8 then attempts else 8)
  }

  lemma {:induction false} PowersGrow(low: nat, high: nat)
    requires low <= high
    ensures 1 <= PowerOfTwo(low) <= PowerOfTwo(high)
  {
    if high > low {
      PowersGrow(low, high - 1);
    } else if low > 0 {
      PowersGrow(low - 1, low - 1);
    }
  }

  /** The first failure puts a row off by a second, each further one by twice as long, up to 256 seconds from the eighth on. */
  lemma BackoffDoublesUpTo256Seconds(attempts: nat)
    ensures Backoff(0) == 1_000_000_000
    ensures Backoff(attempts + 1) == if attempts < 8 then 2 * Backoff(attempts) else Backoff(attempts)
    ensures 1_000_000_000 <= Backoff(attempts) <= 256_000_000_000
    ensures attempts >= 8 ==> Backoff(attempts) == 256_000_000_000
  {
    PowersGrow(0, if attempts < 8 then attempts else 8);
    PowersGrow(if attempts < 8 then attempts else 8, 8);
    assert PowerOfTwo(4) == 16;
    assert PowerOfTwo(8) == 256;
  }

  /** Each relay reads a clock of its own, which may differ from all others and need only not run back between a claim and
      the failure of its publication. */
  ghost predicate Enabled(lockTimeout: nat, r: Relays, action: Action) {
    match action
    case Enqueue(id, row) => id !in r.rows && row.lockedAt.None? && row.lockedBy.None? && row.publishedAt.None?
    case Claim(worker, ids, busy, batch, now) => IsClaim(r.rows, ids, busy, batch, lockTimeout, now)
    case Acknowledge(worker, id) => Grip(worker, id) in r.grips
    case Complete(worker, id, now) => Grip(worker, id) in r.grips && r.grips[Grip(worker, id)].acknowledged
    case Fail(worker, id, now) =>
      Grip(worker, id) in r.grips && !r.grips[Grip(worker, id)].acknowledged && r.grips[Grip(worker, id)].claimedAt <= now
    case Crash(worker) => true
  }

  function SetRow(r: Relays, id: ChangeId, row: OutboxRow): Relays {
    r.(rows := r.rows[id := row])
  }

  ghost function Taken(rows: Outbox, ids: set<ChangeId>, worker: Worker, now: int): map<Grip, Held>
    requires ids <= rows.Keys
  {
    map id | id in ids :: Grip(worker, id) := Held(now, rows[id].attempts, false)
  }

  /** The relay is done with the row. */
  function Release(r: Relays, worker: Worker, id: ChangeId): Relays {
    r.(grips := r.grips - {Grip(worker, id)})
  }

  function Settle(r: Relays, worker: Worker, id: ChangeId, settled: OutboxRow): Relays {
    SetRow(Release(r, worker, id), id, settled)
  }

  /** An action that is not enabled does nothing. */
  ghost function Act(lockTimeout: nat, r: Relays, action: Action): Relays {
    if !Enabled(lockTimeout, r, action) then
      r
    else
      match action
      case Enqueue(id, row) => SetRow(r, id, row)
      case Claim(worker, ids, busy, batch, now) =>
        r.(rows := ClaimAll(r.rows, ids, worker, now), grips := r.grips + Taken(r.rows, ids, worker, now))
      case Acknowledge(worker, id) =>
        var held := r.grips[Grip(worker, id)];
        r.(grips := r.grips[Grip(worker, id) := held.(acknowledged := true)], acknowledged := r.acknowledged + {id})
      case Complete(worker, id, now) =>
        if id in r.rows && HeldBy(r.rows[id], worker) then
          Settle(r, worker, id, Completed(r.rows[id], now)).(completions := r.completions + [id])
        else
          Release(r, worker, id)
      case Fail(worker, id, now) =>
        if id in r.rows && HeldBy(r.rows[id], worker) then
          Settle(r, worker, id, Failed(r.rows[id], now + Backoff(r.grips[Grip(worker, id)].attempts)))
        else
          Release(r, worker, id)
      case Crash(worker) =>
        r.(grips := map grip | grip in r.grips && grip.worker != worker :: r.grips[grip])
  }

  // ----- The invariant -----

  /** The claim that the grip stands for is the one the row is locked by. */
  predicate IsCurrent(r: Relays, grip: Grip) {
    && grip in r.grips && grip.id in r.rows && HeldBy(r.rows[grip.id], grip.worker)
    && r.rows[grip.id].lockedAt == Some(r.grips[grip].claimedAt)
  }

  /** Claims on the row come after this time, by the clock of whoever claims. */
  function FreeFrom(row: OutboxRow): int {
    if row.lockedAt.Some? then row.lockedAt.value else row.nextAttemptAt
  }

  /** The claim has outlived the lock timeout by the clock of whoever claims next, or there is no next claim. */
  predicate IsLate(lockTimeout: nat, row: OutboxRow, held: Held) {
    row.publishedAt.Some? || held.claimedAt + lockTimeout < FreeFrom(row)
  }

  /** A claim that is no longer the current one is late. */
  ghost predicate GripsAreFenced(lockTimeout: nat, r: Relays) {
    forall grip <- r.grips ::
      && grip.id in r.rows
      && (IsCurrent(r, grip) || IsLate(lockTimeout, r.rows[grip.id], r.grips[grip]))
      && (r.rows[grip.id].lockedBy == Some(grip.worker) ==> IsCurrent(r, grip))
      && (r.grips[grip].acknowledged ==> grip.id in r.acknowledged)
  }

  /** Two relays work on one row only if one of their claims had outlived the lock timeout by the other's clock when the
      other claimed. */
  ghost predicate OverlapsAreLate(lockTimeout: nat, r: Relays) {
    forall a, b | a in r.grips && b in r.grips && a.id == b.id && a != b ::
      r.grips[a].claimedAt + lockTimeout < r.grips[b].claimedAt || r.grips[b].claimedAt + lockTimeout < r.grips[a].claimedAt
  }

  /** A row is published by exactly one completion, after the broker acknowledged it. */
  ghost predicate PublishedOnce(r: Relays) {
    && (forall id <- r.rows ::
          && (r.rows[id].publishedAt.Some? <==> id in r.completions)
          && (r.rows[id].publishedAt.Some? ==> id in r.acknowledged && r.rows[id].lockedBy.None? && r.rows[id].lockedAt.None?)
          && (r.rows[id].lockedAt.Some? <==> r.rows[id].lockedBy.Some?))
    && (forall id <- r.completions :: id in r.rows)
    && (forall i, j :: 0 <= i < j < |r.completions| ==> r.completions[i] != r.completions[j])
  }

  ghost predicate Fenced(lockTimeout: nat, r: Relays) {
    GripsAreFenced(lockTimeout, r) && OverlapsAreLate(lockTimeout, r) && PublishedOnce(r)
  }

  lemma ClaimFindsLateGrips(lockTimeout: nat, r: Relays, ids: set<ChangeId>, busy: set<ChangeId>, batch: nat, now: int)
    requires GripsAreFenced(lockTimeout, r) && IsClaim(r.rows, ids, busy, batch, lockTimeout, now)
    ensures forall grip <- r.grips :: grip.id in ids ==> r.grips[grip].claimedAt + lockTimeout < now
  {
    forall grip | grip in r.grips && grip.id in ids ensures r.grips[grip].claimedAt + lockTimeout < now {
      assert Claimable(r.rows[grip.id], lockTimeout, now);
    }
  }

  lemma ClaimIsFenced(lockTimeout: nat, r: Relays, worker: Worker, ids: set<ChangeId>, busy: set<ChangeId>, batch: nat, now: int)
    requires GripsAreFenced(lockTimeout, r) && IsClaim(r.rows, ids, busy, batch, lockTimeout, now)
    ensures GripsAreFenced(lockTimeout, Act(lockTimeout, r, Claim(worker, ids, busy, batch, now)))
  {
    var next := Act(lockTimeout, r, Claim(worker, ids, busy, batch, now));
    ClaimFindsLateGrips(lockTimeout, r, ids, busy, batch, now);
    forall grip | grip in next.grips
      ensures grip.id in next.rows
      ensures IsCurrent(next, grip) || IsLate(lockTimeout, next.rows[grip.id], next.grips[grip])
      ensures next.rows[grip.id].lockedBy == Some(grip.worker) ==> IsCurrent(next, grip)
      ensures next.grips[grip].acknowledged ==> grip.id in next.acknowledged
    {
      if grip.id in ids && grip.worker == worker {
        assert grip == Grip(worker, grip.id);
      } else {
        assert grip in r.grips && next.grips[grip] == r.grips[grip];
      }
    }
  }

  /** The claim made the grip, or left it as it was. */
  ghost predicate IsFromClaim(r: Relays, next: Relays, worker: Worker, ids: set<ChangeId>, now: int, grip: Grip)
    requires grip in next.grips
  {
    if grip.id in ids && grip.worker == worker then next.grips[grip].claimedAt == now
    else grip in r.grips && next.grips[grip] == r.grips[grip]
  }

  lemma NewGripsOverlapLate(lockTimeout: nat, r: Relays, next: Relays, worker: Worker, ids: set<ChangeId>, now: int)
    requires OverlapsAreLate(lockTimeout, r)
    requires forall grip <- r.grips :: grip.id in ids ==> r.grips[grip].claimedAt + lockTimeout < now
    requires forall grip <- next.grips :: IsFromClaim(r, next, worker, ids, now, grip)
    ensures OverlapsAreLate(lockTimeout, next)
  {
  }

  lemma ClaimOverlapsLate(lockTimeout: nat, r: Relays, worker: Worker, ids: set<ChangeId>, busy: set<ChangeId>, batch: nat, now: int)
    requires GripsAreFenced(lockTimeout, r) && IsClaim(r.rows, ids, busy, batch, lockTimeout, now)
    requires OverlapsAreLate(lockTimeout, r)
    ensures OverlapsAreLate(lockTimeout, Act(lockTimeout, r, Claim(worker, ids, busy, batch, now)))
  {
    var next := Act(lockTimeout, r, Claim(worker, ids, busy, batch, now));
    ClaimFindsLateGrips(lockTimeout, r, ids, busy, batch, now);
    forall grip | grip in next.grips ensures IsFromClaim(r, next, worker, ids, now, grip) {
      if grip.id in ids && grip.worker == worker {
        assert grip == Grip(worker, grip.id);
      }
    }
    NewGripsOverlapLate(lockTimeout, r, next, worker, ids, now);
  }

  lemma ClaimKeepsPublications(lockTimeout: nat, r: Relays, worker: Worker, ids: set<ChangeId>, busy: set<ChangeId>, batch: nat, now: int)
    requires PublishedOnce(r) && IsClaim(r.rows, ids, busy, batch, lockTimeout, now)
    ensures PublishedOnce(Act(lockTimeout, r, Claim(worker, ids, busy, batch, now)))
  {
    assert forall id <- ids :: Claimable(r.rows[id], lockTimeout, now);
  }

  lemma ReleaseIsFenced(lockTimeout: nat, r: Relays, worker: Worker, id: ChangeId)
    requires Fenced(lockTimeout, r)
    ensures Fenced(lockTimeout, Release(r, worker, id))
  {
    var next := Release(r, worker, id);
    forall grip | grip in next.grips ensures IsCurrent(next, grip) <==> IsCurrent(r, grip) {
    }
  }

  /** When the current holder settles a row, every other grip on that row is late. */
  lemma SettleIsFenced(lockTimeout: nat, r: Relays, worker: Worker, id: ChangeId, settled: OutboxRow)
    requires GripsAreFenced(lockTimeout, r) && OverlapsAreLate(lockTimeout, r)
    requires id in r.rows && HeldBy(r.rows[id], worker) && settled.lockedBy.None?
    requires settled.publishedAt.Some? || FreeFrom(r.rows[id]) <= FreeFrom(settled)
    ensures GripsAreFenced(lockTimeout, Settle(r, worker, id, settled))
    ensures OverlapsAreLate(lockTimeout, Settle(r, worker, id, settled))
  {
    var next := Settle(r, worker, id, settled);
    forall grip | grip in next.grips
      ensures grip.id in next.rows
      ensures IsCurrent(next, grip) || IsLate(lockTimeout, next.rows[grip.id], next.grips[grip])
      ensures next.rows[grip.id].lockedBy == Some(grip.worker) ==> IsCurrent(next, grip)
      ensures next.grips[grip].acknowledged ==> grip.id in next.acknowledged
    {
      if grip.id == id {
        assert grip.worker != worker;
        assert !IsCurrent(r, grip);
      }
    }
  }

  lemma FailureKeepsPublications(r: Relays, worker: Worker, id: ChangeId, settled: OutboxRow)
    requires PublishedOnce(r) && id in r.rows && r.rows[id].publishedAt.None?
    requires settled.publishedAt.None? && settled.lockedAt.None? && settled.lockedBy.None?
    ensures PublishedOnce(Settle(r, worker, id, settled))
  {
  }

  lemma CompletionIsTheFirst(r: Relays, worker: Worker, id: ChangeId, now: int)
    requires PublishedOnce(r) && id in r.rows && HeldBy(r.rows[id], worker) && id in r.acknowledged
    ensures PublishedOnce(Settle(r, worker, id, Completed(r.rows[id], now)).(completions := r.completions + [id]))
  {
    var next := Settle(r, worker, id, Completed(r.rows[id], now)).(completions := r.completions + [id]);
    assert id !in r.completions;
    assert next.completions[|r.completions|] == id;
    forall other | other in next.rows ensures next.rows[other].publishedAt.Some? <==> other in next.completions {
      assert other in next.completions <==> other in r.completions || other == id;
    }
  }

  lemma HeldCompletionIsFenced(lockTimeout: nat, r: Relays, worker: Worker, id: ChangeId, now: int, next: Relays)
    requires Fenced(lockTimeout, r) && id in r.rows && HeldBy(r.rows[id], worker) && id in r.acknowledged
    requires next == Settle(r, worker, id, Completed(r.rows[id], now)).(completions := r.completions + [id])
    ensures Fenced(lockTimeout, next)
  {
    var settled := Settle(r, worker, id, Completed(r.rows[id], now));
    SettleIsFenced(lockTimeout, r, worker, id, Completed(r.rows[id], now));
    CompletionIsTheFirst(r, worker, id, now);
    CompletionsDoNotFence(lockTimeout, settled, r.completions + [id]);
  }

  /** The fence is about rows, claims and acknowledgements, not about what was completed. */
  lemma CompletionsDoNotFence(lockTimeout: nat, r: Relays, completions: seq<ChangeId>)
    requires GripsAreFenced(lockTimeout, r) && OverlapsAreLate(lockTimeout, r)
    ensures GripsAreFenced(lockTimeout, r.(completions := completions)) && OverlapsAreLate(lockTimeout, r.(completions := completions))
  {
    forall grip | grip in r.grips ensures IsCurrent(r.(completions := completions), grip) <==> IsCurrent(r, grip) {
    }
  }

  lemma HeldFailureIsFenced(lockTimeout: nat, r: Relays, worker: Worker, id: ChangeId, settled: OutboxRow, next: Relays)
    requires Fenced(lockTimeout, r) && id in r.rows && HeldBy(r.rows[id], worker)
    requires settled.publishedAt.None? && settled.lockedAt.None? && settled.lockedBy.None?
    requires FreeFrom(r.rows[id]) <= FreeFrom(settled)
    requires next == Settle(r, worker, id, settled)
    ensures Fenced(lockTimeout, next)
  {
    SettleIsFenced(lockTimeout, r, worker, id, settled);
    FailureKeepsPublications(r, worker, id, settled);
  }

  lemma CompletingIsFenced(lockTimeout: nat, r: Relays, worker: Worker, id: ChangeId, now: int)
    requires Fenced(lockTimeout, r) && Enabled(lockTimeout, r, Complete(worker, id, now))
    ensures Fenced(lockTimeout, Act(lockTimeout, r, Complete(worker, id, now)))
  {
    if id in r.rows && HeldBy(r.rows[id], worker) {
      HeldCompletionIsFenced(lockTimeout, r, worker, id, now, Act(lockTimeout, r, Complete(worker, id, now)));
    } else {
      ReleaseIsFenced(lockTimeout, r, worker, id);
    }
  }

  lemma FailingIsFenced(lockTimeout: nat, r: Relays, worker: Worker, id: ChangeId, now: int)
    requires Fenced(lockTimeout, r) && Enabled(lockTimeout, r, Fail(worker, id, now))
    ensures Fenced(lockTimeout, Act(lockTimeout, r, Fail(worker, id, now)))
  {
    if id in r.rows && HeldBy(r.rows[id], worker) {
      assert IsCurrent(r, Grip(worker, id));
      var settled := Failed(r.rows[id], now + Backoff(r.grips[Grip(worker, id)].attempts));
      HeldFailureIsFenced(lockTimeout, r, worker, id, settled, Act(lockTimeout, r, Fail(worker, id, now)));
    } else {
      ReleaseIsFenced(lockTimeout, r, worker, id);
    }
  }

  lemma EnqueueIsFenced(lockTimeout: nat, r: Relays, id: ChangeId, row: OutboxRow)
    requires Fenced(lockTimeout, r) && Enabled(lockTimeout, r, Enqueue(id, row))
    ensures Fenced(lockTimeout, Act(lockTimeout, r, Enqueue(id, row)))
  {
  }

  lemma AcknowledgingIsFenced(lockTimeout: nat, r: Relays, worker: Worker, id: ChangeId)
    requires Fenced(lockTimeout, r) && Enabled(lockTimeout, r, Acknowledge(worker, id))
    ensures Fenced(lockTimeout, Act(lockTimeout, r, Acknowledge(worker, id)))
  {
  }

  lemma CrashIsFenced(lockTimeout: nat, r: Relays, worker: Worker)
    requires Fenced(lockTimeout, r)
    ensures Fenced(lockTimeout, Act(lockTimeout, r, Crash(worker)))
  {
  }

  /** Whatever any of the relays does next keeps the fence. */
  lemma ActIsFenced(lockTimeout: nat, r: Relays, action: Action)
    requires Fenced(lockTimeout, r)
    ensures Fenced(lockTimeout, Act(lockTimeout, r, action))
  {
    if Enabled(lockTimeout, r, action) {
      match action
      case Enqueue(id, row) => EnqueueIsFenced(lockTimeout, r, id, row);
      case Claim(worker, ids, busy, batch, now) =>
        ClaimIsFenced(lockTimeout, r, worker, ids, busy, batch, now);
        ClaimOverlapsLate(lockTimeout, r, worker, ids, busy, batch, now);
        ClaimKeepsPublications(lockTimeout, r, worker, ids, busy, batch, now);
      case Acknowledge(worker, id) => AcknowledgingIsFenced(lockTimeout, r, worker, id);
      case Complete(worker, id, now) => CompletingIsFenced(lockTimeout, r, worker, id, now);
      case Fail(worker, id, now) => FailingIsFenced(lockTimeout, r, worker, id, now);
      case Crash(worker) => CrashIsFenced(lockTimeout, r, worker);
    }
  }

  ghost function Perform(lockTimeout: nat, r: Relays, actions: seq<Action>): Relays {
    if actions == [] then r
    else Act(lockTimeout, Perform(lockTimeout, r, actions[..|actions| - 1]), actions[|actions| - 1])
  }

  const IDLE: Relays := Relays(map[], map[], {}, [])

  /** The fence holds in every run of any number of relays, whatever crashes, delays and repeated claims it has. */
  lemma {:induction false} EveryRunIsFenced(lockTimeout: nat, actions: seq<Action>)
    ensures Fenced(lockTimeout, Perform(lockTimeout, IDLE, actions))
  {
    if actions != [] {
      EveryRunIsFenced(lockTimeout, actions[..|actions| - 1]);
      ActIsFenced(lockTimeout, Perform(lockTimeout, IDLE, actions[..|actions| - 1]), actions[|actions| - 1]);
    }
  }

  /** Only the relay whose claim is the current one can complete or fail a row: an overtaken relay changes none. */
  lemma OnlyTheCurrentClaimSettles(lockTimeout: nat, r: Relays, action: Action)
    requires Fenced(lockTimeout, r) && (action.Complete? || action.Fail?) && Enabled(lockTimeout, r, action)
    ensures Act(lockTimeout, r, action).rows != r.rows <==> IsCurrent(r, Grip(action.worker, action.id))
  {
    var mine := Grip(action.worker, action.id);
    var next := Act(lockTimeout, r, action);
    if IsCurrent(r, mine) {
      assert next.rows[action.id].attempts == r.rows[action.id].attempts + 1;
    }
  }
}
