/** Historical backfill in checkpointed windows (internal/ingestion/service.go, RunBackfill). Any statement may fail; a
    call then returns with what it has done so far, and a later call on the same range resumes at the checkpoint. */
module Backfills {
  import opened Wrappers
  import opened IncidentTables
  import opened Repositories
  import opened OutboxRelay

  datatype Window = Window(start: int, end: int)

  /** Ranges are told apart in whole seconds. */
  datatype RangeKey = RangeKey(from: int, to: int)

  function KeyOfRange(from: int, to: int): RangeKey {
    RangeKey(from / SECOND, to / SECOND)
  }

  /** Both times lie in the second that begins `n` seconds after the epoch. */
  predicate IsSecondOf(n: int, a: int, b: int) {
    n * 1_000_000_000 <= a < (n + 1) * 1_000_000_000 && n * 1_000_000_000 <= b < (n + 1) * 1_000_000_000
  }

  lemma SecondsAgreeExactlyWhen(a: int, b: int)
    ensures a / SECOND == b / SECOND <==> exists n :: IsSecondOf(n, a, b)
  {
    if a / SECOND == b / SECOND {
      assert IsSecondOf(a / SECOND, a, b);
    }
    if exists n :: IsSecondOf(n, a, b) {
      var n :| IsSecondOf(n, a, b);
      QuotientIs(a, n);
      QuotientIs(b, n);
    }
  }

  lemma QuotientIs(a: int, n: int)
    requires n * 1_000_000_000 <= a < (n + 1) * 1_000_000_000
    ensures a / SECOND == n
  {
  }

  /** Two ranges share a checkpoint if and only if they begin in one second and end in one. */
  lemma KeysAgreeExactlyWhen(from: int, to: int, otherFrom: int, otherTo: int)
    ensures KeyOfRange(from, to) == KeyOfRange(otherFrom, otherTo) <==>
            (exists n :: IsSecondOf(n, from, otherFrom)) && (exists n :: IsSecondOf(n, to, otherTo))
  {
    SecondsAgreeExactlyWhen(from, otherFrom);
    SecondsAgreeExactlyWhen(to, otherTo);
  }

  datatype BackfillError = FromNotBeforeTo | Interrupted

  /** Stored checkpoints, and the history of windows whose observations were all applied. */
  datatype Progress = Progress(checkpoints: map<RangeKey, int>, windows: seq<Window>) {
    /** Where a call on a range begins. */
    function Start(from: int, to: int): int {
      var key := KeyOfRange(from, to);
      if key in checkpoints && checkpoints[key] > from then checkpoints[key] else from
    }
  }

  /** A window is as long as a chunk, or shorter at the end of its range. */
  predicate IsChunk(w: Window, chunk: int, to: int) {
    w.end - w.start == chunk || (w.end == to && 0 < w.end - w.start < chunk)
  }

  predicate AreChunks(windows: seq<Window>, first: nat, chunk: int, to: int) {
    forall k :: first <= k < |windows| ==> IsChunk(windows[k], chunk, to)
  }

  ghost predicate Within(windows: seq<Window>, time: int) {
    exists w <- windows :: w.start <= time < w.end
  }

  ghost predicate Covered(windows: seq<Window>, from: int, to: int) {
    forall time :: from <= time < to ==> Within(windows, time)
  }

  /** Windows that begin at `from`, join end to end, and finish at `to`. */
  predicate Joined(windows: seq<Window>, from: int, to: int) {
    if windows == [] then
      from == to
    else
      var last := windows[|windows| - 1];
      last.end == to && last.start < to && Joined(windows[..|windows| - 1], from, last.start)
  }

  lemma {:induction false} JoinedCoversExactly(windows: seq<Window>, from: int, to: int)
    requires Joined(windows, from, to)
    ensures from <= to
    ensures forall time :: Within(windows, time) <==> from <= time < to
  {
    if windows != [] {
      var earlier, last := windows[..|windows| - 1], windows[|windows| - 1];
      JoinedCoversExactly(earlier, from, last.start);
      forall time ensures Within(windows, time) <==> from <= time < to {
        assert windows == earlier + [last];
        if Within(earlier, time) {
          var w :| w in earlier && w.start <= time < w.end;
          assert w in windows;
        }
        if last.start <= time < last.end {
          assert last in windows;
        }
        assert Within(windows, time) <==> Within(earlier, time) || last.start <= time < last.end;
      }
    }
  }

  /** What a call on [from, to) does: it adds joined windows from its start on, and the checkpoint of the range follows
      them without passing their end; on success the windows reach the end of the range. */
  ghost predicate Advances(before: Progress, after: Progress, from: int, to: int, result: Result<(), BackfillError>) {
    var key, start := KeyOfRange(from, to), before.Start(from, to);
    if from >= to then
      after == before && result == Failure(FromNotBeforeTo)
    else
      && before.windows <= after.windows
      && var added := after.windows[|before.windows|..];
         && (exists reached :: ReachedBy(added, start, reached) && after.Start(from, to) <= reached)
         && after.checkpoints.Keys <= before.checkpoints.Keys + {key}
         && (forall other <- before.checkpoints :: other in after.checkpoints
               && (other != key ==> after.checkpoints[other] == before.checkpoints[other])
               && after.checkpoints[other] >= before.checkpoints[other])
         && (result.Success? ==> (start >= to && added == []) || (Joined(added, start, to) && after.Start(from, to) == to))
         && result != Failure(FromNotBeforeTo)
  }

  /** Between windows, with the checkpoint at the end of the last one. */
  ghost predicate Midway(before: Progress, p: Progress, from: int, to: int, start: int) {
    && from < to && before.windows <= p.windows
    && Joined(p.windows[|before.windows|..], before.Start(from, to), start)
    && (if p.windows == before.windows then p.checkpoints == before.checkpoints
        else from < start <= to && p.checkpoints == before.checkpoints[KeyOfRange(from, to) := start])
  }

  lemma MidwayIsReached(before: Progress, p: Progress, from: int, to: int, start: int)
    requires Midway(before, p, from, to, start)
    ensures Advances(before, p, from, to, Failure(Interrupted))
    ensures start >= to ==> Advances(before, p, from, to, Success(()))
    ensures p.windows == before.windows ==> start == before.Start(from, to)
    ensures from <= start
  {
    var added := p.windows[|before.windows|..];
    assert p.windows == before.windows + added;
    JoinedCoversExactly(added, before.Start(from, to), start);
    assert ReachedBy(added, before.Start(from, to), start);
  }

  lemma JoinedExtends(windows: seq<Window>, from: int, start: int, end: int)
    requires Joined(windows, from, start) && start < end
    ensures Joined(windows + [Window(start, end)], from, end)
  {
    assert (windows + [Window(start, end)])[..|windows|] == windows;
  }

  lemma OneMoreIsJoined(before: Progress, p: Progress, next: Progress, from: int, to: int, start: int, end: int)
    requires Midway(before, p, from, to, start) && start < end <= to
    requires next.windows == p.windows + [Window(start, end)]
    ensures from <= start && before.windows <= next.windows
    ensures Joined(next.windows[|before.windows|..], before.Start(from, to), end)
  {
    MidwayIsReached(before, p, from, to, start);
    var earlier := p.windows[|before.windows|..];
    assert next.windows[|before.windows|..] == earlier + [Window(start, end)];
    JoinedExtends(earlier, before.Start(from, to), start, end);
  }

  lemma StoredWindowIsMidway(before: Progress, p: Progress, next: Progress, from: int, to: int, start: int, end: int)
    requires Midway(before, p, from, to, start) && start < end <= to
    requires next.windows == p.windows + [Window(start, end)] && next.checkpoints == p.checkpoints[KeyOfRange(from, to) := end]
    ensures Midway(before, next, from, to, end)
  {
    OneMoreIsJoined(before, p, next, from, to, start, end);
  }

  lemma LostCheckpointAdvances(before: Progress, p: Progress, next: Progress, from: int, to: int, start: int, end: int)
    requires Midway(before, p, from, to, start) && start < end <= to
    requires next.windows == p.windows + [Window(start, end)] && next.checkpoints == p.checkpoints
    ensures Advances(before, next, from, to, Failure(Interrupted))
  {
    MidwayIsReached(before, p, from, to, start);
    OneMoreIsJoined(before, p, next, from, to, start, end);
    assert ReachedBy(next.windows[|before.windows|..], before.Start(from, to), end);
  }

  ghost predicate ReachedBy(added: seq<Window>, start: int, reached: int) {
    Joined(added, start, reached)
  }

  /** All that lies before the checkpoint of a range was applied. */
  ghost predicate CheckpointIsCovered(p: Progress, from: int, to: int) {
    Covered(p.windows, from, p.Start(from, to))
  }

  lemma MoreWindowsCoverMore(windows: seq<Window>, more: seq<Window>, from: int, to: int)
    requires windows <= more && Covered(windows, from, to)
    ensures Covered(more, from, to)
  {
    forall time | from <= time < to ensures Within(more, time) {
      assert Within(windows, time);
      var w :| w in windows && w.start <= time < w.end;
      assert w in more;
    }
  }

  /** Each call of any series on one range, however it ends, keeps everything before the checkpoint covered, and a call
      that succeeds leaves the whole range covered. */
  lemma AdvancesKeepsCoverage(before: Progress, after: Progress, from: int, to: int, result: Result<(), BackfillError>)
    requires Advances(before, after, from, to, result) && CheckpointIsCovered(before, from, to)
    ensures CheckpointIsCovered(after, from, to)
    ensures before.Start(from, to) <= after.Start(from, to)
    ensures result.Success? ==> Covered(after.windows, from, to)
  {
    if from < to {
      var start := before.Start(from, to);
      var added := after.windows[|before.windows|..];
      var reached :| ReachedBy(added, start, reached) && after.Start(from, to) <= reached;
      JoinedCoversExactly(added, start, reached);
      MoreWindowsCoverMore(before.windows, after.windows, from, start);
      forall time | from <= time < reached ensures Within(after.windows, time) {
        if time >= start {
          assert Within(added, time);
          var w :| w in added && w.start <= time < w.end;
          assert w in after.windows;
        } else {
          assert Within(after.windows, time);
        }
      }
      if result.Success? && !(start >= to && added == []) {
        JoinedCoversExactly(added, start, to);
        assert !Within(added, reached);
      }
    }
  }

  /** A call that succeeds covers its range if and only if what lies before its start was covered before. */
  lemma SuccessCoversExactlyWhenTheStartIsCovered(before: Progress, after: Progress, from: int, to: int)
    requires from < to && Advances(before, after, from, to, Success(()))
    ensures Covered(after.windows, from, to) <==>
            Covered(before.windows, from, if before.Start(from, to) < to then before.Start(from, to) else to)
  {
    var start := before.Start(from, to);
    var added := after.windows[|before.windows|..];
    assert after.windows == before.windows + added;
    if !(start >= to && added == []) {
      JoinedCoversExactly(added, start, to);
    }
    forall time ensures Within(after.windows, time) <==> Within(before.windows, time) || Within(added, time) {
      if Within(before.windows, time) {
        var w :| w in before.windows && w.start <= time < w.end;
        assert w in after.windows;
      }
      if Within(added, time) {
        var w :| w in added && w.start <= time < w.end;
        assert w in after.windows;
      }
    }
    forall time ensures Within(added, time) <==> start <= time < to {
      if start >= to && added == [] {
        assert !Within([], time);
      }
    }
  }

  const NOTHING: Progress := Progress(map[], [])

  /** Calls on one range, one after the other, from the very first. */
  ghost predicate IsSeries(states: seq<Progress>, results: seq<Result<(), BackfillError>>, from: int, to: int) {
    && |states| == |results| + 1 && states[0] == NOTHING
    && forall i :: 0 <= i < |results| ==> Advances(states[i], states[i + 1], from, to, results[i])
  }

  /** Any series of calls on one range keeps everything before the checkpoint covered and never moves it back, and once a
      call has succeeded the whole range stays covered. */
  lemma {:induction false} SeriesKeepsCoverage(states: seq<Progress>, results: seq<Result<(), BackfillError>>, from: int, to: int)
    requires IsSeries(states, results, from, to)
    ensures CheckpointIsCovered(states[|results|], from, to)
    ensures forall i :: 0 <= i < |results| ==> states[i].Start(from, to) <= states[|results|].Start(from, to)
    ensures (exists result <- results :: result.Success?) ==> Covered(states[|results|].windows, from, to)
  {
    if results != [] {
      var n := |results| - 1;
      SeriesKeepsCoverage(states[..n + 1], results[..n], from, to);
      AdvancesKeepsCoverage(states[n], states[n + 1], from, to, results[n]);
      if Covered(states[n].windows, from, to) {
        MoreWindowsCoverMore(states[n].windows, states[n + 1].windows, from, to);
      }
      if result :| result in results && result.Success? {
        assert result in results[..n] || result == results[n];
      }
    }
  }

  /** A call on a range that begins late in a second may succeed from the start. */
  lemma LateRangeSucceeds()
    ensures var to, late := 10 * SECOND, SECOND / 2;
            Advances(NOTHING, Progress(map[KeyOfRange(late, to) := to], [Window(late, to)]), late, to, Success(()))
  {
    var to, late := 10 * SECOND, SECOND / 2;
    var windows := [Window(late, to)];
    var after := Progress(map[KeyOfRange(late, to) := to], windows);
    assert windows[..|windows| - 1] == [] && Joined([], late, late);
    assert Joined(windows, late, to) && ReachedBy(windows, late, to);
    assert after.windows[|NOTHING.windows|..] == windows && NOTHING.Start(late, to) == late && after.Start(late, to) == to;
  }

  /** Two ranges that begin within the same second share a checkpoint: whenever the one that begins later has been
      backfilled, backfilling the other succeeds at once and leaves its beginning uncovered. */
  lemma SharedSecondSkips(before: Progress, after: Progress)
    requires var to, late := 10 * SECOND, SECOND / 2;
             Advances(NOTHING, before, late, to, Success(())) && Advances(before, after, 0, to, Success(()))
    ensures !Covered(after.windows, 0, 10 * SECOND)
  {
    var to, late := 10 * SECOND, SECOND / 2;
    assert KeyOfRange(late, to) == KeyOfRange(0, to);
    assert before.windows[0..] == before.windows && Joined(before.windows, late, to);
    JoinedCoversExactly(before.windows, late, to);
    SuccessCoversExactlyWhenTheStartIsCovered(before, after, 0, to);
    assert !Within(before.windows, 0);
  }

  // ----- The program -----

  ghost predicate Observed(applied: seq<Input>, obs: Observation) {
    exists input <- applied :: input.obs == obs
  }

  ghost predicate AllObserved(applied: seq<Input>, events: seq<Observation>) {
    forall obs <- events :: Observed(applied, obs)
  }

  ghost predicate PagesObserved(applied: seq<Input>, pages: seq<seq<Observation>>) {
    forall page <- pages :: AllObserved(applied, page)
  }

  ghost predicate WindowsObserved(applied: seq<Input>, pages: (int, int) -> seq<seq<Observation>>, windows: seq<Window>) {
    forall w <- windows :: PagesObserved(applied, pages(w.start, w.end))
  }

  lemma MoreIsObserved(applied: seq<Input>, more: seq<Input>, events: seq<Observation>)
    requires applied <= more && AllObserved(applied, events)
    ensures AllObserved(more, events)
  {
    forall obs <- events ensures Observed(more, obs) {
      assert Observed(applied, obs);
      var input :| input in applied && input.obs == obs;
      assert input in more;
    }
  }

  lemma MorePagesAreObserved(applied: seq<Input>, more: seq<Input>, pages: seq<seq<Observation>>)
    requires applied <= more && PagesObserved(applied, pages)
    ensures PagesObserved(more, pages)
  {
    forall page <- pages ensures AllObserved(more, page) {
      MoreIsObserved(applied, more, page);
    }
  }

  lemma MoreWindowsAreObserved(applied: seq<Input>, more: seq<Input>, pages: (int, int) -> seq<seq<Observation>>,
                               windows: seq<Window>)
    requires applied <= more && WindowsObserved(applied, pages, windows)
    ensures WindowsObserved(more, pages, windows)
  {
    forall w <- windows ensures PagesObserved(more, pages(w.start, w.end)) {
      MorePagesAreObserved(applied, more, pages(w.start, w.end));
    }
  }

  predicate Carry(inputs: seq<Input>, events: seq<Observation>) {
    |inputs| == |events| && forall k :: 0 <= k < |events| ==> inputs[k].obs == events[k]
  }

  /** The observations, and nothing else, were applied in this order. */
  ghost predicate Appends(before: seq<Input>, after: seq<Input>, events: seq<Observation>) {
    before <= after && Carry(after[|before|..], events)
  }

  ghost function Flat(pages: seq<seq<Observation>>): seq<Observation> {
    if pages == [] then [] else Flat(pages[..|pages| - 1]) + pages[|pages| - 1]
  }

  lemma AppendsJoin(before: seq<Input>, middle: seq<Input>, after: seq<Input>, a: seq<Observation>, b: seq<Observation>)
    requires Appends(before, middle, a) && Appends(middle, after, b)
    ensures Appends(before, after, a + b)
  {
  }

  /** The page's first `i` observations, or all of them, were applied. */
  ghost predicate IsApplied(before: seq<Input>, after: seq<Input>, events: seq<Observation>, i: nat) {
    Appends(before, after, events[..UpTo(i, events)])
  }

  lemma NextBatchIsApplied(before: seq<Input>, middle: seq<Input>, after: seq<Input>, events: seq<Observation>, i: nat, next: nat)
    requires i < |events| && i <= next && IsApplied(before, middle, events, i)
    requires Appends(middle, after, events[i..UpTo(next, events)])
    ensures IsApplied(before, after, events, next)
  {
    AppendsJoin(before, middle, after, events[..i], events[i..UpTo(next, events)]);
    assert events[..UpTo(next, events)] == events[..i] + events[i..UpTo(next, events)];
  }

  lemma AllIsApplied(before: seq<Input>, after: seq<Input>, events: seq<Observation>, i: nat)
    requires IsApplied(before, after, events, i) && i >= |events|
    ensures Appends(before, after, events)
  {
    assert events[..|events|] == events;
  }

  lemma FlatOneMore(all: seq<seq<Observation>>, n: nat)
    requires n < |all|
    ensures Flat(all[..n + 1]) == Flat(all[..n]) + all[n]
  {
    assert all[..n + 1][..n] == all[..n];
  }

  lemma {:induction false} FlatHolds(pages: seq<seq<Observation>>, page: seq<Observation>, obs: Observation)
    requires page in pages && obs in page
    ensures obs in Flat(pages)
  {
    assert pages == pages[..|pages| - 1] + [pages[|pages| - 1]];
    if page != pages[|pages| - 1] {
      FlatHolds(pages[..|pages| - 1], page, obs);
    }
  }

  /** What was applied page by page was observed. */
  lemma FlatIsObserved(before: seq<Input>, applied: seq<Input>, pages: seq<seq<Observation>>)
    requires Appends(before, applied, Flat(pages))
    ensures PagesObserved(applied, pages)
  {
    var added := applied[|before|..];
    forall page, obs | page in pages && obs in page ensures Observed(applied, obs) {
      FlatHolds(pages, page, obs);
      var k :| 0 <= k < |added| && added[k].obs == obs;
      assert added[k] in applied;
    }
  }

  function UpTo(i: nat, events: seq<Observation>): (end: nat)
    ensures end <= |events|
  {
    if i > |events| then |events| else i
  }

  /** The store went from `begun` to `tables` by applying `inputs`, each of them successfully. */
  ghost predicate Folds(geo: Geography, begun: Tables, inputs: seq<Input>, tables: Tables) {
    var folded := ApplyAll(geo, begun, inputs);
    folded.Success? && folded.value.0 == tables
  }

  lemma {:induction false} FoldsJoin(geo: Geography, begun: Tables, a: seq<Input>, middle: Tables, b: seq<Input>, tables: Tables)
    requires Folds(geo, begun, a, middle) && Folds(geo, middle, b, tables)
    ensures Folds(geo, begun, a + b, tables)
  {
    if b == [] {
      assert a + b == a;
    } else {
      var earlier := b[..|b| - 1];
      FoldsJoin(geo, begun, a, middle, earlier, ApplyAll(geo, middle, earlier).value.0);
      assert (a + b)[..|a + b| - 1] == a + earlier;
    }
  }

  class Service {
    const store: Repository
    /** The pages that the provider answers for a window. */
    const pages: (int, int) -> seq<seq<Observation>>
    const batchSize: nat
    var checkpoints: map<RangeKey, int>
    /** How many statements and fetches have failed. */
    var failures: nat
    ghost var windows: seq<Window>
    ghost var applied: seq<Input>
    ghost const begun: Tables

    constructor (store: Repository, pages: (int, int) -> seq<seq<Observation>>, batchSize: nat)
      requires batchSize > 0
      ensures this.store == store && this.pages == pages && this.batchSize == batchSize
      ensures checkpoints == map[] && failures == 0 && windows == [] && applied == [] && begun == store.State() && Valid()
    {
      this.store, this.pages, this.batchSize := store, pages, batchSize;
      checkpoints, failures, windows, applied, begun := map[], 0, [], [], store.State();
    }

    /** The store holds what was applied to it, and that includes all that the finished windows hold. */
    ghost predicate Valid()
      reads this, store
    {
      && batchSize > 0
      && Folds(store.geo, begun, applied, store.State())
      && WindowsObserved(applied, pages, windows)
    }

    ghost function Made(): Progress
      reads this
    {
      Progress(checkpoints, windows)
    }

    /** A statement or a fetch, which may fail. */
    method Try() returns (ok: bool)
      modifies this`failures
      ensures failures == old(failures) + if ok then 0 else 1
    {
      ok := *;
      if !ok {
        failures := failures + 1;
      }
    }

    static method MakeInputs(events: seq<Observation>, now: int) returns (inputs: seq<Input>)
      ensures Carry(inputs, events)
    {
      inputs := [];
      for i := 0 to |events|
        invariant |inputs| == i && forall k :: 0 <= k < i ==> inputs[k].obs == events[k]
      {
        var minted: nat := *;
        inputs := inputs + [Input(events[i], minted, now)];
      }
    }

    /** One batch in one transaction. */
    method ApplyBatch(events: seq<Observation>, now: int) returns (ok: bool)
      requires Valid() && |events| <= batchSize
      modifies store, this`applied, this`failures
      ensures Valid() && old(applied) <= applied
      ensures ok ==> Appends(old(applied), applied, events)
      ensures !ok ==> applied == old(applied)
      ensures failures == old(failures) + if ok then 0 else 1
    {
      var inputs := MakeInputs(events, now);
      ghost var before := store.State();
      var stats := store.ApplyBatch(inputs);
      if stats.Failure? {
        failures := failures + 1;
        return false;
      }
      FoldsJoin(store.geo, begun, applied, before, inputs, store.State());
      MoreWindowsAreObserved(applied, applied + inputs, pages, windows);
      applied := applied + inputs;
      return true;
    }

    /** One page, batch by batch. */
    method ApplyPage(events: seq<Observation>, now: int) returns (ok: bool)
      requires Valid()
      modifies store, this`applied, this`failures
      ensures Valid() && old(applied) <= applied
      ensures ok ==> Appends(old(applied), applied, events)
      ensures failures == old(failures) + if ok then 0 else 1
    {
      var i := 0;
      ghost var first := applied;
      while i < |events|
        invariant 0 <= i && Valid() && first <= applied && failures == old(failures)
        invariant IsApplied(first, applied, events, i)
      {
        var j := UpTo(i + batchSize, events);
        ghost var before := applied;
        ok := ApplyBatch(events[i..j], now);
        if !ok {
          return;
        }
        NextBatchIsApplied(first, before, applied, events, i, i + batchSize);
        i := i + batchSize;
      }
      AllIsApplied(first, applied, events, i);
      return true;
    }

    /** All pages of a window, until the provider has no next page. */
    method ApplyWindow(start: int, end: int, now: int) returns (ok: bool)
      requires Valid()
      modifies store, this`applied, this`failures
      ensures Valid() && old(applied) <= applied
      ensures failures == old(failures) + if ok then 0 else 1
      ensures ok ==> PagesObserved(applied, pages(start, end))
      ensures ok ==> Appends(old(applied), applied, Flat(pages(start, end)))
    {
      var all := pages(start, end);
      var cursor := 0;
      ghost var first := applied;
      while cursor < |all|
        invariant 0 <= cursor <= |all| && Valid() && first <= applied && failures == old(failures)
        invariant Appends(first, applied, Flat(all[..cursor]))
      {
        var fetched := Try();
        if !fetched {
          return false;
        }
        ghost var before := applied;
        ok := ApplyPage(all[cursor], now);
        if !ok {
          return;
        }
        FlatOneMore(all, cursor);
        AppendsJoin(first, before, applied, Flat(all[..cursor]), all[cursor]);
        cursor := cursor + 1;
      }
      assert all[..|all|] == all;
      FlatIsObserved(first, applied, all);
      return true;
    }

    /** One window: its pages, then its checkpoint, then its run's record. `finished` tells whether all pages were applied. */
    method RunWindow(key: RangeKey, start: int, end: int, now: int) returns (ok: bool, ghost finished: bool)
      requires Valid() && start < end
      modifies store, this
      ensures Valid() && old(applied) <= applied
      ensures windows == old(windows) + if finished then [Window(start, end)] else []
      ensures checkpoints == old(checkpoints) || (finished && checkpoints == old(checkpoints)[key := end])
      ensures failures == old(failures) + if ok then 0 else 1
      ensures ok ==> finished && checkpoints == old(checkpoints)[key := end]
    {
      finished := false;
      ok := Try();
      if !ok {
        return;
      }
      ok := ApplyWindow(start, end, now);
      if !ok {
        return;
      }
      windows := windows + [Window(start, end)];
      finished := true;
      ok := Try();
      if !ok {
        return;
      }
      checkpoints := checkpoints[key := end];
      ok := Try();
    }

    method NextWindow(key: RangeKey, start: int, to: int, chunk: int, now: int, ghost before: Progress, ghost from: int)
      returns (ok: bool, end: int)
      requires Valid() && chunk > 0 && start < to && key == KeyOfRange(from, to)
      requires Midway(before, Made(), from, to, start)
      modifies store, this
      ensures Valid() && old(applied) <= applied
      ensures start < end <= to
      ensures if ok then Midway(before, Made(), from, to, end) else Advances(before, Made(), from, to, Failure(Interrupted))
      ensures failures == old(failures) + if ok then 0 else 1
      ensures IsChunk(Window(start, end), chunk, to)
      ensures windows == old(windows) || windows == old(windows) + [Window(start, end)]
    {
      end := start + chunk;
      if end > to {
        end := to;
      }
      ghost var p, finished := Made(), false;
      MidwayIsReached(before, p, from, to, start);
      ok, finished := RunWindow(key, start, end, now);
      if finished {
        if Made().checkpoints == p.checkpoints {
          LostCheckpointAdvances(before, p, Made(), from, to, start, end);
        }
        if Made().checkpoints == p.checkpoints[key := end] {
          StoredWindowIsMidway(before, p, Made(), from, to, start, end);
          MidwayIsReached(before, Made(), from, to, end);
        }
      } else {
        assert Made() == p;
      }
    }

    /** Applies the windows of [from, to) from its checkpoint on, and stores the checkpoint after each. */
    method RunBackfill(from: int, to: int, chunk: int, now: int) returns (result: Result<(), BackfillError>)
      requires Valid() && chunk > 0
      modifies store, this
      ensures Valid() && old(applied) <= applied
      ensures Advances(old(Made()), Made(), from, to, result)
      ensures result == Failure(FromNotBeforeTo) <==> from >= to
      ensures failures == old(failures) + if result == Failure(Interrupted) then 1 else 0
      ensures AreChunks(windows, |old(windows)|, chunk, to)
    {
      if from >= to {
        return Failure(FromNotBeforeTo);
      }
      var key := KeyOfRange(from, to);
      ghost var before := Made();
      var start := from;
      if key in checkpoints && checkpoints[key] > from {
        start := checkpoints[key];
      }
      MidwayIsReached(before, before, from, to, start);
      var ok := Try();
      if !ok {
        return Failure(Interrupted);
      }
      while start < to
        invariant Valid() && old(applied) <= applied && failures == old(failures)
        invariant Midway(before, Made(), from, to, start)
        invariant AreChunks(windows, |old(windows)|, chunk, to)
        decreases if start < to then to - start else 0
      {
        var end;
        ok, end := NextWindow(key, start, to, chunk, now, before, from);
        if !ok {
          return Failure(Interrupted);
        }
        start := end;
      }
      MidwayIsReached(before, Made(), from, to, start);
      return Success(());
    }
  }
}
