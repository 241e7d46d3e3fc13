/** Append-only partitioned logs read by consumers that apply a record, then commit its offset
    (internal/core/consumer.go, internal/notification/consumer.go). Any number of sessions may read one partition, may
    crash between the two steps, and start again from the committed offset. */
module ConsumerGroups {

  /** A session reads `partition` at `next`, and has applied that record or not. */
  datatype Session = Session(partition: nat, next: nat, applied: bool)

  datatype Group<!R> = Group(logs: map<nat, seq<R>>, committed: map<nat, nat>, sessions: map<nat, Session>) {
    function Log(partition: nat): seq<R> {
      if partition in logs then logs[partition] else []
    }

    function Committed(partition: nat): nat {
      if partition in committed then committed[partition] else 0
    }

    function Append(partition: nat, record: R): Group<R> {
      this.(logs := logs[partition := Log(partition) + [record]])
    }

    /** A session starts where the group last committed. */
    function Assign(session: nat, partition: nat): Group<R> {
      this.(sessions := sessions[session := Session(partition, Committed(partition), false)])
    }

    function Drop(session: nat): Group<R> {
      this.(sessions := sessions - {session})
    }

    /** Whether the session has a record to apply. */
    predicate CanApply(session: nat) {
      && session in sessions && !sessions[session].applied
      && sessions[session].next < |Log(sessions[session].partition)|
    }

    function Current(session: nat): R
      requires CanApply(session)
    {
      Log(sessions[session].partition)[sessions[session].next]
    }

    function MarkApplied(session: nat): Group<R>
      requires session in sessions
    {
      this.(sessions := sessions[session := sessions[session].(applied := true)])
    }

    /** Commits the offset after an applied record, and moves on. */
    function Commit(session: nat): Group<R>
      requires session in sessions
    {
      var s := sessions[session];
      this.(committed := committed[s.partition := s.next + 1],
            sessions := sessions[session := Session(s.partition, s.next + 1, false)])
    }
  }

  /** The first `n` records of a log are done. */
  ghost predicate DoneUpTo<R, I(!new)>(log: seq<R>, idOf: R -> I, done: iset<I>, n: nat) {
    n <= |log| && forall o :: 0 <= o < n ==> idOf(log[o]) in done
  }

  function Reached(s: Session): nat {
    if s.applied then s.next + 1 else s.next
  }

  ghost predicate CommitsTrack<R, I(!new)>(g: Group<R>, idOf: R -> I, done: iset<I>) {
    forall partition :: DoneUpTo(g.Log(partition), idOf, done, g.Committed(partition))
  }

  ghost predicate SessionsTrack<R, I(!new)>(g: Group<R>, idOf: R -> I, done: iset<I>) {
    forall session <- g.sessions ::
      DoneUpTo(g.Log(g.sessions[session].partition), idOf, done, Reached(g.sessions[session]))
  }

  /** No committed offset, and no session, has passed a record that is not done. */
  ghost predicate Tracks<R, I(!new)>(g: Group<R>, idOf: R -> I, done: iset<I>) {
    CommitsTrack(g, idOf, done) && SessionsTrack(g, idOf, done)
  }

  lemma AppendKeepsTrack<R, I(!new)>(g: Group<R>, idOf: R -> I, done: iset<I>, partition: nat, record: R)
    requires Tracks(g, idOf, done)
    ensures Tracks(g.Append(partition, record), idOf, done)
  {
    var next := g.Append(partition, record);
    forall p ensures DoneUpTo(next.Log(p), idOf, done, next.Committed(p)) {
      assert DoneUpTo(g.Log(p), idOf, done, g.Committed(p));
    }
    forall session | session in next.sessions
      ensures DoneUpTo(next.Log(next.sessions[session].partition), idOf, done, Reached(next.sessions[session]))
    {
      assert DoneUpTo(g.Log(g.sessions[session].partition), idOf, done, Reached(g.sessions[session]));
    }
  }

  lemma MoreDoneKeepsTrack<R, I(!new)>(g: Group<R>, idOf: R -> I, done: iset<I>, more: iset<I>)
    requires Tracks(g, idOf, done) && done <= more
    ensures Tracks(g, idOf, more)
  {
    forall p ensures DoneUpTo(g.Log(p), idOf, more, g.Committed(p)) {
      assert DoneUpTo(g.Log(p), idOf, done, g.Committed(p));
    }
  }

  lemma SessionsMoveKeepsTrack<R, I(!new)>(g: Group<R>, next: Group<R>, idOf: R -> I, done: iset<I>)
    requires Tracks(g, idOf, done) && next.logs == g.logs && next.committed == g.committed
    requires SessionsTrack(next, idOf, done)
    ensures Tracks(next, idOf, done)
  {
    forall p ensures DoneUpTo(next.Log(p), idOf, done, next.Committed(p)) {
      assert DoneUpTo(g.Log(p), idOf, done, g.Committed(p));
    }
  }

  lemma AssignKeepsTrack<R, I(!new)>(g: Group<R>, idOf: R -> I, done: iset<I>, session: nat, partition: nat)
    requires Tracks(g, idOf, done)
    ensures Tracks(g.Assign(session, partition), idOf, done)
  {
    assert DoneUpTo(g.Log(partition), idOf, done, g.Committed(partition));
    SessionsMoveKeepsTrack(g, g.Assign(session, partition), idOf, done);
  }

  lemma DropKeepsTrack<R, I(!new)>(g: Group<R>, idOf: R -> I, done: iset<I>, session: nat)
    requires Tracks(g, idOf, done)
    ensures Tracks(g.Drop(session), idOf, done)
  {
    SessionsMoveKeepsTrack(g, g.Drop(session), idOf, done);
  }

  /** A session may move past its record once that record is done. */
  lemma ApplyKeepsTrack<R, I(!new)>(g: Group<R>, idOf: R -> I, done: iset<I>, session: nat)
    requires Tracks(g, idOf, done) && g.CanApply(session) && idOf(g.Current(session)) in done
    ensures Tracks(g.MarkApplied(session), idOf, done)
  {
    assert DoneUpTo(g.Log(g.sessions[session].partition), idOf, done, Reached(g.sessions[session]));
    SessionsMoveKeepsTrack(g, g.MarkApplied(session), idOf, done);
  }

  lemma CommitKeepsTrack<R, I(!new)>(g: Group<R>, idOf: R -> I, done: iset<I>, session: nat)
    requires Tracks(g, idOf, done) && session in g.sessions && g.sessions[session].applied
    ensures Tracks(g.Commit(session), idOf, done)
  {
    var next := g.Commit(session);
    assert DoneUpTo(g.Log(g.sessions[session].partition), idOf, done, Reached(g.sessions[session]));
    forall p ensures DoneUpTo(next.Log(p), idOf, done, next.Committed(p)) {
      assert DoneUpTo(g.Log(p), idOf, done, g.Committed(p));
    }
  }

  /** A session starts at the committed offset of its partition, stays with a record until it is applied, and a commit passes
      that record and no other. */
  lemma SessionsPassOneRecordAtATime<R>(g: Group<R>, session: nat, partition: nat)
    ensures var started := g.Assign(session, partition);
            && started.logs == g.logs && started.committed == g.committed
            && session in started.sessions && started.sessions[session].partition == partition
            && started.sessions[session].next == g.Committed(partition) && !started.sessions[session].applied
    ensures g.CanApply(session) ==>
              && g.Current(session) == g.Log(g.sessions[session].partition)[g.sessions[session].next]
              && g.MarkApplied(session).committed == g.committed
              && g.MarkApplied(session).sessions[session].next == g.sessions[session].next
              && g.MarkApplied(session).sessions[session].applied
    ensures session in g.sessions ==>
              var s, next := g.sessions[session], g.Commit(session);
              && next.logs == g.logs && next.Committed(s.partition) == s.next + 1
              && (forall other :: other != s.partition ==> next.Committed(other) == g.Committed(other))
              && next.sessions[session].next == s.next + 1 && next.sessions[session].partition == s.partition
              && !next.sessions[session].applied
  {
  }
}
