/** The bounded buffer refines the unbounded log, and a replay is never partial. */
module ReplayBuffer {
  import opened Protocol
  import opened Engine
  import opened SessionModel
  import opened SessionRuns

  /** Numbered from 1 to at most `upTo`, strictly increasing, possibly with holes. */
  ghost predicate Ordered(entries: seq<Entry>, upTo: nat) {
    && (forall i | 0 <= i < |entries| ::
          entries[i].event.HasSeq() && 1 <= entries[i].event.sessionSeq <= upTo)
    && (forall i, j | 0 <= i < j < |entries| :: entries[i].event.sessionSeq < entries[j].event.sessionSeq)
  }

  /** The buffer is the last min(n, 500) entries of the log. */
  ghost predicate Buffered(s: Session) {
    && Ordered(s.log, s.seqNo)
    && s.buffer == Trim(s.log)
  }

  /** Consecutive numbers, starting right after `number`. */
  ghost predicate NumberedFrom(news: seq<Entry>, number: nat) {
    forall i | 0 <= i < |news| :: news[i].event.HasSeq() && news[i].event.sessionSeq == number + 1 + i
  }

  lemma NewsAreNumbered(w: World, op: Op)
    ensures NumberedFrom(News(w, op), Numbered(w.session, op).seqNo)
  {
    hide ApplyMove;
    hide Agreed;
    hide StatsOf;
  }

  lemma AnnounceKeepsBuffered(s: Session, t: Session, news: seq<Entry>, extra: seq<Entry>)
    requires Buffered(s) && NumberedFrom(news, s.seqNo) && Announced(s, t, news, extra)
    ensures Buffered(t)
  {
    if news != [] {
      assert Trim(Trim(s.log) + news) == Trim(s.log + news);
    }
  }

  lemma {:induction false} StepKeepsBuffered(w: World, op: Op)
    requires Buffered(w.session)
    ensures Buffered(Step(w, op).session)
  {
    hide Step;
    hide News;
    hide Starts;
    hide SkipsNumber;
    StepAnnounces(w, op);
    NewsAreNumbered(w, op);
    AnnounceKeepsBuffered(Numbered(w.session, op), Step(w, op).session, News(w, op), Unbuffered(w.session, op));
  }

  lemma {:induction false} RunIsBuffered(w: World, ops: seq<Op>)
    requires Buffered(w.session)
    ensures Buffered(Run(w, ops).session)
  {
    hide Step;
    if ops != [] {
      RunIsBuffered(w, ops[..|ops| - 1]);
      StepKeepsBuffered(Run(w, ops[..|ops| - 1]), ops[|ops| - 1]);
    }
  }

  // ---------- what a replay contains ----------

  /** The event numbered `fromSeq` is still buffered and this player may see it. */
  ghost predicate Anchored(s: Session, fromSeq: int, p: PlayerId) {
    exists i | 0 <= i < |s.buffer| ::
      s.buffer[i].event.HasSeq() && s.buffer[i].event.sessionSeq == fromSeq && VisibleTo(s.buffer[i], p)
  }

  lemma {:induction false} ScopedAppend(a: seq<Entry>, b: seq<Entry>, fromSeq: int, p: PlayerId)
    ensures Scoped(a + b, fromSeq, p) == Scoped(a, fromSeq, p) + Scoped(b, fromSeq, p)
    decreases |b|
  {
    if b == [] {
      assert a + b == a;
    } else {
      assert (a + b)[..|a| + |b| - 1] == a + b[..|b| - 1];
      ScopedAppend(a, b[..|b| - 1], fromSeq, p);
    }
  }

  lemma {:induction false} ScopedIsEmpty(entries: seq<Entry>, fromSeq: int, p: PlayerId)
    ensures Scoped(entries, fromSeq, p) == [] <==> forall i | 0 <= i < |entries| :: !Relevant(entries[i], fromSeq, p)
  {
    if entries != [] {
      ScopedIsEmpty(entries[..|entries| - 1], fromSeq, p);
      assert forall i | 0 <= i < |entries| - 1 :: entries[i] == entries[..|entries| - 1][i];
    }
  }

  /** The first scoped event is the first relevant entry. */
  lemma ScopedFirst(entries: seq<Entry>, fromSeq: int, p: PlayerId, k: nat)
    requires k < |entries| && Relevant(entries[k], fromSeq, p)
    requires forall i | 0 <= i < k :: !Relevant(entries[i], fromSeq, p)
    ensures Scoped(entries, fromSeq, p) != [] && Scoped(entries, fromSeq, p)[0] == entries[k].event
  {
    ScopedIsEmpty(entries[..k], fromSeq, p);
    var head := entries[..k + 1];
    assert head[..k] == entries[..k];
    assert Scoped(head, fromSeq, p) == [entries[k].event];
    ScopedAppend(head, entries[k + 1..], fromSeq, p);
    assert head + entries[k + 1..] == entries;
  }

  lemma FirstRelevant(entries: seq<Entry>, fromSeq: int, p: PlayerId, k: nat) returns (j: nat)
    requires k < |entries| && Relevant(entries[k], fromSeq, p)
    ensures j <= k && Relevant(entries[j], fromSeq, p)
    ensures forall i | 0 <= i < j :: !Relevant(entries[i], fromSeq, p)
  {
    if i: nat :| i < k && Relevant(entries[i], fromSeq, p) {
      j := FirstRelevant(entries, fromSeq, p, i);
    } else {
      j := k;
    }
  }

  /**
   What `getReplayEvents` answers in every state with a sound buffer.  It returns events exactly
   when the event numbered `fromSeq` is buffered and visible to the player, and then they are all
   the events of the log from there on that the player may see, in order: trimming never makes a
   replay partial.  It refuses exactly when something visible is buffered but not `fromSeq` itself.
   */
  lemma ReplayExact(s: Session, fromSeq: int, p: PlayerId)
    requires Buffered(s)
    ensures var replay := ReplayEvents(s, fromSeq, p);
            && ((replay.Some? && replay.value != []) <==> Anchored(s, fromSeq, p))
            && (Anchored(s, fromSeq, p) ==> replay == Some(Scoped(s.log, fromSeq, p)))
            && (replay.None? <==> Scoped(s.buffer, fromSeq, p) != [] && !Anchored(s, fromSeq, p))
  {
    hide Trim;
    hide Scoped;
    hide Buffered;
    if Anchored(s, fromSeq, p) {
      AnchoredReplay(s, fromSeq, p);
    } else {
      UnanchoredReplay(s, fromSeq, p);
    }
  }

  lemma AnchoredReplay(s: Session, fromSeq: int, p: PlayerId)
    requires Buffered(s) && Anchored(s, fromSeq, p)
    ensures Scoped(s.buffer, fromSeq, p) != [] && Scoped(s.buffer, fromSeq, p)[0].HasSeq()
    ensures Scoped(s.buffer, fromSeq, p)[0].sessionSeq == fromSeq <= s.seqNo
    ensures Scoped(s.log, fromSeq, p) == Scoped(s.buffer, fromSeq, p)
  {
    hide Trim;
    hide Buffered;
    hide Scoped;
    hide VisibleTo;
    var a: nat :| a < |s.buffer| && s.buffer[a].event.HasSeq() && s.buffer[a].event.sessionSeq == fromSeq
                  && VisibleTo(s.buffer[a], p);
    OlderAreSmaller(s, a);
    var dropped := |s.log| - |s.buffer|;
    assert s.log == s.log[..dropped] + s.buffer;
    ScopedFirst(s.buffer, fromSeq, p, a);
    ScopedIsEmpty(s.log[..dropped], fromSeq, p);
    ScopedAppend(s.log[..dropped], s.buffer, fromSeq, p);
  }

  lemma OlderAreSmaller(s: Session, a: nat)
    requires Buffered(s) && a < |s.buffer|
    ensures |s.buffer| <= |s.log| && s.buffer == s.log[|s.log| - |s.buffer|..]
    ensures s.buffer[a].event.HasSeq() && s.buffer[a].event.sessionSeq <= s.seqNo
    ensures forall i | 0 <= i < |s.log| - |s.buffer| ::
              s.log[i].event.HasSeq() && s.log[i].event.sessionSeq < s.buffer[a].event.sessionSeq
    ensures forall i | 0 <= i < a ::
              s.buffer[i].event.HasSeq() && s.buffer[i].event.sessionSeq < s.buffer[a].event.sessionSeq
  {
    assert s.buffer[a] == s.log[|s.log| - |s.buffer| + a];
  }

  lemma UnanchoredReplay(s: Session, fromSeq: int, p: PlayerId)
    requires Buffered(s) && !Anchored(s, fromSeq, p)
    ensures var relevant := Scoped(s.buffer, fromSeq, p);
            relevant != [] ==> fromSeq <= s.seqNo && relevant[0].HasSeq() && relevant[0].sessionSeq > fromSeq
  {
    ScopedIsEmpty(s.buffer, fromSeq, p);
    if Scoped(s.buffer, fromSeq, p) != [] {
      var k :| 0 <= k < |s.buffer| && Relevant(s.buffer[k], fromSeq, p);
      var first := FirstRelevant(s.buffer, fromSeq, p, k);
      ScopedFirst(s.buffer, fromSeq, p, first);
      assert s.buffer[first] == s.log[|s.log| - |s.buffer| + first];
    }
  }

  /** The same for every state a session can reach. */
  lemma RunReplayExact(w: World, ops: seq<Op>, fromSeq: int, p: PlayerId)
    requires Created(w)
    ensures var s := Run(w, ops).session;
            && |s.buffer| == (if |s.log| < 500 then |s.log| else 500)
            && s.buffer == s.log[|s.log| - |s.buffer|..]
            && Ordered(s.log, s.seqNo)
            && (Anchored(s, fromSeq, p) <==>
                  ReplayEvents(s, fromSeq, p).Some? && ReplayEvents(s, fromSeq, p).value != [])
            && (Anchored(s, fromSeq, p) ==> ReplayEvents(s, fromSeq, p) == Some(Scoped(s.log, fromSeq, p)))
  {
    RunIsBuffered(w, ops);
    ReplayExact(Run(w, ops).session, fromSeq, p);
  }

  /**
   A refusal does not mean that anything was trimmed.  With a buffer that never lost an event it
   happens exactly if the player may see some event numbered `fromSeq` or later, but none that is
   numbered `fromSeq`: that number went to somebody else, or to something that is not buffered.
   */
  lemma RefusedWithoutTrimming(s: Session, fromSeq: int, p: PlayerId)
    requires Buffered(s) && |s.log| <= EVENT_BUFFER_SIZE
    ensures s.buffer == s.log
    ensures ReplayEvents(s, fromSeq, p).None? <==>
            && (exists i | 0 <= i < |s.log| :: s.log[i].event.sessionSeq > fromSeq && VisibleTo(s.log[i], p))
            && !exists i | 0 <= i < |s.log| :: s.log[i].event.sessionSeq == fromSeq && VisibleTo(s.log[i], p)
  {
    hide Scoped;
    ReplayExact(s, fromSeq, p);
    ScopedIsEmpty(s.buffer, fromSeq, p);
    forall i | 0 <= i < |s.log| && s.log[i].event.sessionSeq > fromSeq && VisibleTo(s.log[i], p)
      ensures Relevant(s.log[i], fromSeq, p)
    {
    }
  }
}
