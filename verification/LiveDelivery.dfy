/**
 Live delivery.  Who gets an entry on the wire is decided by the room's slots; for a player who is
 present it is exactly what a replay would give, and following it keeps a view at the server's.
 */
module LiveDelivery {
  import opened Protocol
  import opened GameStore
  import opened OptimisticEngine
  import opened Rooms
  import opened SessionModel
  import opened SessionRuns
  import opened ReplayBuffer
  import opened Convergence
  import opened Transport

  // ---------- recipients ----------

  /** The events of `entries` that concern `p`, numbered or not. */
  function Heard(entries: seq<Entry>, p: PlayerId): seq<Event> {
    if entries == [] then []
    else
      var last := entries[|entries| - 1];
      Heard(entries[..|entries| - 1], p) + if VisibleTo(last, p) then [last.event] else []
  }

  /** A present player is sent exactly what a replay would hold for that player. */
  lemma {:induction false} PresentHearsAll(r: RoomId, room: Room, entries: seq<Entry>, p: PlayerId)
    requires Present(room, p)
    ensures Carried(Posts(r, Some(room), entries), r, p) == Heard(entries, p)
  {
    if entries != [] {
      PresentHearsAll(r, room, entries[..|entries| - 1], p);
    }
  }

  /** Nobody but present players and addressees is sent anything. */
  lemma {:induction false} AbsentHearsOwn(r: RoomId, room: Room, entries: seq<Entry>, p: PlayerId)
    requires !Present(room, p)
    requires forall i | 0 <= i < |entries| && entries[i].target == ToPlayer :: entries[i].anchor != p
    ensures Carried(Posts(r, Some(room), entries), r, p) == []
  {
    if entries != [] {
      AbsentHearsOwn(r, room, entries[..|entries| - 1], p);
    }
  }

  // ---------- following live ----------

  lemma {:induction false} HeardAppend(a: seq<Entry>, b: seq<Entry>, p: PlayerId)
    ensures Heard(a + b, p) == Heard(a, p) + Heard(b, p)
    decreases |b|
  {
    if b == [] {
      assert a + b == a;
    } else {
      assert (a + b)[..|a| + |b| - 1] == a + b[..|b| - 1];
      HeardAppend(a, b[..|b| - 1], p);
    }
  }

  /** Entries numbered from 1 on are heard as they would be replayed. */
  lemma {:induction false} HeardIsScoped(entries: seq<Entry>, p: PlayerId)
    requires forall i | 0 <= i < |entries| :: entries[i].event.HasSeq() && entries[i].event.sessionSeq >= 1
    ensures Heard(entries, p) == Scoped(entries, 1, p)
  {
    if entries != [] {
      HeardIsScoped(entries[..|entries| - 1], p);
    }
  }

  lemma HeardOne(entry: Entry, p: PlayerId)
    ensures Heard([entry], p) == if VisibleTo(entry, p) then [entry.event] else []
  {
    var one := [entry];
    assert one[..|one| - 1] == [] && one[|one| - 1] == entry;
  }

  /** Errors and declined rematches leave every view as it is. */
  lemma UnbufferedShowsNothing(view: GameView, s: Session, op: Op, p: PlayerId)
    ensures ViewSteps(view, Heard(Unbuffered(s, op), p)) == view
  {
    hide Heard;
    hide ViewSteps;
    hide Reaches;
    var extra := Unbuffered(s, op);
    NothingHeard(view, p);
    if extra != [] {
      assert extra == [extra[0]];
      OneHeard(view, extra[0], p);
    }
  }

  lemma NothingHeard(view: GameView, p: PlayerId)
    ensures ViewSteps(view, Heard([], p)) == view
  {
  }

  lemma OneHeard(view: GameView, entry: Entry, p: PlayerId)
    ensures ViewSteps(view, Heard([entry], p)) == if VisibleTo(entry, p) then ViewStep(view, entry.event) else view
  {
    hide ViewStep;
    HeardOne(entry, p);
    var one := [entry.event];
    assert one[..|one| - 1] == [] && one[|one| - 1] == entry.event;
    assert ViewSteps(view, one) == ViewStep(ViewSteps(view, []), entry.event);
  }

  /** What one operation sends leads a view from the server's state before to the state after. */
  lemma StepIsFollowed(w: World, op: Op, p: PlayerId)
    requires GameSound(w.session)
    ensures var s, t := w.session, Step(w, op).session;
            && s.sent <= t.sent
            && ViewSteps(SessionView(s), Heard(t.sent[|s.sent|..], p)) == SessionView(t)
  {
    hide Step;
    hide News;
    hide NextGame;
    hide Starts;
    hide SkipsNumber;
    hide Unbuffered;
    hide Heard;
    hide Scoped;
    hide GameSound;
    hide ServerView;
    hide ViewSteps;
    var s, t := w.session, Step(w, op).session;
    var news, extra := News(w, op), Unbuffered(s, op);
    StepAnnounces(w, op);
    StepGame(w, op);
    NewsAreNumbered(w, op);
    StartHasGame(s, op);
    NewsCarry(w, op, SessionView(s), p);
    HeardIsScoped(news, p);
    HeardAppend(news, extra, p);
    ViewStepsAppend(SessionView(s), Heard(news, p), Heard(extra, p));
    UnbufferedShowsNothing(SessionView(t), s, op, p);
    assert t.sent == s.sent + (news + extra);
    assert t.sent[|s.sent|..] == news + extra;
  }

  /** Following all a session ever sent shows its state. */
  ghost predicate Followed(s: Session) {
    forall p :: ViewSteps(NO_GAME, Heard(s.sent, p)) == SessionView(s)
  }

  lemma StepKeepsFollowed(w: World, op: Op)
    requires Followed(w.session) && GameSound(w.session)
    ensures Followed(Step(w, op).session)
  {
    hide Step;
    hide Heard;
    hide ViewSteps;
    hide SessionView;
    hide GameSound;
    var s, t := w.session, Step(w, op).session;
    forall p ensures ViewSteps(NO_GAME, Heard(t.sent, p)) == SessionView(t) {
      StepIsFollowed(w, op, p);
      HeardSplits(s, t, p);
    }
  }

  lemma HeardSplits(s: Session, t: Session, p: PlayerId)
    requires s.sent <= t.sent
    ensures ViewSteps(NO_GAME, Heard(t.sent, p)) ==
            ViewSteps(ViewSteps(NO_GAME, Heard(s.sent, p)), Heard(t.sent[|s.sent|..], p))
  {
    hide Heard;
    hide ViewSteps;
    var rest := t.sent[|s.sent|..];
    assert t.sent == s.sent + rest;
    HeardAppend(s.sent, rest, p);
    ViewStepsAppend(NO_GAME, Heard(s.sent, p), Heard(rest, p));
  }

  /** A view that was right at `s` and followed what was sent since is right at `t`. */
  lemma CatchingUpLive(s: Session, t: Session, p: PlayerId)
    requires Followed(s) && Followed(t) && s.sent <= t.sent
    ensures ViewSteps(SessionView(s), Heard(t.sent[|s.sent|..], p)) == SessionView(t)
  {
    hide Heard;
    hide ViewSteps;
    hide SessionView;
    HeardSplits(s, t, p);
  }
}
