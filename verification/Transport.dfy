/** Who gets what a session sends, and the record of what was sent to whom. */
module Transport {
  import opened Protocol
  import opened Rooms
  import opened SessionModel

  predicate Present(room: Room, p: PlayerId) {
    || (SeatsPlayer(room.playerX, p) && room.playerX.value.connected)
    || (SeatsPlayer(room.playerO, p) && room.playerO.value.connected)
  }

  /** The players an entry is sent to; a room that is gone swallows everything. */
  function Recipients(room: Option<Room>, entry: Entry): set<PlayerId> {
    if room.None? then {}
    else
      var seated :=
        (if room.value.playerX.Some? && room.value.playerX.value.connected then {room.value.playerX.value.playerId}
         else {}) +
        (if room.value.playerO.Some? && room.value.playerO.value.connected then {room.value.playerO.value.playerId}
         else {});
      match entry.target
      case ToPlayer => {entry.anchor}
      case Broadcast => seated
      case ToOthers => seated - {entry.anchor}
  }

  /** What one slot adds to the recipients of a broadcast, or of an event for the others. */
  function Share(slot: Option<Slot>, entry: Entry): set<PlayerId> {
    if slot.Some? && slot.value.connected && (entry.target == ToOthers ==> slot.value.playerId != entry.anchor)
    then {slot.value.playerId} else {}
  }

  /** The send function's walk over the two slots of the room. */
  method SendFn(room: Option<Room>, entry: Entry) returns (recipients: set<PlayerId>)
    ensures recipients == Recipients(room, entry)
  {
    if room.None? {
      return {};
    }
    if entry.target == ToPlayer {
      return {entry.anchor};
    }
    recipients := {};
    var slots := [room.value.playerX, room.value.playerO];
    for i := 0 to 2
      invariant recipients ==
                (if i > 0 then Share(slots[0], entry) else {}) + if i > 1 then Share(slots[1], entry) else {}
    {
      if slots[i].Some? {
        var slot := slots[i].value;
        if slot.connected && (entry.target == Broadcast || slot.playerId != entry.anchor) {
          recipients := recipients + {slot.playerId};
        }
      }
    }
  }

  /** One event handed to the connections of some players, on behalf of a room. */
  datatype Post = Post(roomId: RoomId, recipients: set<PlayerId>, event: Event)

  function Posts(r: RoomId, room: Option<Room>, entries: seq<Entry>): seq<Post> {
    if entries == [] then []
    else
      var last := entries[|entries| - 1];
      Posts(r, room, entries[..|entries| - 1]) + [Post(r, Recipients(room, last), last.event)]
  }

  /** What was sent to `p` on behalf of room `r`. */
  function Carried(wire: seq<Post>, r: RoomId, p: PlayerId): seq<Event> {
    if wire == [] then []
    else
      var last := wire[|wire| - 1];
      Carried(wire[..|wire| - 1], r, p) + if last.roomId == r && p in last.recipients then [last.event] else []
  }

  lemma {:induction false} CarriedAppend(a: seq<Post>, b: seq<Post>, r: RoomId, p: PlayerId)
    ensures Carried(a + b, r, p) == Carried(a, r, p) + Carried(b, r, p)
    decreases |b|
  {
    if b == [] {
      assert a + b == a;
    } else {
      assert (a + b)[..|a| + |b| - 1] == a + b[..|b| - 1];
      CarriedAppend(a, b[..|b| - 1], r, p);
    }
  }

  lemma {:induction false} OthersCarryNothing(
    q: RoomId, room: Option<Room>, entries: seq<Entry>, r: RoomId, p: PlayerId
  )
    requires q != r
    ensures Carried(Posts(q, room, entries), r, p) == []
  {
    if entries != [] {
      OthersCarryNothing(q, room, entries[..|entries| - 1], r, p);
    }
  }

  /** What a session sent between two states. */
  function NewlySent(s: Session, t: Session): seq<Entry> {
    if |s.sent| <= |t.sent| then t.sent[|s.sent|..] else []
  }
}
