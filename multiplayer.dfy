/**
 * The room lookup of the multiplayer view (app.js lines 294-301): the
 * view reads room "room-1" from the store, falling back to a new room, and
 * writes back what it read. `now` stands for `Date.now()`.
 */
module Multiplayer {
  import opened Records
  import opened MemoryStore
  import Profile

  const RoomId: string := "room-1"

  /** The store key of a room, `room:${roomId}`. */
  function RoomKey(roomId: string): (key: string)
    ensures |key| == 5 + |roomId| && key[..5] == "room:" && key[5..] == roomId
  {
    "room:" + roomId
  }

  /** The room created on a first visit. */
  function NewRoom(now: int): (room: Room)
    ensures room.createdAt == now
    ensures |room.players| == 2 && room.turn == room.players[0]
  {
    Room(["أنت", "ضيف"], "أنت", now)
  }

  /** The store after a visit at time `now`. */
  function VisitRoomOf(m: map<string, Value>, now: int): (m': map<string, Value>)
    ensures RoomKey(RoomId) in m'
    ensures RoomKey(RoomId) in m ==> m' == m
    ensures RoomKey(RoomId) !in m ==> m' == m[RoomKey(RoomId) := RoomRec(NewRoom(now))]
  {
    var key := RoomKey(RoomId);
    var room := if key in m then m[key] else RoomRec(NewRoom(now));
    m[key := room]
  }

  /** Every visit after the first keeps the stored room as it is, creation time included. */
  lemma VisitRoomKeepsRoom(m: map<string, Value>, now: int, later: int)
    ensures VisitRoomOf(VisitRoomOf(m, now), later) == VisitRoomOf(m, now)
    ensures VisitRoomOf(m, now)[RoomKey(RoomId)] ==
      if RoomKey(RoomId) in m then m[RoomKey(RoomId)] else RoomRec(NewRoom(now))
  {
  }

  /** The room key is not the profile key, so a visit leaves the profile alone. */
  lemma VisitRoomKeepsProfile(m: map<string, Value>, now: int)
    ensures Profile.UserKey in VisitRoomOf(m, now) <==> Profile.UserKey in m
    ensures Profile.UserKey in m ==> VisitRoomOf(m, now)[Profile.UserKey] == m[Profile.UserKey]
  {
    assert |RoomKey(RoomId)| != |Profile.UserKey|;
  }

  /** The visit itself: get-or-create the room, store it, and return it for display. */
  method VisitRoom(db: MemoryDB<Value>, now: int) returns (room: Value)
    modifies db
    ensures db.data == VisitRoomOf(old(db.data), now)
    ensures room == db.data[RoomKey(RoomId)]
  {
    var key := RoomKey(RoomId);
    room := db.Get(key, RoomRec(NewRoom(now)));
    db.Set(key, room);
  }
}
