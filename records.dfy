/**
 * The records the app keeps in its store (app.js lines 38-45 and 296-300):
 * the player's profile under "user" and the mock multiplayer room under
 * "room:room-1". `Null` is the JavaScript `null` that `initProfile` passes
 * as the fallback of its lookup.
 */
module Records {

  /** The `unlocked` flags of a profile. */
  datatype Unlocked = Unlocked(simulation: bool, multiplayer: bool)

  /** A player profile: `uid`, `name`, `level`, `xp`, `gamesPlayed`, `unlocked`. */
  datatype User = User(
    uid: string,
    name: string,
    level: int,
    xp: int,
    gamesPlayed: int,
    unlocked: Unlocked)

  /** The mock room: its players, whose turn it is, and `Date.now()` at creation. */
  datatype Room = Room(players: seq<string>, turn: string, createdAt: int)

  /** A value held in the store. */
  datatype Value = Null | UserRec(user: User) | RoomRec(room: Room)
}
