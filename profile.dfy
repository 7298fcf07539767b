/**
 * The profile service of app.js (lines 35-57): `initProfile` creates the
 * default "user" record when there is none, and `gainXP` adds the points of
 * one finished game and recomputes the level.
 *
 * The maps `InitProfileOf` and `GainXPOf` say what each operation does to
 * the store's contents; the methods `InitProfile` and `GainXP` perform it on
 * the shared store object, as the source does.
 */
module Profile {
  import opened Records
  import opened MemoryStore

  const UserKey: string := "user"

  /** Experience points per level ("every 50 xp"). */
  const XPPerLevel: int := 50

  /** The record `initProfile` stores. */
  const DefaultUser: User :=
    User("u1", "لاعب", 1, 0, 0, Unlocked(true, true))

  /**
   * The `{}` fallback of `gainXP`: an object with no fields. Its absent
   * fields read as 0 (through `|| 0`), "" and false.
   */
  const EmptyRecord: User :=
    User("", "", 0, 0, 0, Unlocked(false, false))

  /**
   * `Math.floor(xp / 50) + 1`. Dafny's `/` by a positive divisor rounds
   * down, as `Math.floor` does. The level is the one band of 50 points
   * that holds `xp`.
   */
  function Level(xp: int): (level: int)
    ensures XPPerLevel * (level - 1) <= xp < XPPerLevel * level
    ensures xp >= 0 ==> level >= 1
  {
    xp / XPPerLevel + 1
  }

  /** A level is determined by its band: any band that holds `xp` is `Level(xp)`. */
  lemma LevelUnique(xp: int, level: int)
    requires XPPerLevel * (level - 1) <= xp < XPPerLevel * level
    ensures level == Level(xp)
  {
  }

  /** More experience never lowers the level. */
  lemma LevelMonotone(xp: int, xp': int)
    requires xp <= xp'
    ensures Level(xp) <= Level(xp')
  {
  }

  /** xp 0 and 49 are level 1, xp 50 is level 2, xp 100 is level 3. */
  lemma LevelExamples()
    ensures Level(0) == 1 && Level(49) == 1 && Level(50) == 2 && Level(99) == 2 && Level(100) == 3
  {
  }

  /**
   * The "user" key holds a profile or nothing. Every operation of the app
   * keeps this; `gainXP` relies on it, since a stored `null` would make
   * `u.xp` throw.
   */
  predicate UserSlotOk(m: map<string, Value>)
  {
    UserKey in m ==> m[UserKey].UserRec?
  }

  /** The stored profile's level agrees with its experience. */
  predicate LevelConsistent(m: map<string, Value>)
  {
    UserKey in m && m[UserKey].UserRec? ==> m[UserKey].user.level == Level(m[UserKey].user.xp)
  }

  /** The profile `gainXP` starts from: the stored record, or `{}`. */
  function ProfileOf(m: map<string, Value>): (u: User)
    requires UserSlotOk(m)
    ensures UserKey in m ==> UserRec(u) == m[UserKey]
    ensures UserKey !in m ==> u.xp == 0 && u.gamesPlayed == 0 && u.level == 0
  {
    if UserKey in m then m[UserKey].user else EmptyRecord
  }

  /** The store after `initProfile`. */
  function InitProfileOf(m: map<string, Value>): (m': map<string, Value>)
    ensures UserKey in m' && m'[UserKey] != Null
    ensures UserKey in m && m[UserKey] != Null ==> m' == m
    ensures UserKey !in m || m[UserKey] == Null ==> m'[UserKey] == UserRec(DefaultUser)
    ensures m'.Keys == m.Keys + {UserKey}
    ensures forall k :: k in m && k != UserKey ==> m'[k] == m[k]
  {
    if UserKey in m && m[UserKey] != Null then m else m[UserKey := UserRec(DefaultUser)]
  }

  /** The fresh profile starts at level 1 with no experience and no games. */
  lemma DefaultUserIsFresh()
    ensures DefaultUser.level == 1 && DefaultUser.xp == 0 && DefaultUser.gamesPlayed == 0
    ensures DefaultUser.level == Level(DefaultUser.xp)
  {
  }

  /** Initialising twice is initialising once: an existing profile is never overwritten. */
  lemma InitProfileIdempotent(m: map<string, Value>)
    ensures InitProfileOf(InitProfileOf(m)) == InitProfileOf(m)
  {
  }

  /** `initProfile` keeps the store's profile slot well-formed and level-consistent. */
  lemma InitProfileKeepsInvariants(m: map<string, Value>)
    requires UserSlotOk(m) && LevelConsistent(m)
    ensures UserSlotOk(InitProfileOf(m)) && LevelConsistent(InitProfileOf(m))
  {
  }

  /** The store after `gainXP(points)`. */
  function GainXPOf(m: map<string, Value>, points: int): (m': map<string, Value>)
    requires UserSlotOk(m)
    ensures UserKey in m' && m'[UserKey].UserRec?
    ensures m'.Keys == m.Keys + {UserKey}
    ensures forall k :: k in m && k != UserKey ==> m'[k] == m[k]
    ensures var u, u' := ProfileOf(m), m'[UserKey].user;
      && u'.xp == u.xp + points
      && u'.gamesPlayed == u.gamesPlayed + 1
      && u'.level == Level(u'.xp)
      && u'.uid == u.uid && u'.name == u.name && u'.unlocked == u.unlocked
    ensures UserSlotOk(m') && LevelConsistent(m')
  {
    var u := ProfileOf(m);
    var xp := u.xp + points;
    m[UserKey := UserRec(u.(xp := xp, gamesPlayed := u.gamesPlayed + 1, level := Level(xp)))]
  }

  /** Total points of a run of games. */
  function Sum(ps: seq<nat>): nat
  {
    if ps == [] then 0 else Sum(ps[..|ps| - 1]) + ps[|ps| - 1]
  }

  /** Games that all scored `p` points total `p` times their number. */
  lemma {:induction false} SumConstant(ps: seq<nat>, p: nat)
    requires forall k :: 0 <= k < |ps| ==> ps[k] == p
    ensures Sum(ps) == |ps| * p
  {
    if ps != [] {
      SumConstant(ps[..|ps| - 1], p);
    }
  }

  /** One more game on top of a run is the longer run. */
  lemma GainAllSnoc(m: map<string, Value>, ps: seq<nat>, p: nat)
    requires UserSlotOk(m)
    ensures GainAll(m, ps + [p]) == GainXPOf(GainAll(m, ps), p)
  {
    assert (ps + [p])[..|ps|] == ps;
  }

  /** The store after one `gainXP` per finished game, in order. */
  function GainAll(m: map<string, Value>, ps: seq<nat>): (m': map<string, Value>)
    requires UserSlotOk(m)
    ensures UserSlotOk(m')
  {
    if ps == [] then m else GainXPOf(GainAll(m, ps[..|ps| - 1]), ps[|ps| - 1])
  }

  /**
   * After any number of games the profile holds the sum of their points
   * on top of the starting experience, counts every game, and its level is
   * that of the total.
   */
  lemma {:induction false} GainAllTotals(m: map<string, Value>, ps: seq<nat>)
    requires UserSlotOk(m)
    ensures var u, u' := ProfileOf(m), ProfileOf(GainAll(m, ps));
      && u'.xp == u.xp + Sum(ps)
      && u'.gamesPlayed == u.gamesPlayed + |ps|
      && (ps != [] ==> u'.level == Level(u.xp + Sum(ps)))
      && u'.uid == u.uid && u'.name == u.name
  {
    if ps != [] {
      GainAllTotals(m, ps[..|ps| - 1]);
    }
  }

  /** `gainXP` leaves every other record of the store, such as the room, as it was. */
  lemma GainXPKeepsOtherKeys(m: map<string, Value>, points: int, k: string)
    requires UserSlotOk(m) && k != UserKey
    ensures k in GainXPOf(m, points) <==> k in m
    ensures k in m ==> GainXPOf(m, points)[k] == m[k]
  {
  }

  /** `initProfile()`: stores the default profile unless a profile is present (`!u`). */
  method InitProfile(db: MemoryDB<Value>)
    modifies db
    ensures db.data == InitProfileOf(old(db.data))
  {
    var u := db.Get(UserKey, Null);
    if u == Null {
      db.Set(UserKey, UserRec(DefaultUser));
    }
  }

  /** `gainXP(points)`: updates the loaded profile's fields and writes it back. */
  method GainXP(db: MemoryDB<Value>, points: int)
    requires UserSlotOk(db.data)
    modifies db
    ensures db.data == GainXPOf(old(db.data), points)
  {
    var v := db.Get(UserKey, UserRec(EmptyRecord));
    var u := v.user;
    u := u.(xp := u.xp + points);
    u := u.(gamesPlayed := u.gamesPlayed + 1);
    var newLevel := u.xp / XPPerLevel + 1;
    u := u.(level := newLevel);
    db.Set(UserKey, UserRec(u));
  }
}
