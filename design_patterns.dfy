/** The cache-aside decorator: `UserCache` over a dictionary shared by every
    instance, `CachedUserDb` that consults it before an inner user store, and
    `Script.Run`, which performs the same lookup inline. */
module DesignPatterns {
  import opened Base

  datatype User = User(id: int)

  /** The key both `CachedUserDb.Get` and `Script.Run` look up, whatever id
      they are asked for. */
  const FixedKey: int := 10

  /** `SimpleUserDb.Get`: a user with the requested id (the two-second sleep
      before it is not modelled). */
  function SimpleUserDbGet(id: int): (u: User)
    ensures u.id == id
  {
    User(id)
  }

  /** The storage of the static field `UserCache._cache`. One object of this
      class stands for the process-wide dictionary; every `UserCache` refers to it. */
  class StaticDictionary {
    var entries: map<int, User>

    /** Only `AddUser` writes the dictionary, and it files each user under the
        user's own id. */
    ghost predicate Valid()
      reads this
    {
      forall k :: k in entries ==> entries[k].id == k
    }

    constructor ()
      ensures Valid() && entries == map[]
    {
      entries := map[];
    }
  }

  class UserCache {
    const shared: StaticDictionary

    /** `new UserCache()`: a new instance over the one shared dictionary. */
    constructor (shared: StaticDictionary)
      ensures this.shared == shared
    {
      this.shared := shared;
    }

    /** `TryGetUser`: found exactly when `id` is a key, and then the stored
        user; otherwise the `out` value is `null`. */
    method TryGetUser(id: int) returns (found: bool, user: Option<User>)
      ensures found <==> id in shared.entries
      ensures found ==> user == Some(shared.entries[id])
      ensures !found ==> user == None
    {
      found := id in shared.entries;
      user := if found then Some(shared.entries[id]) else None;
    }

    /** `AddUser`: store the user under its own id, replacing any earlier
        entry for that id and leaving every other key as it was. */
    method AddUser(user: User)
      requires shared.Valid()
      modifies shared
      ensures shared.Valid()
      ensures shared.entries == old(shared.entries)[user.id := user]
    {
      shared.entries := shared.entries[user.id := user];
    }
  }

  /** One cache-aside step on the dictionary: on a hit at `FixedKey` the cached
      user is returned and nothing is fetched or stored; on a miss the user
      `fetch(FixedKey)` is fetched once and stored under its own id. `fetches`
      lists the ids passed to `fetch`. */
  ghost predicate CacheAside(before: map<int, User>, after: map<int, User>,
                             fetch: int -> User, user: User, fetches: seq<int>)
  {
    if FixedKey in before then
      user == before[FixedKey] && after == before && fetches == []
    else
      user == fetch(FixedKey) && after == before[user.id := user] && fetches == [FixedKey]
  }

  class CachedUserDb {
    const cache: UserCache
    const innerDb: int -> User
    /** The ids this decorator has passed to `innerDb.Get`, oldest first. */
    ghost var innerCalls: seq<int>

    constructor (cache: UserCache, innerDb: int -> User)
      ensures this.cache == cache && this.innerDb == innerDb && innerCalls == []
    {
      this.cache := cache;
      this.innerDb := innerDb;
      innerCalls := [];
    }

    /** `Get`: the argument `id` is ignored; the step always looks up and
        fetches `FixedKey`. */
    method Get(id: int) returns (user: User)
      requires cache.shared.Valid()
      modifies this`innerCalls, cache.shared
      ensures cache.shared.Valid()
      ensures |innerCalls| >= |old(innerCalls)| && innerCalls[..|old(innerCalls)|] == old(innerCalls)
      ensures CacheAside(old(cache.shared.entries), cache.shared.entries, innerDb, user,
                         innerCalls[|old(innerCalls)|..])
    {
      var isFound, cached := cache.TryGetUser(FixedKey);
      if !isFound {
        user := innerDb(FixedKey);
        innerCalls := innerCalls + [FixedKey];
        cache.AddUser(user);
      } else {
        user := cached.value;
      }
    }
  }

  /** `WithCaching`: wrap `db` in a decorator over a new `UserCache`, which
      still shares the one static dictionary. */
  method WithCaching(db: int -> User, statics: StaticDictionary) returns (decorated: CachedUserDb)
    ensures fresh(decorated) && fresh(decorated.cache)
    ensures decorated.cache.shared == statics && decorated.innerDb == db && decorated.innerCalls == []
  {
    var cache := new UserCache(statics);
    decorated := new CachedUserDb(cache, db);
  }

  class Script {
    const userDb: int -> User
    const cache: UserCache
    /** The ids `Run` has passed to `UserDb.Get`, oldest first. */
    ghost var dbCalls: seq<int>

    constructor (userDb: int -> User, cache: UserCache)
      ensures this.userDb == userDb && this.cache == cache && dbCalls == []
    {
      this.userDb := userDb;
      this.cache := cache;
      dbCalls := [];
    }

    /** The cache-aside block of `Run`, written inline; the user it returns is
        the one whose id `Run` prints (timing and printing are not modelled). */
    method Run() returns (user: User)
      requires cache.shared.Valid()
      modifies this`dbCalls, cache.shared
      ensures cache.shared.Valid()
      ensures |dbCalls| >= |old(dbCalls)| && dbCalls[..|old(dbCalls)|] == old(dbCalls)
      ensures CacheAside(old(cache.shared.entries), cache.shared.entries, userDb, user,
                         dbCalls[|old(dbCalls)|..])
    {
      var isFound, found := cache.TryGetUser(FixedKey);
      if isFound == false {
        user := userDb(FixedKey);
        dbCalls := dbCalls + [FixedKey];
        cache.AddUser(user);
      } else {
        user := found.value;
      }
    }
  }

  /** With `SimpleUserDb` behind the decorator, a second `Get` is a hit: it
      returns the same user as the first, the inner store is consulted at most
      once over both calls, and the id passed to either call plays no part. */
  method SecondGetHits(statics: StaticDictionary, firstId: int, secondId: int)
    returns (first: User, second: User, ghost calls: seq<int>)
    requires statics.Valid()
    modifies statics
    ensures first == second == User(FixedKey)
    ensures FixedKey in statics.entries && statics.entries[FixedKey] == User(FixedKey)
    ensures |calls| <= 1
  {
    var db := WithCaching(SimpleUserDbGet, statics);
    first := db.Get(firstId);
    second := db.Get(secondId);
    calls := db.innerCalls;
  }

  /** The dictionary is static: a decorator made later by `WithCaching` finds
      what an earlier one stored, and does not call its inner store. */
  method CacheSharedAcrossDecorators(statics: StaticDictionary, laterDb: int -> User)
    returns (first: User, second: User, ghost laterCalls: seq<int>)
    requires statics.Valid()
    modifies statics
    ensures first == second
    ensures laterCalls == []
  {
    var earlier := WithCaching(SimpleUserDbGet, statics);
    first := earlier.Get(1);
    var later := WithCaching(laterDb, statics);
    second := later.Get(2);
    laterCalls := later.innerCalls;
  }

  /** An inner store that answers `FixedKey` with a user under another id
      leaves `FixedKey` uncached, so every `Get` misses and calls it again. */
  method MismatchedIdAlwaysMisses(statics: StaticDictionary, db: int -> User)
    returns (first: User, second: User, ghost calls: seq<int>)
    requires db(FixedKey).id != FixedKey
    requires statics.Valid() && FixedKey !in statics.entries
    modifies statics
    ensures first == second == db(FixedKey)
    ensures calls == [FixedKey, FixedKey]
    ensures FixedKey !in statics.entries
  {
    var decorated := WithCaching(db, statics);
    first := decorated.Get(FixedKey);
    second := decorated.Get(FixedKey);
    calls := decorated.innerCalls;
  }
}
