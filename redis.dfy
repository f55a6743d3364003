/** The Redis connection of backend/config/redis.js: the in-memory client it
    falls back to in development (a value table and an expiry table with lazy
    expiry, times in milliseconds given as parameters) and the `connect`
    decision. */
module Redis {
  import opened Wrappers

  /** The two maps of the memory client: stored values, and for some keys the
      time (ms) after which they are gone. */
  datatype Table = Table(storage: map<string, string>, expiry: map<string, int>)

  /** An expiry exists and lies strictly before `now`. */
  predicate IsExpired(t: Table, key: string, now: int) {
    key in t.expiry && t.expiry[key] < now
  }

  function Without(t: Table, key: string): (r: Table)
    ensures key !in r.storage && key !in r.expiry
    ensures forall k :: k != key ==> (k in r.storage <==> k in t.storage) && (k in r.expiry <==> k in t.expiry)
  {
    Table(t.storage - {key}, t.expiry - {key})
  }

  /** The table after `get` or `exists` has looked at `key`: an expired key is
      dropped from both maps, anything else is left alone. */
  function AfterRead(t: Table, key: string, now: int): Table {
    if IsExpired(t, key, now) then Without(t, key) else t
  }

  /** `get(key)`: null for an expired key, and `storage.get(key) || null`
      otherwise, so a stored '' also reads as null. */
  function GetReply(t: Table, key: string, now: int): (r: Option<string>)
    ensures r.Some? <==> !IsExpired(t, key, now) && key in t.storage && t.storage[key] != ""
    ensures r.Some? ==> r.value == t.storage[key]
  {
    if IsExpired(t, key, now) then None
    else if key in t.storage && t.storage[key] != "" then Some(t.storage[key])
    else None
  }

  /** `exists(key)`: 0 for an expired key, otherwise 1 exactly when a value
      (even '') is stored. */
  function ExistsReply(t: Table, key: string, now: int): (n: int)
    ensures n == 1 <==> !IsExpired(t, key, now) && key in t.storage
    ensures n == 0 || n == 1
  {
    if IsExpired(t, key, now) then 0 else if key in t.storage then 1 else 0
  }

  /** `set(key, value, {EX})`: the value is replaced; the expiry is set only
      for a truthy `EX`, so a plain `set` keeps an earlier expiry. */
  function SetT(t: Table, key: string, value: string, ex: Option<int>, now: int): (r: Table)
    ensures r.storage == t.storage[key := value]
    ensures ex.Some? && ex.value != 0 ==> r.expiry == t.expiry[key := now + ex.value * 1000]
    ensures ex.None? || ex.value == 0 ==> r.expiry == t.expiry
  {
    Table(t.storage[key := value], if ex.Some? && ex.value != 0 then t.expiry[key := now + ex.value * 1000] else t.expiry)
  }

  /** The table after `setEx`: the value stored, expiring `seconds` after now
      (backend/config/redis.js:104). */
  function SetExT(t: Table, key: string, seconds: int, value: string, now: int): (r: Table)
    ensures r.storage == t.storage[key := value] && r.expiry == t.expiry[key := now + seconds * 1000]
  {
    Table(t.storage[key := value], t.expiry[key := now + seconds * 1000])
  }

  /** The keys `cleanup` removes: exactly those whose expiry is before `now`. */
  function ExpiredKeys(t: Table, now: int): (ks: set<string>)
    ensures forall k :: k in ks <==> IsExpired(t, k, now)
  {
    set k | k in t.expiry && t.expiry[k] < now
  }

  class MemoryClient {
    var storage: map<string, string>
    var expiry: map<string, int>

    function Contents(): Table
      reads this
    {
      Table(storage, expiry)
    }

    constructor ()
      ensures Contents() == Table(map[], map[])
    {
      storage := map[];
      expiry := map[];
    }

    method Get(key: string, now: int) returns (r: Option<string>)
      modifies this
      ensures r == GetReply(old(Contents()), key, now)
      ensures Contents() == AfterRead(old(Contents()), key, now)
    {
      if key in expiry && expiry[key] < now {
        storage := storage - {key};
        expiry := expiry - {key};
        return None;
      }
      if key in storage && storage[key] != "" {
        return Some(storage[key]);
      }
      return None;
    }

    method Set(key: string, value: string, ex: Option<int>, now: int) returns (reply: string)
      modifies this
      ensures reply == "OK"
      ensures Contents() == SetT(old(Contents()), key, value, ex, now)
    {
      storage := storage[key := value];
      if ex.Some? && ex.value != 0 {
        expiry := expiry[key := now + ex.value * 1000];
      }
      return "OK";
    }

    method SetEx(key: string, seconds: int, value: string, now: int) returns (reply: string)
      modifies this
      ensures reply == "OK"
      ensures Contents() == SetExT(old(Contents()), key, seconds, value, now)
    {
      storage := storage[key := value];
      expiry := expiry[key := now + seconds * 1000];
      return "OK";
    }

    method Del(key: string) returns (n: int)
      modifies this
      ensures n == 1
      ensures Contents() == Without(old(Contents()), key)
    {
      storage := storage - {key};
      expiry := expiry - {key};
      return 1;
    }

    method Exists(key: string, now: int) returns (n: int)
      modifies this
      ensures n == ExistsReply(old(Contents()), key, now)
      ensures Contents() == AfterRead(old(Contents()), key, now)
    {
      if key in expiry && expiry[key] < now {
        storage := storage - {key};
        expiry := expiry - {key};
        return 0;
      }
      return if key in storage then 1 else 0;
    }

    method FlushDb() returns (reply: string)
      modifies this
      ensures reply == "OK"
      ensures Contents() == Table(map[], map[])
    {
      storage := map[];
      expiry := map[];
      return "OK";
    }

    /** Walks the expiry entries and drops every key whose time has passed. */
    method Cleanup(now: int)
      modifies this`storage, this`expiry
      ensures storage == old(storage) - ExpiredKeys(old(Contents()), now)
      ensures expiry == old(expiry) - ExpiredKeys(old(Contents()), now)
    {
      ghost var storage0, expiry0 := storage, expiry;
      var entries := expiry;
      var todo := entries.Keys;
      ghost var removed: set<string> := {};
      while todo != {}
        invariant todo <= entries.Keys
        invariant forall k :: k in removed <==> k in entries && k !in todo && entries[k] < now
        invariant storage == storage0 - removed && expiry == expiry0 - removed
        decreases |todo|
      {
        var k :| k in todo;
        if entries[k] < now {
          storage := storage - {k};
          expiry := expiry - {k};
          removed := removed + {k};
        }
        todo := todo - {k};
      }
      assert removed == ExpiredKeys(Table(storage0, expiry0), now);
    }
  }

  /** A key set with `setEx(k, s, v)` at `now` is still there at exactly
      `now + s*1000` and gone one millisecond later. */
  lemma SetExLifetime(t: Table, key: string, seconds: int, value: string, now: int)
    requires value != ""
    ensures GetReply(SetExT(t, key, seconds, value, now), key, now + seconds * 1000) == Some(value)
    ensures GetReply(SetExT(t, key, seconds, value, now), key, now + seconds * 1000 + 1) == None
  {
  }

  /** A plain `set` over a key with an expiry inherits that expiry. */
  lemma SetKeepsExpiry(t: Table, key: string, value: string, now: int, later: int)
    requires key in t.expiry && t.expiry[key] < later
    ensures GetReply(SetT(t, key, value, None, now), key, later) == None
    ensures ExistsReply(SetT(t, key, value, None, now), key, later) == 0
  {
  }

  /** `cleanup` changes no reply: every key reads the same before and after. */
  lemma CleanupUnobservable(t: Table, now: int, key: string)
    ensures var c := Table(t.storage - ExpiredKeys(t, now), t.expiry - ExpiredKeys(t, now));
      GetReply(c, key, now) == GetReply(t, key, now) && ExistsReply(c, key, now) == ExistsReply(t, key, now)
  {
  }

  /** Reading a key leaves every other key as it was. */
  lemma ReadTouchesOnlyItsKey(t: Table, key: string, other: string, now: int, later: int)
    requires other != key
    ensures GetReply(AfterRead(t, key, now), other, later) == GetReply(t, other, later)
  {
  }

  // ---------------------------------------------------------------------
  // connect

  datatype ClientKind = NoClient | RedisClient | MemoryFallback

  class RedisConnection {
    var client: ClientKind
    var isConnected: bool
    var memory: MemoryClient?

    constructor ()
      ensures client == NoClient && !isConnected && memory == null
    {
      client := NoClient;
      isConnected := false;
      memory := null;
    }

    /** `connect()`. `reachable` says whether connecting and the ping succeed
        (the 'ready' event then marks the connection). On failure the memory
        client is used only when NODE_ENV is 'development'; otherwise the
        error is rethrown and the failed client stays assigned. */
    method Connect(reachable: bool, nodeEnv: Option<string>) returns (r: Result<ClientKind, string>)
      modifies this
      ensures old(isConnected) && old(client) != NoClient ==>
        r == Ok(old(client)) && client == old(client) && isConnected && memory == old(memory)
      ensures !(old(isConnected) && old(client) != NoClient) && reachable ==>
        r == Ok(RedisClient) && client == RedisClient && isConnected
      ensures !(old(isConnected) && old(client) != NoClient) && !reachable && nodeEnv == Some("development") ==>
        r == Ok(MemoryFallback) && client == MemoryFallback && isConnected
        && memory != null && fresh(memory) && memory.Contents() == Table(map[], map[])
      ensures !(old(isConnected) && old(client) != NoClient) && !reachable && nodeEnv != Some("development") ==>
        r.Err? && client == RedisClient && !isConnected
    {
      if isConnected && client != NoClient {
        return Ok(client);
      }
      client := RedisClient;
      if reachable {
        isConnected := true;
        return Ok(client);
      }
      isConnected := false;
      if nodeEnv == Some("development") {
        var m := new MemoryClient();
        memory := m;
        client := MemoryFallback;
        isConnected := true;
        return Ok(client);
      }
      return Err("Redis connection failed");
    }
  }
}
