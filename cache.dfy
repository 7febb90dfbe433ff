/**
 * The result cache: content hash -> cached result, in a Redis store whose
 * keys expire. The clock is a parameter: an entry is live while `now` is
 * before its expiry time.
 */
module Caches {
  import opened Wrappers
  import opened Strings
  import opened JsonValues
  import opened BaseException

  /** `24*60*60`, the fallback time-to-live in seconds. */
  const DAY_SECONDS: int := 24 * 60 * 60

  /** `int(CACHE_DEFAULT_TTL or 24*60*60)`: an unset or empty setting gives a day; otherwise it must parse as an integer. */
  function DefaultTtl(setting: Option<string>): (r: Result<int, Exc>)
    ensures setting.None? || setting.value == "" ==> r == Ok(86400)
    ensures setting.Some? && setting.value != "" ==>
      (r.Ok? <==> ParseInt(setting.value).Some?) && (r.Ok? ==> r.value == ParseInt(setting.value).value)
  {
    if setting.None? || setting.value == "" then Ok(DAY_SECONDS)
    else match ParseInt(setting.value)
      case None => Err(ValueError(setting.value))
      case Some(n) => Ok(n)
  }

  /** A setting written as a decimal integer gives that integer back as the default TTL. */
  lemma DefaultTtlOfDecimal(n: int)
    ensures DefaultTtl(Some(IntToString(n))) == Ok(n)
  {
    ParseIntOfIntToString(n);
  }

  /** A cached result and the moment (in seconds) it expires. */
  datatype Entry = Entry(value: Json, expiresAt: int)

  type Store = map<string, Entry>

  /** `GET key` at time `now`: the value while the key is live. */
  function Lookup(store: Store, key: string, now: int): Option<Json> {
    if key in store && now < store[key].expiresAt then Some(store[key].value) else None
  }

  /** `EXPIRE key ttl` at time `now`: a live key now expires `ttl` seconds later; a TTL of zero or less deletes it. */
  function Expire(store: Store, key: string, ttl: int, now: int): (r: Store)
    ensures forall k :: k != key ==> (k in r <==> k in store) && (k in r ==> r[k] == store[k])
    ensures Lookup(store, key, now).None? ==> r == store
    ensures Lookup(store, key, now).Some? && ttl <= 0 ==> key !in r
    ensures Lookup(store, key, now).Some? && ttl > 0 ==> key in r && r[key] == Entry(store[key].value, now + ttl)
  {
    if Lookup(store, key, now).None? then store
    else if ttl <= 0 then store - {key}
    else store[key := store[key].(expiresAt := now + ttl)]
  }

  /** `SETEX key ttl value` at time `now`; Redis refuses a TTL of zero or less. */
  function Setex(store: Store, key: string, ttl: int, value: Json, now: int): (r: Result<Store, Exc>)
    ensures r.Ok? <==> ttl > 0
    ensures r.Ok? ==> forall k :: k != key ==> (k in r.value <==> k in store) && (k in r.value ==> r.value[k] == store[k])
  {
    if ttl <= 0 then Err(StoreError)
    else Ok(store[key := Entry(value, now + ttl)])
  }

  /** A get after a set of the same key returns the stored value until `ttl` seconds have passed, and nothing afterwards. */
  lemma GetAfterSet(store: Store, key: string, ttl: int, value: Json, now: int, later: int)
    requires ttl > 0 && now <= later
    ensures Setex(store, key, ttl, value, now).Ok?
    ensures later < now + ttl ==> Lookup(Setex(store, key, ttl, value, now).value, key, later) == Some(value)
    ensures later >= now + ttl ==> Lookup(Setex(store, key, ttl, value, now).value, key, later) == None
  {
    var r := Setex(store, key, ttl, value, now).value;
    assert r[key] == Entry(value, now + ttl);
  }

  /** A set changes no other key. */
  lemma SetLeavesOthers(store: Store, key: string, ttl: int, value: Json, now: int, other: string, at: int)
    requires ttl > 0 && other != key
    ensures Lookup(Setex(store, key, ttl, value, now).value, other, at) == Lookup(store, other, at)
  {
    var r := Setex(store, key, ttl, value, now).value;
    assert other in r <==> other in store;
  }

  /**
   * A hit whose TTL is reset stays a hit, with the same value, for `ttl`
   * seconds from now, and is gone once those seconds have passed.
   */
  lemma SlidingTtl(store: Store, key: string, ttl: int, now: int, later: int)
    requires Lookup(store, key, now).Some? && ttl > 0 && now <= later
    ensures later < now + ttl ==> Lookup(Expire(store, key, ttl, now), key, later) == Lookup(store, key, now)
    ensures later >= now + ttl ==> Lookup(Expire(store, key, ttl, now), key, later) == None
  {
    var r := Expire(store, key, ttl, now);
    assert r[key] == Entry(store[key].value, now + ttl);
  }

  class Cache {
    /** The keys held by the Redis server, with their expiry times. */
    var store: Store
    /** `DEFAULT_TTL`, read from the `CACHE_DEFAULT_TTL` setting when the module loads. */
    var defaultTtl: int

    /** A cache over the server's keys; `setting` is the `CACHE_DEFAULT_TTL` environment value. */
    constructor (store: Store, setting: Option<string>)
      requires DefaultTtl(setting).Ok?
      ensures this.store == store
      ensures defaultTtl == DefaultTtl(setting).value
      ensures setting.None? || setting.value == "" ==> defaultTtl == DAY_SECONDS
    {
      this.store := store;
      defaultTtl := DefaultTtl(setting).value;
    }

    /**
     * `get_cached_result(content_hash, reset_ttl=True, ttl)`: nothing for an
     * empty or missing hash; on a hit the value, and with `reset_ttl` the
     * key's TTL restarts at `ttl`; a miss changes nothing.
     */
    method GetCachedResult(contentHash: Option<string>, now: int, resetTtl: bool := true, ttl: int := defaultTtl)
      returns (r: Option<Json>)
      modifies this`store
      ensures contentHash.None? || contentHash.value == "" ==> r.None? && store == old(store)
      ensures contentHash.Some? && contentHash.value != "" ==> r == Lookup(old(store), contentHash.value, now)
      ensures r.None? || !resetTtl ==> store == old(store)
      ensures r.Some? && resetTtl ==> store == Expire(old(store), contentHash.value, ttl, now)
    {
      r := None;
      if contentHash.Some? && contentHash.value != "" {
        var cached := Lookup(store, contentHash.value, now);
        if cached.Some? {
          if resetTtl {
            store := Expire(store, contentHash.value, ttl, now);
          }
          r := cached;
        }
      }
    }

    /** `set_cached_result(content_hash, result, ttl)`: store or overwrite the key with a fresh TTL. */
    method SetCachedResult(contentHash: string, result: Json, now: int, ttl: int := defaultTtl) returns (err: Option<Exc>)
      modifies this`store
      ensures ttl <= 0 ==> err == Some(StoreError) && store == old(store)
      ensures ttl > 0 ==> err.None? && Setex(old(store), contentHash, ttl, result, now) == Ok(store)
    {
      match Setex(store, contentHash, ttl, result, now)
      case Err(e) =>
        err := Some(e);
      case Ok(s) =>
        store := s;
        err := None;
    }
  }
}
