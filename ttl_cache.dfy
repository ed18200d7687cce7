/** The in-memory TTL memo cache both routes keep (app/api/route.ts and
    app/api/home-depot/route.ts each declare an identical copy): a map from
    key to `{value, expiresAt}`, lazy expiry on read, unconditional overwrite
    on write. The clock is a parameter. */
module TtlCache {
  import opened Wrappers

  datatype Entry<V> = Entry(value: V, expiresAt: int)

  /** What `readCache(key)` returns at time `now`. An entry expires only once
      `expiresAt < now`, so it is still served when `now == expiresAt`. */
  function Lookup<K, V>(m: map<K, Entry<V>>, key: K, now: int): Option<V> {
    if key !in m then None
    else if m[key].expiresAt < now then None
    else Some(m[key].value)
  }

  /** The map after `readCache(key)` at time `now`: an expired entry is deleted. */
  function Purge<K, V>(m: map<K, Entry<V>>, key: K, now: int): map<K, Entry<V>> {
    if key in m && m[key].expiresAt < now then m - {key} else m
  }

  /** The map after `writeCache(key, value)` at time `now`. */
  function Store<K, V>(m: map<K, Entry<V>>, key: K, value: V, now: int, ttl: nat): map<K, Entry<V>> {
    m[key := Entry(value, now + ttl)]
  }

  /** The map after reading every key of `ks`, in order, the `j`-th read
      taking place at time `at(j)`. */
  function PurgeAll<K, V>(m: map<K, Entry<V>>, ks: seq<K>, at: nat -> int): map<K, Entry<V>> {
    if ks == [] then m else Purge(PurgeAll(m, ks[..|ks| - 1], at), ks[|ks| - 1], at(|ks| - 1))
  }

  /** Some read of `k` among `ks` happened after `k`'s entry in `m` expired. */
  predicate ReadExpired<K, V>(m: map<K, Entry<V>>, ks: seq<K>, at: nat -> int, k: K)
    requires k in m
  {
    exists j :: 0 <= j < |ks| && ks[j] == k && m[k].expiresAt < at(j)
  }

  /** A cache instance. The TTL is fixed when the cache is created. */
  class Cache<K(==), V> {
    var entries: map<K, Entry<V>>
    const ttl: nat

    constructor (ttl: nat)
      ensures this.ttl == ttl && entries == map[]
    {
      this.ttl := ttl;
      entries := map[];
    }

    method Read(key: K, now: int) returns (r: Option<V>)
      modifies this
      ensures r == Lookup(old(entries), key, now)
      ensures entries == Purge(old(entries), key, now)
    {
      if key !in entries {
        return None;
      }
      var entry := entries[key];
      if entry.expiresAt < now {
        entries := entries - {key};
        return None;
      }
      r := Some(entry.value);
    }

    method Write(key: K, value: V, now: int)
      modifies this
      ensures entries == Store(old(entries), key, value, now, ttl)
    {
      entries := entries[key := Entry(value, now + ttl)];
    }
  }

  /** A value written at time `t` is read back at every time up to and
      including `t + ttl`, and at no later time. */
  lemma ReadAfterWrite<K, V>(m: map<K, Entry<V>>, key: K, value: V, t: int, ttl: nat, now: int)
    ensures Lookup(Store(m, key, value, t, ttl), key, now) == Some(value) <==> now <= t + ttl
    ensures now > t + ttl ==> Lookup(Store(m, key, value, t, ttl), key, now) == None
  {
  }

  /** Reading an expired entry returns nothing and deletes that key alone. */
  lemma ExpiredReadDeletes<K, V>(m: map<K, Entry<V>>, key: K, now: int)
    requires key in m && m[key].expiresAt < now
    ensures Lookup(m, key, now) == None
    ensures key !in Purge(m, key, now)
    ensures Purge(m, key, now).Keys == m.Keys - {key}
    ensures forall k :: k in Purge(m, key, now) ==> Purge(m, key, now)[k] == m[k]
  {
  }

  /** Reading a missing key returns nothing and changes nothing; reading a
      live key returns its value and changes nothing. */
  lemma ReadWithoutDelete<K, V>(m: map<K, Entry<V>>, key: K, now: int)
    ensures key !in m ==> Lookup(m, key, now) == None && Purge(m, key, now) == m
    ensures key in m && now <= m[key].expiresAt ==>
      Lookup(m, key, now) == Some(m[key].value) && Purge(m, key, now) == m
  {
  }

  /** A write replaces whatever the key held (last writer wins) and leaves
      every other key as it was. */
  lemma WriteOverwrites<K, V>(m: map<K, Entry<V>>, key: K, v1: V, t1: int, v2: V, t2: int, ttl: nat)
    ensures Store(Store(m, key, v1, t1, ttl), key, v2, t2, ttl) == Store(m, key, v2, t2, ttl)
    ensures Store(m, key, v2, t2, ttl)[key] == Entry(v2, t2 + ttl)
    ensures forall k :: k != key ==> (k in Store(m, key, v2, t2, ttl) <==> k in m)
    ensures forall k :: k != key && k in m ==> Store(m, key, v2, t2, ttl)[k] == m[k]
  {
  }

  /** Writing the same value twice and then reading returns that value
      while the second write is live. */
  lemma WriteTwiceIdempotent<K, V>(m: map<K, Entry<V>>, key: K, value: V, t1: int, t2: int, ttl: nat, now: int)
    requires now <= t2 + ttl
    ensures Lookup(Store(Store(m, key, value, t1, ttl), key, value, t2, ttl), key, now) == Some(value)
  {
  }

  /** Reading several keys deletes exactly the read keys that some read
      found expired, and leaves every other entry as it was. */
  lemma {:induction false} PurgeAllKeeps<K, V>(m: map<K, Entry<V>>, ks: seq<K>, at: nat -> int)
    ensures forall k :: k in PurgeAll(m, ks, at) <==> k in m && !ReadExpired(m, ks, at, k)
    ensures forall k :: k in PurgeAll(m, ks, at) ==> PurgeAll(m, ks, at)[k] == m[k]
  {
    if ks != [] {
      var n := |ks| - 1;
      var init := ks[..n];
      PurgeAllKeeps(m, init, at);
      forall k | k in m
        ensures ReadExpired(m, ks, at, k) <==> ReadExpired(m, init, at, k) || (ks[n] == k && m[k].expiresAt < at(n))
      {
        if ReadExpired(m, ks, at, k) {
          var j :| 0 <= j < |ks| && ks[j] == k && m[k].expiresAt < at(j);
          if j < n {
            assert init[j] == k;
          }
        }
        if ReadExpired(m, init, at, k) {
          var j :| 0 <= j < |init| && init[j] == k && m[k].expiresAt < at(j);
          assert ks[j] == k;
        }
      }
    }
  }

  /** Reads made no later than `now` never change what a read at `now`
      sees: they delete only entries that were expired by `now` anyway. */
  lemma LookupAfterPurgeAll<K, V>(m: map<K, Entry<V>>, ks: seq<K>, at: nat -> int, key: K, now: int)
    requires forall j :: 0 <= j < |ks| ==> at(j) <= now
    ensures Lookup(PurgeAll(m, ks, at), key, now) == Lookup(m, key, now)
  {
    PurgeAllKeeps(m, ks, at);
    if key in m && ReadExpired(m, ks, at, key) {
      var j :| 0 <= j < |ks| && ks[j] == key && m[key].expiresAt < at(j);
    }
  }

  /** A clock that never goes backwards over the first `n` readings. */
  predicate Monotone(at: nat -> int, n: nat) {
    forall i, j :: 0 <= i <= j < n ==> at(i) <= at(j)
  }
}
