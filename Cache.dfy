/**
 * The in-memory analysis cache: values keyed by (FEN, depth), each stored
 * with the time it was set and treated as gone once more than the time-to-live
 * has passed. The clock is a parameter: `now` is the time of the call.
 */
module Cache {
  import opened Wrappers

  type Key = (string, int)

  /** The default time-to-live, in seconds. */
  const DEFAULT_TTL: int := 300

  /** An entry stored at time ts is stale at time now once more than ttl seconds have passed. */
  predicate Expired(ts: real, now: real, ttl: int) {
    now - ts > ttl as real
  }

  /** What a lookup of key at time now answers. */
  function Lookup<V>(store: map<Key, (real, V)>, key: Key, now: real, ttl: int): Option<V> {
    if key !in store then None
    else if Expired(store[key].0, now, ttl) then None
    else Some(store[key].1)
  }

  /** The store after a lookup of key at time now: a stale entry for key is dropped. */
  function Evict<V>(store: map<Key, (real, V)>, key: Key, now: real, ttl: int): map<Key, (real, V)> {
    if key in store && Expired(store[key].0, now, ttl) then store - {key} else store
  }

  class SimpleCache<V> {
    var store: map<Key, (real, V)>
    const ttlSeconds: int
    /** Whether caching is switched on in the settings. */
    const enabled: bool

    constructor(enabled: bool)
      ensures store == map[] && ttlSeconds == DEFAULT_TTL && this.enabled == enabled
    {
      store := map[];
      ttlSeconds := DEFAULT_TTL;
      this.enabled := enabled;
    }

    function MakeKey(fen: string, depth: int): (k: Key)
      ensures k.0 == fen && k.1 == depth
    {
      (fen, depth)
    }

    method Get(fen: string, depth: int, now: real) returns (r: Option<V>)
      modifies this
      ensures !enabled ==> r == None && store == old(store)
      ensures enabled ==> r == Lookup(old(store), MakeKey(fen, depth), now, ttlSeconds)
      ensures enabled ==> store == Evict(old(store), MakeKey(fen, depth), now, ttlSeconds)
    {
      if !enabled {
        return None;
      }
      var key := MakeKey(fen, depth);
      if key !in store {
        return None;
      }
      var (ts, value) := store[key];
      if now - ts > ttlSeconds as real {
        store := store - {key};
        return None;
      }
      return Some(value);
    }

    method Set(fen: string, depth: int, value: V, now: real)
      modifies this
      ensures !enabled ==> store == old(store)
      ensures enabled ==> store == old(store)[MakeKey(fen, depth) := (now, value)]
    {
      if !enabled {
        return;
      }
      var key := MakeKey(fen, depth);
      store := store[key := (now, value)];
    }
  }

  /** A value set at time t is found at any time up to ttl seconds later, and gone after that. */
  lemma LookupAfterSet<V>(store: map<Key, (real, V)>, key: Key, value: V, t: real, now: real, ttl: int)
    ensures now - t <= ttl as real ==> Lookup(store[key := (t, value)], key, now, ttl) == Some(value)
    ensures now - t > ttl as real ==> Lookup(store[key := (t, value)], key, now, ttl) == None
  {
  }

  /** Setting one key changes no other key's answer. */
  lemma SetKeepsOtherKeys<V>(store: map<Key, (real, V)>, key: Key, other: Key, value: V, t: real, now: real, ttl: int)
    requires other != key
    ensures Lookup(store[key := (t, value)], other, now, ttl) == Lookup(store, other, now, ttl)
  {
  }

  /**
   * A lookup drops at most its own key, only when that entry is stale, and
   * leaves every other key's answer as it was; asking again gives the same answer.
   */
  lemma EvictOnlyStaleKey<V>(store: map<Key, (real, V)>, key: Key, now: real, ttl: int)
    ensures Evict(store, key, now, ttl).Keys <= store.Keys
    ensures forall k :: k in Evict(store, key, now, ttl) ==> Evict(store, key, now, ttl)[k] == store[k]
    ensures forall k :: k in store && k !in Evict(store, key, now, ttl) ==> k == key && Expired(store[k].0, now, ttl)
    ensures Lookup(Evict(store, key, now, ttl), key, now, ttl) == Lookup(store, key, now, ttl)
  {
  }

  /** Once stale, an entry stays stale: later lookups miss too. */
  lemma StaleStaysStale<V>(store: map<Key, (real, V)>, key: Key, now: real, later: real, ttl: int)
    requires key in store && Expired(store[key].0, now, ttl) && now <= later
    ensures Lookup(store, key, later, ttl) == None
  {
  }
}
