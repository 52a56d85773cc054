/**
 * `InMemoryCacheService`: a view on the process-wide `IMemoryCache` (a singleton shared by every
 * request) plus a per-instance index of the keys this instance has set (the service is scoped,
 * one per request). Prefix removal consults only the index, so a key set through another
 * instance stays in the store.
 */
module Caching {
  import opened Text
  import opened Entities

  /** The objects the repositories put in the cache. */
  datatype CacheValue =
    | VEntity(entity: Entity)
    | VEntities(kind: Kind, entities: seq<Entity>)
    | VInt(n: int)
    | VBool(b: bool)
    | VNull

  /** The `T` of a `GetAsync<T>` call. */
  datatype ValueType = EntityOf(kind: Kind) | EntityList(listKind: Kind) | IntType | BoolType

  /** The stored object is a `T`. */
  predicate OfType(v: CacheValue, t: ValueType)
  {
    match t
    case EntityOf(k) => v.VEntity? && v.entity.Kind() == k
    case EntityList(k) => v.VEntities? && v.kind == k
    case IntType => v.VInt?
    case BoolType => v.VBool?
  }

  /**
   * `TryGetValue(key, out T? value)`: the stored value when there is one of type `T`, otherwise
   * `default` (`VNull`): for an absent key, a stored null, or an object of another type.
   */
  function Read(store: map<string, CacheValue>, key: string, t: ValueType): (r: CacheValue)
    ensures r != VNull <==> key in store && OfType(store[key], t)
    ensures r != VNull ==> r == store[key]
  {
    if key in store && OfType(store[key], t) then store[key] else VNull
  }

  /** The keys of `keys` that `StartsWith(prefix)` (ordinal comparison). */
  function Matching(keys: set<string>, prefix: string): (r: set<string>)
    ensures r <= keys
    ensures forall k :: k in r <==> k in keys && StartsWith(k, prefix)
  {
    set k | k in keys && StartsWith(k, prefix)
  }

  /** The shared `IMemoryCache`. */
  class MemoryCache {
    var store: map<string, CacheValue>

    constructor ()
      ensures store == map[]
    {
      store := map[];
    }

    /** Expiry of `key` once its sliding time has passed, as an explicit step: the store forgets it, no index does. */
    method Expire(key: string)
      modifies this
      ensures store == old(store) - {key}
    {
      store := store - {key};
    }
  }

  class InMemoryCacheService {
    const memory: MemoryCache
    var keys: set<string>

    constructor (memoryCache: MemoryCache)
      ensures memory == memoryCache && keys == {}
    {
      memory := memoryCache;
      keys := {};
    }

    /** `GetAsync<T>(key)`. */
    method Get(key: string, t: ValueType) returns (r: CacheValue)
      ensures r == Read(memory.store, key, t)
    {
      if key in memory.store && OfType(memory.store[key], t) {
        r := memory.store[key];
      } else {
        r := VNull;
      }
    }

    /** `SetAsync(key, value)`: stores the value and indexes the key (once, however often it is set). */
    method Set(key: string, value: CacheValue)
      modifies this, memory
      ensures memory.store == old(memory.store)[key := value]
      ensures keys == old(keys) + {key}
    {
      memory.store := memory.store[key := value];
      keys := keys + {key};
    }

    /** `RemoveAsync(key)`. */
    method Remove(key: string)
      modifies this, memory
      ensures memory.store == old(memory.store) - {key}
      ensures keys == old(keys) - {key}
    {
      memory.store := memory.store - {key};
      keys := keys - {key};
    }

    /** `RemoveByPrefixAsync(prefix)`: removes every indexed key with the prefix from the store and the index. */
    method RemoveByPrefix(prefix: string)
      modifies this, memory
      ensures memory.store == old(memory.store) - Matching(old(keys), prefix)
      ensures keys == old(keys) - Matching(old(keys), prefix)
    {
      var keysToRemove := Matching(keys, prefix);
      ghost var removed: set<string> := {};
      while keysToRemove != {}
        invariant removed !! keysToRemove
        invariant removed + keysToRemove == Matching(old(keys), prefix)
        invariant memory.store == old(memory.store) - removed
        invariant keys == old(keys) - removed
        decreases keysToRemove
      {
        var key :| key in keysToRemove;
        memory.store := memory.store - {key};
        keys := keys - {key};
        keysToRemove := keysToRemove - {key};
        removed := removed + {key};
      }
    }
  }

  /** The state `RemoveByPrefix` leaves, as a function of the state before. */
  function AfterRemoveByPrefix(store: map<string, CacheValue>, keys: set<string>, prefix: string)
    : (r: (map<string, CacheValue>, set<string>))
  {
    (store - Matching(keys, prefix), keys - Matching(keys, prefix))
  }

  /**
   * After prefix removal no indexed key has the prefix and none of the removed keys is in the
   * store; every key without the prefix, and every key the index did not hold, is untouched.
   */
  lemma RemoveByPrefixEffect(store: map<string, CacheValue>, keys: set<string>, prefix: string)
    ensures var (s, ks) := AfterRemoveByPrefix(store, keys, prefix);
            (forall k :: k in ks ==> !StartsWith(k, prefix))
            && (forall k :: k in keys && StartsWith(k, prefix) ==> k !in s)
            && (forall k :: !StartsWith(k, prefix) ==> (k in s <==> k in store) && (k in ks <==> k in keys))
            && (forall k :: !StartsWith(k, prefix) && k in store ==> s[k] == store[k])
            && (forall k :: k !in keys && k in store ==> k in s && s[k] == store[k])
  {
  }

  /** A second removal with the same prefix changes nothing. */
  lemma RemoveByPrefixIdempotent(store: map<string, CacheValue>, keys: set<string>, prefix: string)
    ensures var (s, ks) := AfterRemoveByPrefix(store, keys, prefix);
            AfterRemoveByPrefix(s, ks, prefix) == (s, ks)
  {
    var (s, ks) := AfterRemoveByPrefix(store, keys, prefix);
    assert Matching(ks, prefix) == {};
    assert s - {} == s;
    assert ks - {} == ks;
  }

  /** A value set under a key reads back as itself through a `GetAsync` of its own type. */
  lemma SetThenGet(store: map<string, CacheValue>, key: string, v: CacheValue, t: ValueType)
    requires OfType(v, t)
    ensures Read(store[key := v], key, t) == v
  {
  }

  /** Removal is idempotent on both the store and the index. */
  lemma RemoveIdempotent(store: map<string, CacheValue>, keys: set<string>, key: string)
    ensures (store - {key}) - {key} == store - {key}
    ensures (keys - {key}) - {key} == keys - {key}
    ensures Read(store - {key}, key, IntType) == VNull
  {
  }
}
