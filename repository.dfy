/**
 * `Repository<TEntity>`, the cached generic repository, at its one `BaseModel` type
 * `UserProfile`. Reads go through the cache; each write changes the entity, stages it,
 * saves, drops every indexed key the repository owns and caches the saved entity again.
 * `nameof(TEntity)` is the literal "TEntity", so every key it builds starts with "TEntity_".
 */
module Repositories {
  import opened Wrappers
  import opened Text
  import opened Entities
  import opened Caching
  import opened Persistence
  import opened Paging
  import Lifecycle

  const TEntityKind := UserProfileKind
  const Prefix := "TEntity_"

  /** `$"{nameof(TEntity)}_{tail}"`: every key the repository builds. */
  function Key(tail: string): (r: string)
    ensures StartsWith(r, Prefix)
    ensures |r| == |Prefix| + |tail| && r[|Prefix|..] == tail
  {
    StartsWithAppend(Prefix, tail);
    Prefix + tail
  }

  const CountKey := Key("Count")
  const CriteriaCountKey := Key("Count_Criteria")

  function EntityKey(id: Guid): string { Key(id) }
  function ExistsKey(id: Guid): string { Key(id + "_Exists") }
  function PageKey(page: int, pageSize: int): string
  {
    Key("Page_" + IntToString(page) + "_Size_" + IntToString(pageSize))
  }
  function CriteriaKey(hash: int): string { Key("Criteria_" + IntToString(hash)) }
  function CriteriaPageKey(hash: int, page: int, pageSize: int): string
  {
    Key("Criteria_" + IntToString(hash) + "_Page_" + IntToString(page) + "_Size_" + IntToString(pageSize))
  }
  function IdsKey(ids: seq<Guid>): (r: string)
    ensures StartsWith(r, Prefix) && r[|Prefix|..] == "Ids_" + Join("_", ids)
  {
    Key("Ids_" + Join("_", ids))
  }

  /** A `Func<TEntity, bool>` together with its `GetHashCode()`, which the process supplies. */
  datatype Criteria = Criteria(holds: Entity -> bool, hash: int)

  /** `Where(criteria)`: the matching entities, in order. */
  function Filter(s: seq<Entity>, c: Criteria): (r: seq<Entity>)
    ensures |r| <= |s|
    ensures forall x :: x in r <==> x in s && c.holds(x)
  {
    if s == [] then [] else (if c.holds(s[0]) then [s[0]] else []) + Filter(s[1..], c)
  }

  /** `Where(e => ids.Contains(e.Uid))`. */
  function WithUids(s: seq<Entity>, ids: seq<Guid>): (r: seq<Entity>)
    ensures |r| <= |s|
    ensures forall x :: x in r <==> x in s && x.uid in ids
  {
    if s == [] then [] else (if s[0].uid in ids then [s[0]] else []) + WithUids(s[1..], ids)
  }

  /** The cache's store and this instance's key index. */
  type CacheState = (map<string, CacheValue>, set<string>)

  /** `SetAsync(key, v)` on a cache state. */
  function Store(st: CacheState, key: string, v: CacheValue): CacheState
  {
    (st.0[key := v], st.1 + {key})
  }

  /** `InvalidateCache()` on a cache state. */
  function Invalidated(st: CacheState): CacheState
  {
    AfterRemoveByPrefix(st.0, st.1, Prefix)
  }

  /** The cache a successful write leaves: invalidated, then the saved entity under its own key. */
  function Recached(st: CacheState, uid: Guid, saved: Entity): CacheState
  {
    Store(Invalidated(st), EntityKey(uid), VEntity(saved))
  }

  /** What a count read returns: the cached `int?` if there is one, else the fresh count. */
  function CountValue(store: map<string, CacheValue>, key: string, current: int): (r: int)
    ensures Read(store, key, IntType).VInt? ==> r == store[key].n
    ensures !(key in store && store[key].VInt?) ==> r == current
  {
    var v := Read(store, key, IntType);
    if v.VInt? then v.n else current
  }

  class Repository {
    const ctx: ClimbEdgeContext
    const cache: InMemoryCacheService

    constructor (context: ClimbEdgeContext, cacheService: InMemoryCacheService)
      ensures ctx == context && cache == cacheService
    {
      ctx := context;
      cache := cacheService;
    }

    /** `Set<TEntity>()` as a query enumerates it. */
    function Rows(): seq<Entity>
      reads ctx
    {
      Query(ctx.Value(), TEntityKind)
    }

    function CacheState(): CacheState
      reads cache, cache.memory
    {
      (cache.memory.store, cache.keys)
    }

    /** `InvalidateCache()`. */
    method InvalidateCache()
      modifies cache, cache.memory
      ensures CacheState() == Invalidated(old(CacheState()))
    {
      cache.RemoveByPrefix(Prefix);
    }

    /** Caches the tracked value of `uid` after a save under `TEntity_{uid}`. */
    method Recache(uid: Guid)
      requires Tracked(ctx.entries, uid).Some?
      modifies cache, cache.memory
      ensures CacheState() == Store(old(CacheState()), EntityKey(uid), VEntity(Tracked(ctx.entries, uid).value))
    {
      var saved := Tracked(ctx.entries, uid).value;
      cache.Set(EntityKey(uid), VEntity(saved));
    }

    /** `Set<TEntity>().Update(entity)` followed by `SaveChangesAsync()`. */
    method UpdateAndSave(e: Entity, now: Time)
      modifies ctx
      ensures ctx.Value() == Saved(old(ctx.Value()).(entries := Track(old(ctx.entries), e, UpdateState(e))), now)
      ensures Tracked(ctx.entries, e.uid).Some?
    {
      ctx.Update(e);
      SavedAttached(old(ctx.Value()), e, UpdateState(e), now);
      var _ := ctx.SaveChanges(now);
    }

    /** `AddAsync(entity)`. */
    method AddAsync(entity: Option<Entity>, now: Time) returns (r: Outcome)
      requires entity.Some? ==> entity.value.Kind() == TEntityKind
      modifies ctx, cache, cache.memory
      ensures entity.None? ==> r == Failed(ArgumentNull) && ctx.Value() == old(ctx.Value())
                               && CacheState() == old(CacheState())
      ensures entity.Some? ==>
                var e := entity.value;
                r == Done
                && ctx.Value() == Saved(old(ctx.Value()).(entries := Track(old(ctx.entries), e, Added)), now)
                && Tracked(ctx.entries, e.uid).Some?
                && CacheState() == Recached(old(CacheState()), e.uid, Tracked(ctx.entries, e.uid).value)
    {
      if entity.None? {
        return Failed(ArgumentNull);
      }
      var e := entity.value;
      ctx.Add(e);
      SavedAttached(ctx.Value(), e, Added, now);
      var _ := ctx.SaveChanges(now);
      InvalidateCache();
      Recache(e.uid);
      r := Done;
    }

    /** `CountAsync()`. */
    method CountAsync() returns (r: int)
      modifies cache, cache.memory
      ensures r == CountValue(old(cache.memory.store), CountKey, |Rows()|)
      ensures CacheState() == if Read(old(cache.memory.store), CountKey, IntType).VInt? then old(CacheState())
                              else Store(old(CacheState()), CountKey, VInt(r))
    {
      var cached := cache.Get(CountKey, IntType);
      if cached.VInt? {
        return cached.n;
      }
      r := |Rows()|;
      cache.Set(CountKey, VInt(r));
    }

    /** `CountAsync(criteria)`: one key for every criterion. */
    method CountByCriteriaAsync(criteria: Criteria) returns (r: int)
      modifies cache, cache.memory
      ensures r == CountValue(old(cache.memory.store), CriteriaCountKey, |Filter(Rows(), criteria)|)
      ensures CacheState() == if Read(old(cache.memory.store), CriteriaCountKey, IntType).VInt? then old(CacheState())
                              else Store(old(CacheState()), CriteriaCountKey, VInt(r))
    {
      var cached := cache.Get(CriteriaCountKey, IntType);
      if cached.VInt? {
        return cached.n;
      }
      r := |Filter(Rows(), criteria)|;
      cache.Set(CriteriaCountKey, VInt(r));
    }

    /** `DeleteAsync(id)`: a soft delete of the entity `id`; an unknown id changes nothing. */
    method DeleteAsync(id: Guid, now: Time) returns (r: Outcome)
      modifies ctx, cache, cache.memory
      ensures var found := Find(old(Rows()), id);
              if found.None? then
                r == Failed(EntityNotFound) && ctx.Value() == old(ctx.Value()) && CacheState() == old(CacheState())
              else
                var e := Lifecycle.MarkAsDeleted(found.value, now);
                r == Done
                && ctx.Value() == Saved(old(ctx.Value()).(entries := Track(old(ctx.entries), e, UpdateState(e))), now)
                && Tracked(ctx.entries, id).Some?
                && CacheState() == Recached(old(CacheState()), id, Tracked(ctx.entries, id).value)
    {
      var found := Find(Rows(), id);
      if found.None? {
        return Failed(EntityNotFound);
      }
      var e := Lifecycle.MarkAsDeleted(found.value, now);
      assert e.uid == id;
      UpdateAndSave(e, now);
      InvalidateCache();
      Recache(e.uid);
      r := Done;
    }

    /** `ExistsAsync(id)`: the cached `bool?` under `TEntity_{id}_Exists`, else a lookup whose answer is cached. */
    method ExistsAsync(id: Guid) returns (r: bool)
      modifies cache, cache.memory
      ensures var hit := Read(old(cache.memory.store), ExistsKey(id), BoolType);
              if hit.VBool? then r == hit.b && CacheState() == old(CacheState())
              else r == Find(Rows(), id).Some? && CacheState() == Store(old(CacheState()), ExistsKey(id), VBool(r))
    {
      var cached := cache.Get(ExistsKey(id), BoolType);
      if cached.VBool? {
        return cached.b;
      }
      r := Find(Rows(), id).Some?;
      cache.Set(ExistsKey(id), VBool(r));
    }

    /** `GetAsync()`: every row, uncached. */
    method GetAllAsync() returns (r: seq<Entity>)
      ensures r == Rows()
    {
      r := Rows();
    }

    /** `GetAsync(page, pageSize)`. */
    method GetPageAsync(page: int, pageSize: int) returns (r: Result<seq<Entity>>)
      modifies cache, cache.memory
      ensures !ValidPaging(page, pageSize) ==> r == Fail(ArgumentOutOfRange) && CacheState() == old(CacheState())
      ensures ValidPaging(page, pageSize) ==>
                var hit := Read(old(cache.memory.store), PageKey(page, pageSize), EntityList(TEntityKind));
                if hit.VEntities? then r == Ok(hit.entities) && CacheState() == old(CacheState())
                else r == Ok(Page(Rows(), page, pageSize))
                     && CacheState() == Store(old(CacheState()), PageKey(page, pageSize), VEntities(TEntityKind, r.value))
    {
      if !ValidPaging(page, pageSize) {
        return Fail(ArgumentOutOfRange);
      }
      var cached := cache.Get(PageKey(page, pageSize), EntityList(TEntityKind));
      if cached.VEntities? {
        return Ok(cached.entities);
      }
      var entities := Page(Rows(), page, pageSize);
      cache.Set(PageKey(page, pageSize), VEntities(TEntityKind, entities));
      r := Ok(entities);
    }

    /** `GetAsync(criteria)`: no match is an error, and nothing is cached for it. */
    method GetByCriteriaAsync(criteria: Criteria) returns (r: Result<seq<Entity>>)
      modifies cache, cache.memory
      ensures var hit := Read(old(cache.memory.store), CriteriaKey(criteria.hash), EntityList(TEntityKind));
              var data := Filter(Rows(), criteria);
              if hit.VEntities? then r == Ok(hit.entities) && CacheState() == old(CacheState())
              else if data == [] then r == Fail(EntityNotFound) && CacheState() == old(CacheState())
              else r == Ok(data) && CacheState() == Store(old(CacheState()), CriteriaKey(criteria.hash), VEntities(TEntityKind, data))
    {
      var cached := cache.Get(CriteriaKey(criteria.hash), EntityList(TEntityKind));
      if cached.VEntities? {
        return Ok(cached.entities);
      }
      var data := Filter(Rows(), criteria);
      if data == [] {
        return Fail(EntityNotFound);
      }
      cache.Set(CriteriaKey(criteria.hash), VEntities(TEntityKind, data));
      r := Ok(data);
    }

    /** `GetAsync(criteria, page, pageSize)`. */
    method GetByCriteriaPageAsync(criteria: Criteria, page: int, pageSize: int) returns (r: Result<seq<Entity>>)
      modifies cache, cache.memory
      ensures !ValidPaging(page, pageSize) ==> r == Fail(ArgumentOutOfRange) && CacheState() == old(CacheState())
      ensures ValidPaging(page, pageSize) ==>
                var key := CriteriaPageKey(criteria.hash, page, pageSize);
                var hit := Read(old(cache.memory.store), key, EntityList(TEntityKind));
                var data := Page(Filter(Rows(), criteria), page, pageSize);
                if hit.VEntities? then r == Ok(hit.entities) && CacheState() == old(CacheState())
                else if data == [] then r == Fail(EntityNotFound) && CacheState() == old(CacheState())
                else r == Ok(data) && CacheState() == Store(old(CacheState()), key, VEntities(TEntityKind, data))
    {
      if !ValidPaging(page, pageSize) {
        return Fail(ArgumentOutOfRange);
      }
      var key := CriteriaPageKey(criteria.hash, page, pageSize);
      var cached := cache.Get(key, EntityList(TEntityKind));
      if cached.VEntities? {
        return Ok(cached.entities);
      }
      var data := Page(Filter(Rows(), criteria), page, pageSize);
      if data == [] {
        return Fail(EntityNotFound);
      }
      cache.Set(key, VEntities(TEntityKind, data));
      r := Ok(data);
    }

    /** `GetAsync(id)`: a cache hit is returned as it is; a miss reads the rows and caches what it finds. */
    method GetByIdAsync(id: Guid) returns (r: Result<Entity>)
      modifies cache, cache.memory
      ensures var hit := Read(old(cache.memory.store), EntityKey(id), EntityOf(TEntityKind));
              var found := Find(Rows(), id);
              if hit.VEntity? then r == Ok(hit.entity) && CacheState() == old(CacheState())
              else if found.None? then r == Fail(EntityNotFound) && CacheState() == old(CacheState())
              else r == Ok(found.value) && CacheState() == Store(old(CacheState()), EntityKey(id), VEntity(found.value))
    {
      var cached := cache.Get(EntityKey(id), EntityOf(TEntityKind));
      if cached.VEntity? {
        return Ok(cached.entity);
      }
      var found := Find(Rows(), id);
      if found.None? {
        return Fail(EntityNotFound);
      }
      cache.Set(EntityKey(id), VEntity(found.value));
      r := Ok(found.value);
    }

    /** `GetAsync(ids)`. */
    method GetByIdsAsync(ids: seq<Guid>) returns (r: Result<seq<Entity>>)
      modifies cache, cache.memory
      ensures var hit := Read(old(cache.memory.store), IdsKey(ids), EntityList(TEntityKind));
              var data := WithUids(Rows(), ids);
              if hit.VEntities? then r == Ok(hit.entities) && CacheState() == old(CacheState())
              else if data == [] then r == Fail(EntityNotFound) && CacheState() == old(CacheState())
              else r == Ok(data) && CacheState() == Store(old(CacheState()), IdsKey(ids), VEntities(TEntityKind, data))
    {
      var cached := cache.Get(IdsKey(ids), EntityList(TEntityKind));
      if cached.VEntities? {
        return Ok(cached.entities);
      }
      var data := WithUids(Rows(), ids);
      if data == [] {
        return Fail(EntityNotFound);
      }
      cache.Set(IdsKey(ids), VEntities(TEntityKind, data));
      r := Ok(data);
    }

    /** `LockAsync(id, isLocked)`: locks or unlocks; the entity's lock state does not block it. */
    method LockAsync(id: Guid, isLocked: bool, now: Time) returns (r: Outcome)
      modifies ctx, cache, cache.memory
      ensures var found := Find(old(Rows()), id);
              if found.None? then
                r == Failed(EntityNotFound) && ctx.Value() == old(ctx.Value()) && CacheState() == old(CacheState())
              else
                var e := if isLocked then Lifecycle.Lock(found.value, now) else Lifecycle.Unlock(found.value);
                r == Done
                && ctx.Value() == Saved(old(ctx.Value()).(entries := Track(old(ctx.entries), e, UpdateState(e))), now)
                && Tracked(ctx.entries, id).Some?
                && CacheState() == Recached(old(CacheState()), id, Tracked(ctx.entries, id).value)
    {
      var found := Find(Rows(), id);
      if found.None? {
        return Failed(EntityNotFound);
      }
      var e := if isLocked then Lifecycle.Lock(found.value, now) else Lifecycle.Unlock(found.value);
      assert e.uid == id;
      InvalidateCache();
      UpdateAndSave(e, now);
      Recache(e.uid);
      r := Done;
    }

    /** `PagesNumberAsync(pageSize)`: only an oversized page is rejected, before the count is read. */
    method PagesNumberAsync(pageSize: int) returns (r: Result<int>)
      modifies cache, cache.memory
      ensures pageSize > MaxPageSize ==> r == Fail(ArgumentOutOfRange) && CacheState() == old(CacheState())
      ensures pageSize <= MaxPageSize ==> r == PagesNumber(CountValue(old(cache.memory.store), CountKey, |Rows()|), pageSize)
      ensures pageSize <= MaxPageSize ==>
                CacheState() == if Read(old(cache.memory.store), CountKey, IntType).VInt? then old(CacheState())
                                else Store(old(CacheState()), CountKey, VInt(|Rows()|))
    {
      if pageSize > MaxPageSize {
        return Fail(ArgumentOutOfRange);
      }
      var count := CountAsync();
      r := PagesNumber(count, pageSize);
    }

    /** `PagesNumberAsync(criteria, pageSize)`. */
    method PagesNumberByCriteriaAsync(criteria: Criteria, pageSize: int) returns (r: Result<int>)
      modifies cache, cache.memory
      ensures pageSize > MaxPageSize ==> r == Fail(ArgumentOutOfRange) && CacheState() == old(CacheState())
      ensures pageSize <= MaxPageSize ==>
                r == PagesNumber(CountValue(old(cache.memory.store), CriteriaCountKey, |Filter(Rows(), criteria)|), pageSize)
      ensures pageSize <= MaxPageSize ==>
                CacheState() == if Read(old(cache.memory.store), CriteriaCountKey, IntType).VInt? then old(CacheState())
                                else Store(old(CacheState()), CriteriaCountKey, VInt(|Filter(Rows(), criteria)|))
    {
      if pageSize > MaxPageSize {
        return Fail(ArgumentOutOfRange);
      }
      var count := CountByCriteriaAsync(criteria);
      r := PagesNumber(count, pageSize);
    }

    /** `RestoreAsync(id)`. */
    method RestoreAsync(id: Guid, now: Time) returns (r: Outcome)
      modifies ctx, cache, cache.memory
      ensures var found := Find(old(Rows()), id);
              if found.None? then
                r == Failed(EntityNotFound) && ctx.Value() == old(ctx.Value()) && CacheState() == old(CacheState())
              else
                var e := Lifecycle.MarkAsRestored(found.value, now);
                r == Done
                && ctx.Value() == Saved(old(ctx.Value()).(entries := Track(old(ctx.entries), e, UpdateState(e))), now)
                && Tracked(ctx.entries, id).Some?
                && CacheState() == Recached(old(CacheState()), id, Tracked(ctx.entries, id).value)
    {
      var found := Find(Rows(), id);
      if found.None? {
        return Failed(EntityNotFound);
      }
      var e := Lifecycle.MarkAsRestored(found.value, now);
      InvalidateCache();
      UpdateAndSave(e, now);
      Recache(e.uid);
      r := Done;
    }

    /** `SaveChangesAsync()`. */
    method SaveChangesAsync(now: Time)
      modifies ctx
      ensures ctx.Value() == Saved(old(ctx.Value()), now)
    {
      var _ := ctx.SaveChanges(now);
    }

    /** `UpdateAsync(entity)`: a null or locked entity is refused before anything changes. */
    method UpdateAsync(entity: Option<Entity>, now: Time) returns (r: Outcome)
      requires entity.Some? ==> entity.value.Kind() == TEntityKind
      modifies ctx, cache, cache.memory
      ensures entity.None? ==> r == Failed(ArgumentNull)
      ensures entity.Some? && entity.value.IsLocked() ==> r == Failed(EntityLocked)
      ensures r.Failed? ==> ctx.Value() == old(ctx.Value()) && CacheState() == old(CacheState())
      ensures entity.Some? && !entity.value.IsLocked() ==>
                var e := entity.value;
                r == Done
                && ctx.Value() == Saved(old(ctx.Value()).(entries := Track(old(ctx.entries), e, UpdateState(e))), now)
                && Tracked(ctx.entries, e.uid).Some?
                && CacheState() == Recached(old(CacheState()), e.uid, Tracked(ctx.entries, e.uid).value)
    {
      if entity.None? {
        return Failed(ArgumentNull);
      }
      var e := entity.value;
      if e.IsLocked() {
        return Failed(EntityLocked);
      }
      InvalidateCache();
      UpdateAndSave(e, now);
      Recache(e.uid);
      r := Done;
    }
  }

  /** Entity keys of different ids differ, so each entity is cached under a key of its own. */
  lemma EntityKeyInjective(a: Guid, b: Guid)
    ensures EntityKey(a) == EntityKey(b) <==> a == b
  {
    if EntityKey(a) == EntityKey(b) {
      assert a == Key(a)[|Prefix|..];
    }
  }

  /**
   * After a successful write, no indexed "TEntity_" key is left but the written entity's own,
   * which holds the saved entity; keys outside the prefix, and keys this instance never
   * indexed, keep their values.
   */
  lemma RecachedEffect(st: CacheState, uid: Guid, saved: Entity)
    ensures var (store, keys) := Recached(st, uid, saved);
            (forall k :: k in keys && StartsWith(k, Prefix) ==> k == EntityKey(uid))
            && (forall k :: k in st.1 && StartsWith(k, Prefix) && k != EntityKey(uid) ==> k !in store)
            && Read(store, EntityKey(uid), EntityOf(saved.Kind())) == VEntity(saved)
            && (forall k :: !StartsWith(k, Prefix) ==> (k in store <==> k in st.0) && (k in keys <==> k in st.1))
            && (forall k :: !StartsWith(k, Prefix) && k in st.0 ==> store[k] == st.0[k])
            && (forall k :: k !in st.1 && k in st.0 && k != EntityKey(uid) ==> k in store && store[k] == st.0[k])
  {
    RemoveByPrefixEffect(st.0, st.1, Prefix);
  }

  /** The saved entity of a successful `DeleteAsync` is deleted and not restored; its lock state is kept. */
  lemma DeleteSavesDeleted(db: Db, found: Entity, now: Time)
    ensures var e := Lifecycle.MarkAsDeleted(found, now);
            var after := Saved(db.(entries := Track(db.entries, e, UpdateState(e))), now);
            Tracked(after.entries, found.uid).Some?
            && var s := Tracked(after.entries, found.uid).value;
               s.IsDeleted() && !s.IsRestored() && s.lockedAt == found.lockedAt
  {
    var e := Lifecycle.MarkAsDeleted(found, now);
    SavedAttached(db, e, UpdateState(e), now);
  }

  /** The saved entity of a successful `RestoreAsync` is restored and not deleted. */
  lemma RestoreSavesRestored(db: Db, found: Entity, now: Time)
    ensures var e := Lifecycle.MarkAsRestored(found, now);
            var after := Saved(db.(entries := Track(db.entries, e, UpdateState(e))), now);
            Tracked(after.entries, found.uid).Some?
            && var s := Tracked(after.entries, found.uid).value;
               !s.IsDeleted() && s.IsRestored() && s.lockedAt == found.lockedAt
  {
    var e := Lifecycle.MarkAsRestored(found, now);
    SavedAttached(db, e, UpdateState(e), now);
  }

  /** The saved entity of a successful `LockAsync(id, isLocked)` has `IsLocked == isLocked`, its deletion state kept. */
  lemma LockSavesLockState(db: Db, found: Entity, isLocked: bool, now: Time)
    ensures var e := if isLocked then Lifecycle.Lock(found, now) else Lifecycle.Unlock(found);
            var after := Saved(db.(entries := Track(db.entries, e, UpdateState(e))), now);
            Tracked(after.entries, found.uid).Some?
            && var s := Tracked(after.entries, found.uid).value;
               s.IsLocked() == isLocked && s.deletedAt == found.deletedAt
  {
    var e := if isLocked then Lifecycle.Lock(found, now) else Lifecycle.Unlock(found);
    SavedAttached(db, e, UpdateState(e), now);
  }

  /** A criterion that holds for every entity, and one that holds for none. */
  function Everything(hash: int): Criteria { Criteria(_ => true, hash) }
  function Nothing(hash: int): Criteria { Criteria(_ => false, hash) }

  /**
   * `CountAsync(criteria)` caches under one key for every criterion: once one criterion's count
   * is cached, every other criterion is answered with it. Here one row matches the first
   * criterion and none the second, yet the second count is 1.
   */
  lemma CriteriaCountIsShared(x: Entity)
    ensures var rows := [x];
            var first := CountValue(map[], CriteriaCountKey, |Filter(rows, Everything(1))|);
            var store := map[CriteriaCountKey := VInt(first)];
            first == 1
            && |Filter(rows, Nothing(2))| == 0
            && CountValue(store, CriteriaCountKey, |Filter(rows, Nothing(2))|) == 1
  {
    assert Filter([x], Everything(1)) == [x];
  }

  /** The count key `CountAsync(criteria)` evidently intends: one per criterion, as `GetAsync(criteria)` keys its lists. */
  function CriteriaCountKeyFor(hash: int): (r: string)
    ensures StartsWith(r, Prefix)
  {
    Key("Count_Criteria_" + IntToString(hash))
  }

  /** The count `CountAsync(criteria)` returns once it is keyed per criterion. */
  function CriteriaCount(store: map<string, CacheValue>, rows: seq<Entity>, criteria: Criteria): int
  {
    CountValue(store, CriteriaCountKeyFor(criteria.hash), |Filter(rows, criteria)|)
  }

  /**
   * With per-criterion keys, caching one criterion's count leaves every criterion with another
   * hash code to its own count.
   */
  lemma {:induction false} CriteriaCountKeyedPerCriterion(store: map<string, CacheValue>, rows: seq<Entity>, a: Criteria, b: Criteria)
    requires a.hash != b.hash
    ensures var cached := store[CriteriaCountKeyFor(a.hash) := VInt(CriteriaCount(store, rows, a))];
            CriteriaCount(cached, rows, b) == CriteriaCount(store, rows, b)
  {
    if CriteriaCountKeyFor(a.hash) == CriteriaCountKeyFor(b.hash) {
      var ka, kb := CriteriaCountKeyFor(a.hash), CriteriaCountKeyFor(b.hash);
      assert "Count_Criteria_" + IntToString(a.hash) == ka[|Prefix|..] == kb[|Prefix|..] == "Count_Criteria_" + IntToString(b.hash);
      FramedEqual("Count_Criteria_", IntToString(a.hash), IntToString(b.hash), "");
      IntToStringInjective(a.hash, b.hash);
    }
  }
}
