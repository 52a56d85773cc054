/**
 * `AppUserRepository`: the same queries and rules as the generic repository, without the
 * cache. Writes are only staged in the change tracker until `SaveChangesAsync`; queries see the
 * committed rows, with soft-deleted users filtered out.
 */
module UserRepositories {
  import opened Wrappers
  import opened Entities
  import opened Persistence
  import opened Paging
  import opened Repositories
  import Caching
  import Lifecycle

  class AppUserRepository {
    const ctx: ClimbEdgeContext
    /** Injected, and not used by any method. */
    const cache: Caching.InMemoryCacheService

    constructor (context: ClimbEdgeContext, cacheService: Caching.InMemoryCacheService)
      ensures ctx == context && cache == cacheService
    {
      ctx := context;
      cache := cacheService;
    }

    /** `Set<AppUser>()` as a query enumerates it. */
    function Rows(): seq<Entity>
      reads ctx
    {
      Query(ctx.Value(), AppUserKind)
    }

    /** `AddAsync(entity)`: staged as `Added`, nothing committed. */
    method AddAsync(entity: Option<Entity>) returns (r: Outcome)
      requires entity.Some? ==> entity.value.Kind() == AppUserKind
      modifies ctx
      ensures entity.None? ==> r == Failed(ArgumentNull) && ctx.Value() == old(ctx.Value())
      ensures entity.Some? ==> r == Done && ctx.Value() == old(ctx.Value()).(entries := Track(old(ctx.entries), entity.value, Added))
    {
      if entity.None? {
        return Failed(ArgumentNull);
      }
      ctx.Add(entity.value);
      r := Done;
    }

    method CountAsync() returns (r: int)
      ensures r == |Rows()|
    {
      r := |Rows()|;
    }

    method CountByCriteriaAsync(criteria: Criteria) returns (r: int)
      ensures r == |Filter(Rows(), criteria)|
    {
      r := |Filter(Rows(), criteria)|;
    }

    /** `DeleteAsync(id)`: stages the soft delete of a visible user. */
    method DeleteAsync(id: Guid, now: Time) returns (r: Outcome)
      modifies ctx
      ensures var found := Find(old(Rows()), id);
              if found.None? then r == Failed(EntityNotFound) && ctx.Value() == old(ctx.Value())
              else
                var e := Lifecycle.MarkAsDeleted(found.value, now);
                r == Done && ctx.Value() == old(ctx.Value()).(entries := Track(old(ctx.entries), e, UpdateState(e)))
    {
      var found := Find(Rows(), id);
      if found.None? {
        return Failed(EntityNotFound);
      }
      ctx.Update(Lifecycle.MarkAsDeleted(found.value, now));
      r := Done;
    }

    method ExistsAsync(id: Guid) returns (r: bool)
      ensures r <==> exists x :: x in Rows() && x.uid == id
    {
      r := Find(Rows(), id).Some?;
    }

    method GetAllAsync() returns (r: seq<Entity>)
      ensures r == Rows()
    {
      r := Rows();
    }

    /** `GetAsync(page, pageSize)`. */
    method GetPageAsync(page: int, pageSize: int) returns (r: Result<seq<Entity>>)
      ensures !ValidPaging(page, pageSize) <==> r == Fail(ArgumentOutOfRange)
      ensures ValidPaging(page, pageSize) ==> r == Ok(Page(Rows(), page, pageSize))
    {
      if !ValidPaging(page, pageSize) {
        return Fail(ArgumentOutOfRange);
      }
      r := Ok(Page(Rows(), page, pageSize));
    }

    /** `GetAsync(criteria)`: no match is an error. */
    method GetByCriteriaAsync(criteria: Criteria) returns (r: Result<seq<Entity>>)
      ensures r.Fail? <==> forall x :: x in Rows() ==> !criteria.holds(x)
      ensures r.Fail? ==> r.error == EntityNotFound
      ensures r.Ok? ==> r.value == Filter(Rows(), criteria)
    {
      var data := Filter(Rows(), criteria);
      if data == [] {
        return Fail(EntityNotFound);
      }
      assert data[0] in data;
      r := Ok(data);
    }

    /** `GetAsync(criteria, page, pageSize)`: an empty page is an error too. */
    method GetByCriteriaPageAsync(criteria: Criteria, page: int, pageSize: int) returns (r: Result<seq<Entity>>)
      ensures !ValidPaging(page, pageSize) ==> r == Fail(ArgumentOutOfRange)
      ensures ValidPaging(page, pageSize) ==>
                var data := Page(Filter(Rows(), criteria), page, pageSize);
                r == if data == [] then Fail(EntityNotFound) else Ok(data)
    {
      if !ValidPaging(page, pageSize) {
        return Fail(ArgumentOutOfRange);
      }
      var data := Page(Filter(Rows(), criteria), page, pageSize);
      if data == [] {
        return Fail(EntityNotFound);
      }
      r := Ok(data);
    }

    method GetByIdAsync(id: Guid) returns (r: Result<Entity>)
      ensures r.Ok? ==> r.value in Rows() && r.value.uid == id && Find(Rows(), id) == Some(r.value)
      ensures r.Fail? <==> forall x :: x in Rows() ==> x.uid != id
      ensures r.Fail? ==> r.error == EntityNotFound
    {
      var found := Find(Rows(), id);
      if found.None? {
        return Fail(EntityNotFound);
      }
      r := Ok(found.value);
    }

    method GetByIdsAsync(ids: seq<Guid>) returns (r: Result<seq<Entity>>)
      ensures r.Fail? <==> forall x :: x in Rows() ==> x.uid !in ids
      ensures r.Fail? ==> r.error == EntityNotFound
      ensures r.Ok? ==> forall x :: x in r.value <==> x in Rows() && x.uid in ids
      ensures r.Ok? ==> r.value == WithUids(Rows(), ids)
    {
      var data := WithUids(Rows(), ids);
      if data == [] {
        return Fail(EntityNotFound);
      }
      assert data[0] in data;
      r := Ok(data);
    }

    /** `LockAsync(id, isLocked)`: stages the lock change of a visible user. */
    method LockAsync(id: Guid, isLocked: bool, now: Time) returns (r: Outcome)
      modifies ctx
      ensures var found := Find(old(Rows()), id);
              if found.None? then r == Failed(EntityNotFound) && ctx.Value() == old(ctx.Value())
              else
                var e := if isLocked then Lifecycle.Lock(found.value, now) else Lifecycle.Unlock(found.value);
                r == Done && ctx.Value() == old(ctx.Value()).(entries := Track(old(ctx.entries), e, UpdateState(e)))
                && Tracked(ctx.entries, id).Some? && Tracked(ctx.entries, id).value.IsLocked() == isLocked
    {
      var found := Find(Rows(), id);
      if found.None? {
        return Failed(EntityNotFound);
      }
      var e := if isLocked then Lifecycle.Lock(found.value, now) else Lifecycle.Unlock(found.value);
      ctx.Update(e);
      r := Done;
    }

    method PagesNumberAsync(pageSize: int) returns (r: Result<int>)
      ensures r == PagesNumber(|Rows()|, pageSize)
    {
      if pageSize > MaxPageSize {
        return Fail(ArgumentOutOfRange);
      }
      var count := CountAsync();
      r := PagesNumber(count, pageSize);
    }

    method PagesNumberByCriteriaAsync(criteria: Criteria, pageSize: int) returns (r: Result<int>)
      ensures r == PagesNumber(|Filter(Rows(), criteria)|, pageSize)
    {
      if pageSize > MaxPageSize {
        return Fail(ArgumentOutOfRange);
      }
      var count := CountByCriteriaAsync(criteria);
      r := PagesNumber(count, pageSize);
    }

    /** `RestoreAsync(id)`: stages the restore of a user the query can still see. */
    method RestoreAsync(id: Guid, now: Time) returns (r: Outcome)
      modifies ctx
      ensures var found := Find(old(Rows()), id);
              if found.None? then r == Failed(EntityNotFound) && ctx.Value() == old(ctx.Value())
              else
                var e := Lifecycle.MarkAsRestored(found.value, now);
                r == Done && ctx.Value() == old(ctx.Value()).(entries := Track(old(ctx.entries), e, UpdateState(e)))
    {
      var found := Find(Rows(), id);
      if found.None? {
        return Failed(EntityNotFound);
      }
      ctx.Update(Lifecycle.MarkAsRestored(found.value, now));
      r := Done;
    }

    /**
     * `RestoreAsync(id)` as it is evidently meant: the lookup ignores the soft-delete filter, so a
     * user whose deletion is saved can be restored.
     */
    method RestoreDeletedAsync(id: Guid, now: Time) returns (r: Outcome)
      modifies ctx
      ensures var found := Find(Unfiltered(old(ctx.rows), old(ctx.entries), AppUserKind), id);
              if found.None? then r == Failed(EntityNotFound) && ctx.Value() == old(ctx.Value())
              else
                var e := Lifecycle.MarkAsRestored(found.value, now);
                r == Done && ctx.Value() == old(ctx.Value()).(entries := Track(old(ctx.entries), e, UpdateState(e)))
    {
      var found := Find(Unfiltered(ctx.rows, ctx.entries, AppUserKind), id);
      if found.None? {
        return Failed(EntityNotFound);
      }
      ctx.Update(Lifecycle.MarkAsRestored(found.value, now));
      r := Done;
    }

    method SaveChangesAsync(now: Time)
      modifies ctx
      ensures ctx.Value() == Saved(old(ctx.Value()), now)
    {
      var _ := ctx.SaveChanges(now);
    }

    /** `UpdateAsync(entity)`: a null or locked user is refused and nothing is staged. */
    method UpdateAsync(entity: Option<Entity>) returns (r: Outcome)
      requires entity.Some? ==> entity.value.Kind() == AppUserKind
      modifies ctx
      ensures entity.None? ==> r == Failed(ArgumentNull)
      ensures entity.Some? && entity.value.IsLocked() ==> r == Failed(EntityLocked)
      ensures r.Failed? ==> ctx.Value() == old(ctx.Value())
      ensures entity.Some? && !entity.value.IsLocked() ==>
                r == Done && ctx.Value() == old(ctx.Value()).(entries := Track(old(ctx.entries), entity.value, UpdateState(entity.value)))
    {
      if entity.None? {
        return Failed(ArgumentNull);
      }
      if entity.value.IsLocked() {
        return Failed(EntityLocked);
      }
      ctx.Update(entity.value);
      r := Done;
    }
  }

  /** A user added but not saved is invisible to every query, unless a row already carries its uid. */
  lemma AddedUserIsStaged(db: Db, e: Entity)
    requires forall row :: row in db.rows ==> row.uid != e.uid
    ensures Query(db.(entries := Track(db.entries, e, Added)), AppUserKind) == Query(db, AppUserKind)
  {
    ViewIgnoresStaged(db.rows, db.entries, e, Added, AppUserKind);
  }

  /**
   * The soft-delete filter hides a user once the deletion is saved: `RestoreAsync` then throws
   * `EntityNotFound` for the very user `DeleteAsync` found, while the unfiltered lookup of
   * `RestoreDeletedAsync` still finds it.
   */
  lemma RestoreCannotSeeSavedDelete(u: Entity, now: Time)
    requires !u.IsBaseModel() && u.id != 0 && !u.IsDeleted()
    ensures var db := Db([u], [], 1);
            var e := Lifecycle.MarkAsDeleted(u, now);
            var saved := Saved(db.(entries := Track(db.entries, e, UpdateState(e))), now);
            Find(Query(db, AppUserKind), u.uid) == Some(u)
            && Find(Query(saved, AppUserKind), u.uid) == None
            && Find(Unfiltered(saved.rows, saved.entries, AppUserKind), u.uid).Some?
  {
    var e := Lifecycle.MarkAsDeleted(u, now);
    assert Query(Db([u], [], 1), AppUserKind) == [u];
    var p := Lifecycle.UpdateTimestamps(e, now);
    SavedOneUpdate(u, e, now);
    var saved := Db([p], [Entry(p, Unchanged)], 1);
    assert Query(saved, AppUserKind) == [];
    assert Resolve(saved.entries, p) == p;
    assert Unfiltered(saved.rows, saved.entries, AppUserKind) == [p];
  }

  /** Saving the update of the only row, tracked alone, writes the timestamped entity over it. */
  lemma SavedOneUpdate(u: Entity, e: Entity, now: Time)
    requires e.uid == u.uid && !e.IsBaseModel() && e.id != 0
    ensures var p := Lifecycle.UpdateTimestamps(e, now);
            Saved(Db([u], Track([], e, UpdateState(e)), 1), now) == Db([p], [Entry(p, Unchanged)], 1)
  {
    var entries := Track([], e, Modified);
    assert entries == [Entry(e, Modified)];
    var p := Lifecycle.UpdateTimestamps(e, now);
    assert Pass(entries, now) == [Entry(p, Modified)];
    assert p.uid == u.uid;
    assert ReplaceRow([u], p) == [p];
    var pending := [Entry(p, Modified)];
    assert CommitRows([u], pending[0], 1) == [p];
    assert Committed(pending[0], 1) == p;
    assert pending[1..] == [];
    assert Commit([p], pending[1..], 1) == ([p], [], 1);
    var c := Commit([u], pending, 1);
    assert c.0 == [p];
    assert c.2 == 1;
    assert c.1 == [Entry(p, Unchanged)];
  }
}
