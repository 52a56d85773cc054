/**
 * `UserProfileRepository`: the generic repository for `UserProfile` plus a read-through lookup
 * by user id under keys of its own, "UserProfile_user_{userId}", outside the "TEntity_" prefix.
 */
module ProfileRepositories {
  import opened Wrappers
  import opened Text
  import opened Entities
  import opened Caching
  import opened Repositories

  function UserKey(userId: int): string
  {
    "UserProfile_user_" + IntToString(userId)
  }

  /** `FirstOrDefaultAsync(up => up.AppUserId == userId)`; `AppUserId` is the profile's `UserId`. */
  function FindByUser(s: seq<Entity>, userId: int): (r: Option<Entity>)
    ensures r.Some? ==> r.value in s && r.value.details.ProfileDetails? && r.value.details.userId == userId
    ensures r.None? <==> forall x :: x in s ==> !(x.details.ProfileDetails? && x.details.userId == userId)
    ensures r.Some? ==> exists j :: 0 <= j < |s| && s[j] == r.value && forall k :: 0 <= k < j ==> !OfUser(s[k], userId)
  {
    if s == [] then None
    else if OfUser(s[0], userId) then Some(s[0])
    else
      var r := FindByUser(s[1..], userId);
      assert r.Some? ==> exists j :: 1 <= j < |s| && s[j] == r.value && forall k :: 0 <= k < j ==> !OfUser(s[k], userId) by {
        if r.Some? {
          var j :| 0 <= j < |s[1..]| && s[1..][j] == r.value && forall k :: 0 <= k < j ==> !OfUser(s[1..][k], userId);
          assert forall k :: 1 <= k < j + 1 ==> s[k] == s[1..][k - 1];
          assert s[j + 1] == r.value;
        }
      }
      r
  }

  /** The profile belongs to the user `userId`. */
  predicate OfUser(x: Entity, userId: int)
  {
    x.details.ProfileDetails? && x.details.userId == userId
  }

  class UserProfileRepository {
    /** The `Repository<UserProfile>` this class derives from. */
    const repository: Repository

    constructor (context: Persistence.ClimbEdgeContext, cacheService: InMemoryCacheService)
      ensures repository.ctx == context && repository.cache == cacheService
    {
      repository := new Repository(context, cacheService);
    }

    /**
     * `GetUserProfileAsync(userId)`: a cached profile is returned as it is; on a miss the lookup
     * result is cached even when it is null, and a null result then throws `KeyNotFoundException`.
     */
    method GetUserProfileAsync(userId: int) returns (r: Result<Entity>)
      modifies repository.cache, repository.cache.memory
      ensures var hit := Read(old(repository.cache.memory.store), UserKey(userId), EntityOf(UserProfileKind));
              var found := FindByUser(repository.Rows(), userId);
              if hit.VEntity? then
                r == Ok(hit.entity) && repository.CacheState() == old(repository.CacheState())
              else
                repository.CacheState()
                  == Store(old(repository.CacheState()), UserKey(userId), if found.Some? then VEntity(found.value) else VNull)
                && r == if found.Some? then Ok(found.value) else Fail(KeyNotFound)
    {
      var cache := repository.cache;
      var cached := cache.Get(UserKey(userId), EntityOf(UserProfileKind));
      if cached.VEntity? {
        return Ok(cached.entity);
      }
      var found := FindByUser(repository.Rows(), userId);
      cache.Set(UserKey(userId), if found.Some? then VEntity(found.value) else VNull);
      r := if found.Some? then Ok(found.value) else Fail(KeyNotFound);
    }
  }

  /**
   * User-id keys lie outside the "TEntity_" prefix: no write of the base repository removes or
   * changes them, so a cached profile outlives every update, delete, restore or lock of it.
   */
  lemma UserKeysSurviveWrites(st: CacheState, userId: int, uid: Guid, saved: Entity)
    ensures !StartsWith(UserKey(userId), Prefix)
    ensures var (store, keys) := Recached(st, uid, saved);
            (UserKey(userId) in store <==> UserKey(userId) in st.0)
            && (UserKey(userId) in st.0 ==> store[UserKey(userId)] == st.0[UserKey(userId)])
  {
    assert UserKey(userId)[0] == 'U';
    RecachedEffect(st, uid, saved);
  }

  /** The null a failed lookup caches reads back as a miss, so the next call looks again and throws again. */
  lemma CachedNullIsMiss(st: CacheState, userId: int)
    ensures Read(Store(st, UserKey(userId), VNull).0, UserKey(userId), EntityOf(UserProfileKind)) == VNull
  {
  }
}
