# ClimbEdge domain and data-access core, in Dafny

This project models the domain and data-access core of ClimbEdge, a climbing community backend
written in C# on ASP.NET Core and Entity Framework Core. It covers these parts:

- **Entities.** `BaseModel`, `UserProfile` and `AppUser`: slugs, soft delete and restore,
  lock and unlock, timestamps and domain events. Entities are values (`Entities.Entity`). The
  `UserProfile` and `AppUser` objects are classes whose methods are proved against pure
  transition functions (`Value() == AfterLock(old(Value()), now)`).
- **The EF Core context.** `ClimbEdgeContext` holds rows, a change tracker and identity
  values. Its `UpdateTimestamps` pass runs two loops, so `BaseModel` entries are visited twice.
  `SaveChanges` is that pass followed by a commit. The query filter on `AppUser` hides
  soft-deleted users.
- **The in-memory cache service.** A shared `IMemoryCache` plus a per-instance index of keys,
  with prefix invalidation.
- **The repositories.**
  - The generic `Repository<TEntity>`: cached reads, and writes that invalidate the cache.
    `nameof(TEntity)` is the literal `"TEntity"`, so every key starts with `TEntity_`.
  - `UserProfileRepository`: its per-user key `UserProfile_user_<id>` is never invalidated by a
    write.
  - `AppUserRepository`: uncached, and it only stages writes until `SaveChangesAsync`.
- **The rest.**
  - Paging and the page count.
  - The `Or`/`Not` specifications.
  - The reflection-based `Mapper`.
  - How the JWT bearer handler's `OnMessageReceived` picks the token out of a request.

Clocks, `Guid.NewGuid()`, `DateTime.Today` and `GetHashCode()` are parameters. Time is a
natural number of ticks. Cache expiry is an explicit step (`Caching.MemoryCache.Expire`).

Modules follow the source: `Wrappers`, `Text`, `DomainEvents`, `Entities`, `BaseModel`,
`UserProfiles`, `AppUsers`, `Lifecycle`, `Persistence`, `Caching`, `Paging`, `Repositories`,
`ProfileRepositories`, `UserRepositories`, `Specifications`, `Mappers` and `BearerTokens`.

## Model

| member | source | states |
|---|---|---|
| Text.Lower | ClimbEdge.Domain/Shared/BaseModel.cs:33 | `ToLowerInvariant` keeps the length and lower-cases each ASCII letter in place |
| Text.Trim | ClimbEdge.Domain/Entities/UserProfile.cs:76 | the result is a slice of the input with only white space cut off either side, has no white space at either end, and is empty exactly when the input is blank |
| Text.TrimOfTrimmed | ClimbEdge.Domain/Entities/UserProfile.cs:76 | a string without white space at either end is its own trim, so trimming twice is trimming once |
| Text.TrimJoined | ClimbEdge.Domain/Entities/UserProfile.cs:76 | trimming `a + " " + b` gives empty when both parts are blank, the other part trimmed when one is blank, and `TrimStart(a) + " " + TrimEnd(b)` otherwise, so white space inside is kept |
| Text.RemoveAll | ClimbEdge.Infrastructure/DependencyInjection/ServiceCollectionExtensions.cs:159 | `Replace(p, "")` never lengthens, leaves a string without `p` unchanged, and removes at least one whole occurrence from a string that holds one |
| Text.RemoveAllPrefix | ClimbEdge.Infrastructure/DependencyInjection/ServiceCollectionExtensions.cs:159 | an occurrence at the front is removed whole and the scan goes on after it |
| Text.NatToString | ClimbEdge.Domain/Entities/UserProfile.cs:103 | the ticks print as at least one decimal digit, "0" only for zero, one digit exactly below ten |
| Text.IntToStringInjective | ClimbEdge.Infrastructure/Repositories/UserProfileRepository.cs:19 | different user ids print differently, so per-user keys do not collide |
| BaseModel.Normalize | ClimbEdge.Domain/Shared/BaseModel.cs:33 | lower-casing and `Replace(" ", "-")` act character by character and keep the length |
| BaseModel.NormalizeAppend | ClimbEdge.Domain/Shared/BaseModel.cs:33 | normalising a concatenation normalises each part |
| BaseModel.NormalizeIdempotent | ClimbEdge.Domain/Shared/BaseModel.cs:33 | normalising twice is normalising once |
| BaseModel.SlugFor | ClimbEdge.Domain/Shared/BaseModel.cs:30-34 | the stored slug is `<Type>/` followed by the normalised value; a null value stores `<Type>/`, because `+` binds tighter than `??` |
| BaseModel.SlugReassignment | ClimbEdge.Domain/Shared/BaseModel.cs:30-34 | assigning a slug read back from the getter prefixes the type name again, so the slug changes |
| BaseModel.WithSlug | ClimbEdge.Domain/Shared/BaseModel.cs:30-34 | the setter changes only the slug, which carries the type prefix |
| BaseModel.IsValid | ClimbEdge.Domain/Shared/BaseModel.cs:131-138 | throws `InvalidOperationException` exactly when the slug is empty or white space, else returns true |
| BaseModel.ValidAfterSlugAssignment | ClimbEdge.Domain/Shared/BaseModel.cs:131-138 | every slug the setter stores passes `IsValid` |
| BaseModel.Equals | ClimbEdge.Domain/Shared/BaseModel.cs:104-111 | true exactly when the other object is a non-null model with the same `Id` and `Uid` |
| BaseModel.EqualsIsConsistent | ClimbEdge.Domain/Shared/BaseModel.cs:104-119 | `Equals` is reflexive, symmetric and transitive, and equal models hash alike |
| BaseModel.MarkedDeleted | ClimbEdge.Domain/Shared/BaseModel.cs:142-146 | deleted at `now`, not restored, everything else unchanged |
| BaseModel.MarkedRestored | ClimbEdge.Domain/Shared/BaseModel.cs:150-154 | restored at `now`, not deleted, everything else unchanged |
| BaseModel.Touched | ClimbEdge.Domain/Shared/BaseModel.cs:158-165 | `UpdatedAt` is `now`; a deleted entity loses `RestoredAt`; nothing else changes |
| BaseModel.Locked | ClimbEdge.Domain/Shared/BaseModel.cs:166-169 | locked at `now`, only `LockedAt` changes |
| BaseModel.Unlocked | ClimbEdge.Domain/Shared/BaseModel.cs:170-173 | unlocked, only `LockedAt` changes |
| BaseModel.DeleteThenRestore | ClimbEdge.Domain/Shared/BaseModel.cs:142-173 | delete then restore leaves the entity not deleted, with a lock or unlock in between or not |
| BaseModel.AddDomainEvent | ClimbEdge.Domain/Shared/BaseModel.cs:177-180 | appends the event at the end and changes nothing else |
| BaseModel.ClearDomainEvents | ClimbEdge.Domain/Shared/BaseModel.cs:182 | empties the events and changes nothing else |
| UserProfiles.FirstLetter | ClimbEdge.Domain/Entities/UserProfile.cs:99 | `name?.FirstOrDefault()` prints nothing for null, one character otherwise, and that character is the first letter when there is one |
| UserProfiles.Initials | ClimbEdge.Domain/Entities/UserProfile.cs:99 | one character for each name present: the first is the upper-cased first letter of the first name, the last that of the last name, and an empty name gives `\0`; empty without names |
| UserProfiles.FullName | ClimbEdge.Domain/Entities/UserProfile.cs:76 | no white space at either end; empty when both names are missing or blank; the other name trimmed when one is missing or blank; otherwise the first name with its start trimmed, a space, and the last name with its end trimmed, so `" Ana "` and `"Li"` give `"Ana  Li"` |
| UserProfiles.Age | ClimbEdge.Domain/Entities/UserProfile.cs:80-95 | null exactly without a birth date; otherwise the year difference, less one exactly when the birthday's day of the year is still ahead |
| UserProfiles.DigitsAreNormal | ClimbEdge.Domain/Entities/UserProfile.cs:103 | the printed ticks survive slug normalisation unchanged |
| UserProfiles.NewProfile | ClimbEdge.Domain/Entities/UserProfile.cs:101-105 | a new profile's slug is `UserProfile/ec//<ticks>` (the constructor runs before any initialiser, so initials are empty), with one `Created` event and the default country, time zone, language and flags |
| UserProfiles.AfterMarkAsDeleted | ClimbEdge.Domain/Entities/UserProfile.cs:112-116 | the base soft delete, then one `Deleted` event with state `deleted = true` |
| UserProfiles.AfterMarkAsRestored | ClimbEdge.Domain/Entities/UserProfile.cs:117-121 | the base restore, then one `Restored` event |
| UserProfiles.AfterLock | ClimbEdge.Domain/Entities/UserProfile.cs:122-126 | the base lock, then one `Locked` event with `Locked = true` |
| UserProfiles.AfterUnlock | ClimbEdge.Domain/Entities/UserProfile.cs:127-131 | the base unlock, then one event of type `Locked` with `Locked = false` |
| UserProfiles.AfterUpdateTimestamps | ClimbEdge.Domain/Entities/UserProfile.cs:107-111 | the base timestamp update, then one `Updated` event |
| UserProfiles.UserProfile.constructor | ClimbEdge.Domain/Entities/UserProfile.cs:101-105 | the object's value is `NewProfile` |
| UserProfiles.UserProfile.SetSlug | ClimbEdge.Domain/Shared/BaseModel.cs:30-34 | the object's value becomes `WithSlug` of the old value |
| UserProfiles.UserProfile.MarkAsDeleted | ClimbEdge.Domain/Entities/UserProfile.cs:112-116 | the object's new value is `AfterMarkAsDeleted` of the old one |
| UserProfiles.UserProfile.MarkAsRestored | ClimbEdge.Domain/Entities/UserProfile.cs:117-121 | the object's new value is `AfterMarkAsRestored` of the old one |
| UserProfiles.UserProfile.Lock | ClimbEdge.Domain/Entities/UserProfile.cs:122-126 | the object's new value is `AfterLock` of the old one |
| UserProfiles.UserProfile.Unlock | ClimbEdge.Domain/Entities/UserProfile.cs:127-131 | the object's new value is `AfterUnlock` of the old one |
| UserProfiles.UserProfile.UpdateTimestamps | ClimbEdge.Domain/Entities/UserProfile.cs:107-111 | the object's new value is `AfterUpdateTimestamps` of the old one |
| UserProfiles.UserProfile.ClearDomainEvents | ClimbEdge.Domain/Shared/BaseModel.cs:182 | the events are emptied, nothing else changes |
| AppUsers.NewUser | ClimbEdge.Domain/Entities/AppUser.cs:17-32 | a new user has an empty slug, no events, creation time `now` and no other stamps |
| AppUsers.AfterMarkAsDeleted | ClimbEdge.Domain/Entities/AppUser.cs:53-58 | the same change as the base soft delete, then one `Deleted` event with `Deleted = true` |
| AppUsers.AfterMarkAsRestored | ClimbEdge.Domain/Entities/AppUser.cs:60-65 | the same change as the base restore, then one `Restored` event |
| AppUsers.AfterLock | ClimbEdge.Domain/Entities/AppUser.cs:47-51 | locked at `now`, then one `Locked` event with `Locked = true` |
| AppUsers.AfterUnlock | ClimbEdge.Domain/Entities/AppUser.cs:67-71 | unlocked, then one event of type `Locked` with `Locked = false` |
| AppUsers.AfterUpdateTimestamps | ClimbEdge.Domain/Entities/AppUser.cs:73-81 | the same change as the base timestamp update, then one `Updated` event |
| AppUsers.AfterInitializeSlug | ClimbEdge.Domain/Entities/AppUser.cs:106-110 | the slug becomes `AppUser/<normalised user name>/<ticks>` with one `Created` event, nothing else changes |
| AppUsers.InitializeSlugTwice | ClimbEdge.Domain/Entities/AppUser.cs:106-110 | running it twice gives the same slug but two `Created` events |
| AppUsers.InitializeSlugSeparatesUsers | ClimbEdge.Domain/Entities/AppUser.cs:106-110 | users created at the same tick whose normalised user names differ get different slugs |
| AppUsers.AppUser.constructor | ClimbEdge.Domain/Entities/AppUser.cs:17-18 | the object's value is `NewUser` |
| AppUsers.AppUser.SetSlug | ClimbEdge.Domain/Entities/AppUser.cs:20-24 | the object's value becomes `WithSlug` of the old value |
| AppUsers.AppUser.MarkAsDeleted | ClimbEdge.Domain/Entities/AppUser.cs:53-58 | the object's new value is `AfterMarkAsDeleted` of the old one |
| AppUsers.AppUser.MarkAsRestored | ClimbEdge.Domain/Entities/AppUser.cs:60-65 | the object's new value is `AfterMarkAsRestored` of the old one |
| AppUsers.AppUser.Lock | ClimbEdge.Domain/Entities/AppUser.cs:47-51 | the object's new value is `AfterLock` of the old one |
| AppUsers.AppUser.Unlock | ClimbEdge.Domain/Entities/AppUser.cs:67-71 | the object's new value is `AfterUnlock` of the old one |
| AppUsers.AppUser.UpdateTimestamps | ClimbEdge.Domain/Entities/AppUser.cs:73-81 | the object's new value is `AfterUpdateTimestamps` of the old one |
| AppUsers.AppUser.InitializeSlug | ClimbEdge.Domain/Entities/AppUser.cs:106-110 | the object's new value is `AfterInitializeSlug` of the old one |
| AppUsers.AppUser.ClearDomainEvents | ClimbEdge.Domain/Entities/AppUser.cs:90 | the events are emptied, nothing else changes |
| Lifecycle.MarkAsDeleted | ClimbEdge.Infrastructure/Repositories/Repository.cs:59 | whatever the concrete type: deleted, not restored, lock and slug kept, earlier events kept, one `Deleted` event added |
| Lifecycle.MarkAsRestored | ClimbEdge.Infrastructure/Repositories/Repository.cs:201 | whatever the concrete type: restored, not deleted, lock and slug kept, one `Restored` event added |
| Lifecycle.Lock | ClimbEdge.Infrastructure/Repositories/Repository.cs:162-165 | locked, deletion stamps and slug kept, one `Locked` event with `Locked = true` |
| Lifecycle.Unlock | ClimbEdge.Infrastructure/Repositories/Repository.cs:166-169 | unlocked, deletion stamps and slug kept, one `Locked` event with `Locked = false` |
| Lifecycle.UpdateTimestamps | ClimbEdge.Infrastructure/Persistence/ClimbEdgeContext.cs:71-73 | `UpdatedAt` is `now`, a deleted entity loses `RestoredAt`, one `Updated` event added |
| Lifecycle.InitializeSlug | ClimbEdge.Infrastructure/Persistence/ClimbEdgeContext.cs:83-87 | changes nothing on a `BaseModel`; on an `AppUser` it changes only the slug and adds one `Created` event |
| Lifecycle.LockUnlockRoundTrip | ClimbEdge.Infrastructure/Repositories/Repository.cs:162-169 | lock then unlock leaves the entity unlocked and otherwise as it was, with two events more |
| Persistence.IndexOf | ClimbEdge.Infrastructure/Repositories/Repository.cs:54 | the change tracker's entry for a uid is the first one with that uid, or none |
| Persistence.Tracked | ClimbEdge.Infrastructure/Repositories/Repository.cs:54 | an entity is tracked exactly when some entry carries its uid |
| Persistence.Resolve | ClimbEdge.Infrastructure/Repositories/Repository.cs:54 | a query returns the tracked instance of a row, with the same uid |
| Persistence.View | ClimbEdge.Infrastructure/Persistence/Configurations/AppUserConfiguration.cs:48 | a query returns exactly the visible rows of its type, each resolved against the tracker; soft-deleted users are not visible |
| Persistence.Unfiltered | ClimbEdge.Infrastructure/Persistence/Configurations/AppUserConfiguration.cs:48 | with the query filter ignored, every row of the type is returned, resolved against the tracker |
| Persistence.ViewIgnoresStaged | ClimbEdge.Infrastructure/Persistence/Configurations/AppUserConfiguration.cs:48 | attaching an entity that has no row leaves every query result unchanged |
| Persistence.Find | ClimbEdge.Infrastructure/Repositories/Repository.cs:54 | `FirstOrDefaultAsync(e => e.Uid == id)` finds the first element with that uid, and none exactly when no element has it |
| Persistence.Track | ClimbEdge.Infrastructure/Repositories/Repository.cs:60 | `Update(entity)` tracks the entity in the given state, replacing its entry; every other entry and uid position is kept, and entries of distinct entities stay distinct |
| Persistence.StampOnce | ClimbEdge.Infrastructure/Persistence/ClimbEdgeContext.cs:63-74 | one visit: an added entry gets creation time `now` and no update time; a modified one gets update time `now`; an unchanged one is untouched |
| Persistence.FirstLoop | ClimbEdge.Infrastructure/Persistence/ClimbEdgeContext.cs:59-75 | the first loop stamps only `BaseModel` entries and keeps the entry states |
| Persistence.SecondLoop | ClimbEdge.Infrastructure/Persistence/ClimbEdgeContext.cs:78-93 | the second loop stamps every entry once and keeps the entry states |
| Persistence.Pass | ClimbEdge.Infrastructure/Persistence/ClimbEdgeContext.cs:57-94 | the whole pass keeps the entry states, uids and identity values and leaves unchanged entries alone |
| Persistence.PassEntry | ClimbEdge.Infrastructure/Persistence/ClimbEdgeContext.cs:57-94 | by type and state: `BaseModel` entries are stamped twice, `AppUser` entries once; an added `AppUser` gets its slug initialised |
| Persistence.PassModifiedEvents | ClimbEdge.Infrastructure/Persistence/ClimbEdgeContext.cs:61-93 | each save of a modified `UserProfile` raises two `Updated` events, of a modified `AppUser` one |
| Persistence.PassAddedAppUser | ClimbEdge.Infrastructure/Persistence/ClimbEdgeContext.cs:83-87 | an added `AppUser` gets creation time `now`, no update time, its slug and one `Created` event |
| Persistence.ReplaceRow | ClimbEdge.Infrastructure/Persistence/ClimbEdgeContext.cs:51 | an update by key replaces every row with the entity's uid and no other |
| Persistence.Commit | ClimbEdge.Infrastructure/Persistence/ClimbEdgeContext.cs:51 | every entry becomes `Unchanged` with the same entity, except that an added one receives its identity value; one row is inserted and one identity value used per `Added` entry |
| Persistence.Committed | ClimbEdge.Infrastructure/Persistence/ClimbEdgeContext.cs:51 | a committed entity keeps its uid and fields, and an added one takes the next identity value |
| Persistence.CommitRows | ClimbEdge.Infrastructure/Persistence/ClimbEdgeContext.cs:51 | one entry's write: a `Modified` entry replaces the rows of its uid, an `Added` one is appended with the next identity value, an `Unchanged` one writes nothing |
| Persistence.AddedEntities | ClimbEdge.Infrastructure/Persistence/ClimbEdgeContext.cs:51 | one inserted entity per `Added` entry |
| Persistence.CommitWrites | ClimbEdge.Infrastructure/Persistence/ClimbEdgeContext.cs:51 | with the entries of distinct entities: each existing row becomes the entity of its `Modified` entry or stays as it was, and the `Added` entities follow in entry order with consecutive identity values from the counter |
| Persistence.CommitUpdates | ClimbEdge.Infrastructure/Persistence/ClimbEdgeContext.cs:51 | the existing rows after a commit: each becomes the entity of its `Modified` entry, or stays |
| Persistence.CommitInserts | ClimbEdge.Infrastructure/Persistence/ClimbEdgeContext.cs:51 | the inserted rows after a commit: the `Added` entities in entry order, with consecutive identity values |
| Persistence.Saved | ClimbEdge.Infrastructure/Persistence/ClimbEdgeContext.cs:48-52 | after a save every entry is `Unchanged` and keeps its uid and position, and entries of distinct entities stay distinct |
| Persistence.SavedWrites | ClimbEdge.Infrastructure/Persistence/ClimbEdgeContext.cs:48-52 | with the entries of distinct entities, the rows a save leaves are the commit's output over the timestamped entries, and the identity counter advances by the number of `Added` entries |
| Persistence.SaveChangesKeepsTracked | ClimbEdge.Infrastructure/Persistence/ClimbEdgeContext.cs:48-52 | a save keeps every tracked uid at its entry, and an entity that was not added keeps its identity value |
| Persistence.SavedAttached | ClimbEdge.Infrastructure/Persistence/ClimbEdgeContext.cs:48-52 | an entity attached and then saved stays tracked, keeps its deletion and lock stamps (and a `BaseModel`'s slug), and gets the creation or update stamps of its state |
| Persistence.Written | ClimbEdge.Infrastructure/Persistence/ClimbEdgeContext.cs:45 | the count `SaveChanges` returns is the number of `Added` and `Modified` entries, so at most the number of entries |
| Persistence.WrittenAfterPass | ClimbEdge.Infrastructure/Persistence/ClimbEdgeContext.cs:48-51 | the timestamp pass does not change how many entries are written |
| Persistence.WrittenSameStates | ClimbEdge.Infrastructure/Persistence/ClimbEdgeContext.cs:45 | the written count depends only on the entry states |
| Persistence.ClimbEdgeContext.constructor | ClimbEdge.Infrastructure/Persistence/ClimbEdgeContext.cs:17 | a new context tracks nothing |
| Persistence.ClimbEdgeContext.Add | ClimbEdge.Infrastructure/Repositories/Repository.cs:31 | the entity is tracked as `Added`, and rows are untouched |
| Persistence.ClimbEdgeContext.Update | ClimbEdge.Infrastructure/Repositories/Repository.cs:60 | the entity is tracked as `Added` when its id is 0, else as `Modified` |
| Persistence.ClimbEdgeContext.UpdateTimestamps | ClimbEdge.Infrastructure/Persistence/ClimbEdgeContext.cs:57-94 | the two loops leave the entries as `Pass` of the old ones, and the rows and identity counter untouched |
| Persistence.ClimbEdgeContext.SaveChanges | ClimbEdge.Infrastructure/Persistence/ClimbEdgeContext.cs:42-52 | the new state is `Saved` of the old one, and the result is the number of entries written |
| Caching.Read | ClimbEdge.Infrastructure/Caching/InMemoryCacheService.cs:17-21 | `TryGetValue<T>` yields the stored value exactly when the key is present and holds a `T`, else the default (null) |
| Caching.Matching | ClimbEdge.Infrastructure/Caching/InMemoryCacheService.cs:33 | exactly the indexed keys that start with the prefix |
| Caching.MemoryCache.constructor | ClimbEdge.Infrastructure/Caching/InMemoryCacheService.cs:15 | the cache starts empty |
| Caching.MemoryCache.Expire | ClimbEdge.Infrastructure/Caching/InMemoryCacheService.cs:47 | expiry removes the one key from the store and nothing else |
| Caching.InMemoryCacheService.constructor | ClimbEdge.Infrastructure/Caching/InMemoryCacheService.cs:13-16 | the key index starts empty over the given cache |
| Caching.InMemoryCacheService.Get | ClimbEdge.Infrastructure/Caching/InMemoryCacheService.cs:17-21 | returns `Read` of the store, and changes nothing |
| Caching.InMemoryCacheService.Set | ClimbEdge.Infrastructure/Caching/InMemoryCacheService.cs:45-50 | the store maps the key to the value, and the key is indexed |
| Caching.InMemoryCacheService.Remove | ClimbEdge.Infrastructure/Caching/InMemoryCacheService.cs:23-28 | the key leaves the store and the index |
| Caching.InMemoryCacheService.RemoveByPrefix | ClimbEdge.Infrastructure/Caching/InMemoryCacheService.cs:30-43 | the loop removes exactly the indexed keys with the prefix, from the store and the index |
| Caching.RemoveByPrefixEffect | ClimbEdge.Infrastructure/Caching/InMemoryCacheService.cs:30-43 | afterwards no indexed key has the prefix and no removed key is stored; keys without the prefix and keys the index never held keep their values |
| Caching.RemoveByPrefixIdempotent | ClimbEdge.Infrastructure/Caching/InMemoryCacheService.cs:30-43 | a second removal with the same prefix changes nothing |
| Caching.SetThenGet | ClimbEdge.Infrastructure/Caching/InMemoryCacheService.cs:17-50 | a value set under a key reads back as itself through a read of its own type |
| Caching.RemoveIdempotent | ClimbEdge.Infrastructure/Caching/InMemoryCacheService.cs:23-28 | removing a key twice is removing it once, and it then reads as null |
| Paging.Page | ClimbEdge.Infrastructure/Repositories/Repository.cs:84-87 | `Skip((page - 1) * size).Take(size)` returns at most `size` elements, the consecutive ones starting at `(page - 1) * size` |
| Paging.PageCoversIndex | ClimbEdge.Infrastructure/Repositories/Repository.cs:84-87 | element `j` is on page `j / size + 1`, at position `j % size` |
| Paging.CsDiv | ClimbEdge.Infrastructure/Repositories/Repository.cs:183 | C# `/` truncates toward zero: the quotient of the magnitudes, negated when the signs differ |
| Paging.CsRem | ClimbEdge.Infrastructure/Repositories/Repository.cs:183 | C# `%`: the dividend is the divisor times the quotient plus the remainder, which takes the dividend's sign and is smaller than the divisor in magnitude |
| Paging.PagesNumber | ClimbEdge.Infrastructure/Repositories/Repository.cs:176-184 | an oversized page is refused; a zero page size divides by zero; every other size gives a count |
| Paging.PagesNumberIsCeiling | ClimbEdge.Infrastructure/Repositories/Repository.cs:183 | for an accepted page size, the page count is the least number of pages that hold all rows |
| Paging.LastPage | ClimbEdge.Infrastructure/Repositories/Repository.cs:183 | the last counted page holds rows and the next one is empty |
| Paging.PagesNumberAcceptsNegativeSize | ClimbEdge.Infrastructure/Repositories/Repository.cs:178-183 | a negative page size passes the guard and gives a count of at most 1, which is no ceiling: `count = 5, pageSize = -2` gives -1 and `count = 1, pageSize = -2` gives 1 |
| Paging.PagesNumberChecked | ClimbEdge.Infrastructure/Repositories/Repository.cs:176-184 | with the page-size guard of the paged queries, a page size is refused exactly when it is out of range, and otherwise the result is the ceiling |
| Repositories.IdsKey | ClimbEdge.Infrastructure/Repositories/Repository.cs:137 | the id-list key is `TEntity_` followed by `Ids_` and the ids joined with `_` |
| Repositories.Filter | ClimbEdge.Infrastructure/Repositories/Repository.cs:95 | `Where(criteria)` keeps exactly the elements the criterion accepts |
| Repositories.WithUids | ClimbEdge.Infrastructure/Repositories/Repository.cs:140 | keeps exactly the elements whose uid is listed |
| Repositories.CountValue | ClimbEdge.Infrastructure/Repositories/Repository.cs:38-42 | a cached `int` count is returned as it is; with none, the current count is |
| Repositories.Repository.constructor | ClimbEdge.Infrastructure/Repositories/Repository.cs:17-20 | the repository holds the given context and cache |
| Repositories.Repository.InvalidateCache | ClimbEdge.Infrastructure/Repositories/Repository.cs:21-24 | removes every indexed key starting with `TEntity_` |
| Repositories.Repository.Recache | ClimbEdge.Infrastructure/Repositories/Repository.cs:34 | stores the tracked entity under `TEntity_<uid>` |
| Repositories.Repository.UpdateAndSave | ClimbEdge.Infrastructure/Repositories/Repository.cs:60-61 | stages `Update(entity)` and saves: the context becomes `Saved` of the staged state |
| Repositories.Repository.AddAsync | ClimbEdge.Infrastructure/Repositories/Repository.cs:25-35 | null is refused with nothing changed; otherwise the entity is added and saved, the cache is invalidated, and the saved entity is cached under its uid |
| Repositories.Repository.CountAsync | ClimbEdge.Infrastructure/Repositories/Repository.cs:36-43 | a cached count is returned as it is; otherwise the row count is returned and cached |
| Repositories.Repository.CountByCriteriaAsync | ClimbEdge.Infrastructure/Repositories/Repository.cs:44-51 | as written: the count under the one key `TEntity_Count_Criteria`, whatever the criterion |
| Repositories.Repository.DeleteAsync | ClimbEdge.Infrastructure/Repositories/Repository.cs:52-64 | an unknown id fails with nothing changed; otherwise the entity is soft deleted, saved, and re-cached after invalidation |
| Repositories.Repository.ExistsAsync | ClimbEdge.Infrastructure/Repositories/Repository.cs:66-73 | a cached answer is returned as it is; otherwise the lookup's answer is returned and cached |
| Repositories.Repository.GetAllAsync | ClimbEdge.Infrastructure/Repositories/Repository.cs:75 | every visible row, uncached |
| Repositories.Repository.GetPageAsync | ClimbEdge.Infrastructure/Repositories/Repository.cs:76-90 | bad paging is refused with nothing changed; a cached page is returned as it is; otherwise the page is computed and cached |
| Repositories.Repository.GetByCriteriaAsync | ClimbEdge.Infrastructure/Repositories/Repository.cs:91-102 | a cached list is returned; otherwise no match fails with nothing cached, and matches are returned and cached under the criterion's hash |
| Repositories.Repository.GetByCriteriaPageAsync | ClimbEdge.Infrastructure/Repositories/Repository.cs:103-121 | bad paging is refused; a cached page is returned; an empty page of matches fails; otherwise the page is returned and cached |
| Repositories.Repository.GetByIdAsync | ClimbEdge.Infrastructure/Repositories/Repository.cs:122-133 | a cached entity is returned; otherwise an unknown id fails, and a found entity is returned and cached |
| Repositories.Repository.GetByIdsAsync | ClimbEdge.Infrastructure/Repositories/Repository.cs:135-148 | a cached list is returned; otherwise no listed uid fails, and the rows with listed uids are returned and cached |
| Repositories.Repository.LockAsync | ClimbEdge.Infrastructure/Repositories/Repository.cs:155-174 | an unknown id fails with nothing changed; otherwise the entity is locked or unlocked, saved and re-cached |
| Repositories.Repository.PagesNumberAsync | ClimbEdge.Infrastructure/Repositories/Repository.cs:176-184 | an oversized page is refused before the count is read; otherwise `PagesNumber` of the (possibly cached) count |
| Repositories.Repository.PagesNumberByCriteriaAsync | ClimbEdge.Infrastructure/Repositories/Repository.cs:185-193 | the same, over the criteria count |
| Repositories.Repository.RestoreAsync | ClimbEdge.Infrastructure/Repositories/Repository.cs:194-206 | an unknown id fails with nothing changed; otherwise the entity is restored, saved and re-cached |
| Repositories.Repository.SaveChangesAsync | ClimbEdge.Infrastructure/Repositories/Repository.cs:208-211 | the context becomes `Saved` of its old state |
| Repositories.Repository.UpdateAsync | ClimbEdge.Infrastructure/Repositories/Repository.cs:212-226 | null and locked entities are refused with nothing changed; otherwise the entity is updated, saved and re-cached |
| Repositories.Key | ClimbEdge.Infrastructure/Repositories/Repository.cs:23-146 | every key the repository builds is `TEntity_` followed by its own tail, so it starts with the prefix `InvalidateCache` removes |
| Repositories.EntityKeyInjective | ClimbEdge.Infrastructure/Repositories/Repository.cs:124-131 | two entity keys are equal exactly when their ids are |
| Repositories.RecachedEffect | ClimbEdge.Infrastructure/Repositories/Repository.cs:33-34 | after a write only the saved entity's key survives among the indexed `TEntity_` keys, holding the saved entity |
| Repositories.DeleteSavesDeleted | ClimbEdge.Infrastructure/Repositories/Repository.cs:52-64 | the entity a successful delete saves is deleted, not restored, with its lock state kept |
| Repositories.RestoreSavesRestored | ClimbEdge.Infrastructure/Repositories/Repository.cs:194-206 | the entity a successful restore saves is restored and not deleted |
| Repositories.LockSavesLockState | ClimbEdge.Infrastructure/Repositories/Repository.cs:155-174 | the entity a successful `LockAsync(id, isLocked)` saves has `IsLocked == isLocked`, its deletion state kept |
| Repositories.CriteriaCountIsShared | ClimbEdge.Infrastructure/Repositories/Repository.cs:44-51 | once one criterion's count is cached, a different criterion gets the same count |
| Repositories.CriteriaCountKeyFor | ClimbEdge.Infrastructure/Repositories/Repository.cs:46-49 | the per-criterion count key carries the `TEntity_` prefix |
| Repositories.CriteriaCountKeyedPerCriterion | ClimbEdge.Infrastructure/Repositories/Repository.cs:44-51 | keyed per criterion, caching one criterion's count does not change another's |
| ProfileRepositories.FindByUser | ClimbEdge.Infrastructure/Repositories/UserProfileRepository.cs:21 | finds the first profile of that user id, and none exactly when no profile has it |
| ProfileRepositories.UserProfileRepository.constructor | ClimbEdge.Infrastructure/Repositories/UserProfileRepository.cs:15 | built over the given context and cache |
| ProfileRepositories.UserProfileRepository.GetUserProfileAsync | ClimbEdge.Infrastructure/Repositories/UserProfileRepository.cs:17-24 | a cached profile is returned; otherwise the lookup's result (null on a miss) is cached, and a miss fails with `KeyNotFound` |
| ProfileRepositories.UserKeysSurviveWrites | ClimbEdge.Infrastructure/Repositories/UserProfileRepository.cs:19-22 | the per-user key lacks the `TEntity_` prefix, so a write's invalidation keeps a stale cached profile |
| ProfileRepositories.CachedNullIsMiss | ClimbEdge.Infrastructure/Repositories/UserProfileRepository.cs:20-23 | the null cached after a miss reads back as a miss |
| UserRepositories.AppUserRepository.constructor | ClimbEdge.Infrastructure/Repositories/AppUserRepository.cs:17-20 | built over the given context and cache |
| UserRepositories.AppUserRepository.AddAsync | ClimbEdge.Infrastructure/Repositories/AppUserRepository.cs:22-29 | null is refused; otherwise the user is staged as `Added` and nothing is committed |
| UserRepositories.AppUserRepository.CountAsync | ClimbEdge.Infrastructure/Repositories/AppUserRepository.cs:31 | the number of visible users |
| UserRepositories.AppUserRepository.CountByCriteriaAsync | ClimbEdge.Infrastructure/Repositories/AppUserRepository.cs:33 | the number of visible users the criterion accepts |
| UserRepositories.AppUserRepository.DeleteAsync | ClimbEdge.Infrastructure/Repositories/AppUserRepository.cs:35-44 | an unknown id fails with nothing changed; otherwise the soft delete is staged, not saved |
| UserRepositories.AppUserRepository.ExistsAsync | ClimbEdge.Infrastructure/Repositories/AppUserRepository.cs:48-52 | true exactly when a visible user has the uid |
| UserRepositories.AppUserRepository.GetAllAsync | ClimbEdge.Infrastructure/Repositories/AppUserRepository.cs:56 | every visible user |
| UserRepositories.AppUserRepository.GetPageAsync | ClimbEdge.Infrastructure/Repositories/AppUserRepository.cs:58-68 | bad paging is refused exactly; valid paging always returns the page of visible users |
| UserRepositories.AppUserRepository.GetByCriteriaAsync | ClimbEdge.Infrastructure/Repositories/AppUserRepository.cs:70-78 | fails exactly when no visible user matches; otherwise the matches |
| UserRepositories.AppUserRepository.GetByCriteriaPageAsync | ClimbEdge.Infrastructure/Repositories/AppUserRepository.cs:80-95 | bad paging is refused; an empty page of matches fails; otherwise that page |
| UserRepositories.AppUserRepository.GetByIdAsync | ClimbEdge.Infrastructure/Repositories/AppUserRepository.cs:97-105 | the first visible user with the uid, and a failure exactly when there is none |
| UserRepositories.AppUserRepository.GetByIdsAsync | ClimbEdge.Infrastructure/Repositories/AppUserRepository.cs:109-119 | the visible users with listed uids, in row order, and a failure exactly when there are none |
| UserRepositories.AppUserRepository.LockAsync | ClimbEdge.Infrastructure/Repositories/AppUserRepository.cs:128-144 | an unknown id fails; otherwise the lock change is staged, not saved |
| UserRepositories.AppUserRepository.PagesNumberAsync | ClimbEdge.Infrastructure/Repositories/AppUserRepository.cs:148-156 | `PagesNumber` of the visible-user count |
| UserRepositories.AppUserRepository.PagesNumberByCriteriaAsync | ClimbEdge.Infrastructure/Repositories/AppUserRepository.cs:158-166 | `PagesNumber` of the matching-user count |
| UserRepositories.AppUserRepository.RestoreAsync | ClimbEdge.Infrastructure/Repositories/AppUserRepository.cs:168-177 | as written: looks the user up through the filtered query, and stages the restore of a user it finds |
| UserRepositories.AppUserRepository.RestoreDeletedAsync | ClimbEdge.Infrastructure/Repositories/AppUserRepository.cs:168-177 | corrected: looks the user up with the query filter ignored, so a soft-deleted user is found and its restore staged |
| UserRepositories.AppUserRepository.SaveChangesAsync | ClimbEdge.Infrastructure/Repositories/AppUserRepository.cs:181-184 | the context becomes `Saved` of its old state |
| UserRepositories.AppUserRepository.UpdateAsync | ClimbEdge.Infrastructure/Repositories/AppUserRepository.cs:186-197 | null and locked users are refused with nothing staged; otherwise the update is staged |
| UserRepositories.AddedUserIsStaged | ClimbEdge.Infrastructure/Repositories/AppUserRepository.cs:22-29 | a user added but not saved is invisible to every query |
| UserRepositories.RestoreCannotSeeSavedDelete | ClimbEdge.Infrastructure/Repositories/AppUserRepository.cs:168-177 | once a user's delete is saved, the filtered lookup `RestoreAsync` makes no longer finds the user, while the unfiltered lookup still does |
| Specifications.NewOr | ClimbEdge.Domain/Specifications/OrSpecification.cs:14-17 | a null array is refused with `ArgumentNullException` |
| Specifications.NewNot | ClimbEdge.Domain/Specifications/NotSpecification.cs:14-17 | a null component is refused with `ArgumentNullException` |
| Specifications.FoldFromTrue | ClimbEdge.Domain/Specifications/OrSpecification.cs:19-22 | a fold seeded `true` stays `true` and evaluates no component |
| Specifications.OrAlwaysHolds | ClimbEdge.Domain/Specifications/OrSpecification.cs:19-22 | as written: every `OrSpecification` is satisfied by every entity, with or without components, and evaluates none of them |
| Specifications.NotNegates | ClimbEdge.Domain/Specifications/NotSpecification.cs:19-22 | `Not` negates its component, and a double negation agrees with it |
| Specifications.NotOrNeverHolds | ClimbEdge.Domain/Specifications/NotSpecification.cs:19-22 | negating an `OrSpecification` gives a specification no entity satisfies |
| Specifications.FoldIsDisjunction | ClimbEdge.Domain/Specifications/OrSpecification.cs:21 | the fold is its seed or'ed with the components' verdicts |
| Specifications.AnyIsDisjunction | ClimbEdge.Domain/Specifications/OrSpecification.cs:21 | corrected: seeded `false`, the fold holds exactly when some component does, and fails with no components |
| Mappers.FirstMatch | ClimbEdge.Common/Utils/Mapper.cs:31 | the first destination property with the same name and type, or none exactly when no property has both |
| Mappers.Copied | ClimbEdge.Common/Utils/Mapper.cs:29-36 | the destination keeps one value per property |
| Mappers.CopiedKeepsUntargeted | ClimbEdge.Common/Utils/Mapper.cs:29-36 | a destination property that no source property targets keeps its value |
| Mappers.CopiedTakesLastMatch | ClimbEdge.Common/Utils/Mapper.cs:29-36 | a destination property ends with the value of the last source property that targets it |
| Mappers.CopiedExactly | ClimbEdge.Common/Utils/Mapper.cs:58-65 | with unique names: a writable destination property receives the source value exactly when a source property has its name and type; every other property keeps its value |
| Mappers.Record.Fields | ClimbEdge.Common/Utils/Mapper.cs:34 | `GetValue` reads each property's current value |
| Mappers.Record.constructor | ClimbEdge.Common/Utils/Mapper.cs:26 | `new TDestination()` holds each property's default |
| Mappers.Map | ClimbEdge.Common/Utils/Mapper.cs:19-38 | a null source is refused; otherwise the loop builds the destination as `Copied` of the source over the defaults |
| Mappers.MapUpdate | ClimbEdge.Common/Utils/Mapper.cs:50-66 | a null argument is refused with nothing changed; otherwise the loop leaves the destination as `Copied` of the source over its old values |
| BearerTokens.Header | ClimbEdge.Infrastructure/DependencyInjection/ServiceCollectionExtensions.cs:150 | `TryGetValue` on headers succeeds exactly when a header has the name, ignoring case |
| BearerTokens.HeaderNameIgnoresCase | ClimbEdge.Infrastructure/DependencyInjection/ServiceCollectionExtensions.cs:150 | asking under a lower- or upper-cased name gives the same header |
| BearerTokens.ExtractToken | ClimbEdge.Infrastructure/DependencyInjection/ServiceCollectionExtensions.cs:141-163 | the cookie wins; no token exactly when there is no cookie, no `Authorization` header starting with `Bearer `, and no `access_token` header; a header token is trimmed |
| BearerTokens.CookieTakesPriority | ClimbEdge.Infrastructure/DependencyInjection/ServiceCollectionExtensions.cs:144-148 | with the cookie, no header changes the token |
| BearerTokens.AuthorizationRoundTrip | ClimbEdge.Infrastructure/DependencyInjection/ServiceCollectionExtensions.cs:150-155 | a token sent as `Authorization: Bearer <token>` is the one extracted |
| BearerTokens.CustomHeaderRoundTrip | ClimbEdge.Infrastructure/DependencyInjection/ServiceCollectionExtensions.cs:157-161 | a token sent in the `access_token` header, bare or as `Bearer <token>`, is extracted unchanged |
| BearerTokens.AuthorizationBeatsCustomHeader | ClimbEdge.Infrastructure/DependencyInjection/ServiceCollectionExtensions.cs:150-161 | `Authorization: Bearer <token>` wins over an `access_token` header sent beside it |
| BearerTokens.LowercaseSchemeIgnored | ClimbEdge.Infrastructure/DependencyInjection/ServiceCollectionExtensions.cs:151-161 | as written: `Authorization: bearer abc` beside `access_token: xyz` gives `xyz` |
| BearerTokens.LowercaseSchemeAccepted | ClimbEdge.Infrastructure/DependencyInjection/ServiceCollectionExtensions.cs:150-155 | corrected: with the scheme matched ignoring case, the same request gives `abc` |
| BearerTokens.ExtractTokenAnyCase | ClimbEdge.Infrastructure/DependencyInjection/ServiceCollectionExtensions.cs:150-155 | corrected: the same chain, with the scheme matched ignoring case |
| BearerTokens.AnyCaseExtendsExactCase | ClimbEdge.Infrastructure/DependencyInjection/ServiceCollectionExtensions.cs:150-155 | the corrected chain finds a token whenever the original does, and agrees with it unless the scheme differs only in case |

## Left out

- Overloads taking string ids are left out. They only call `Guid.Parse`, whose format errors are not modelled.
- `async`, `Task` and concurrency are not modelled. Each operation is one atomic step, and the `ConcurrentDictionary` key index is a set.
- `RowVersion` and optimistic concurrency are not modelled, nor EF's error for an update whose row is gone.
- The repositories run over `InMemoryCacheService`, which is registered only in development. Otherwise `CacheService`, which stores JSON in a distributed Redis cache, is registered instead; it is not modelled.
- Cache entries are not timed: the 1800-second lifetime is the explicit step `Caching.MemoryCache.Expire`.
- Null context or cache arguments to the repository constructors are not modelled. Neither is the wrong parameter name in one `ArgumentNullException`.
- EF's exception when a second instance with the same key is attached is not modelled. `Persistence.Track` replaces the tracked entry instead.
- Tracking queries are not modelled as adding `Unchanged` entries. A query resolves rows against entries that already exist.
- Identity is by `Uid`; `Id` values are assigned at commit from a counter.
- Hard deletes are not modelled: no operation of the core issues one.
- Each operation reads the clock once (`now`), so two stamps taken within one operation are equal.
- `Paging.Page`: `(page - 1) * pageSize` is unbounded here. The source's 32-bit product could overflow for a huge page number.
- String comparison is ordinal and case mapping is ASCII only. The culture-sensitive `StartsWith` overloads and Unicode case tables are not modelled.
- Cached objects are values. A reference stored in the cache and then changed in place is not modelled as changing the cached copy.
- `ClimbData`, `Metadata`, the `DaysSince*` and `IsRecently*` properties and `ToString()` are left out. They are derived from the clock and not used by the core's operations.
- `Lifecycle.InitializeSlug`: the context calls `InitializeSlug()` on every entry, but `BaseModel` does not declare it. It is modelled as a hook that does nothing on `BaseModel` types and is `AppUser.InitializeSlug` on users.
- `Repositories.Repository.LockAsync`, `RestoreAsync` and `UpdateAsync` invalidate the cache before staging the update, while the source stages first. The two steps touch disjoint state, so the outcome is the same.
- `Specifications.Spec`: components inside the `params` array are never null. A null element would only fail once evaluated, and the `Or` fold as written never evaluates one.
- `Mappers.Map`: every property is assumed readable. The case where `GetValue` throws on a property without a getter is not modelled.
- `Mappers.Map`: types are compared by name, not through the CLR type system.
- `BearerTokens.ExtractToken`: cookie names are matched exactly and header names ignoring case. Cookie-collection case rules of particular hosts are not modelled.
- The JWT bearer handler's own parse of `Authorization`, used when `OnMessageReceived` leaves the token empty, is not modelled. It is framework code outside the repository, and it matches `Bearer ` ignoring case, so with no custom header a lower-case scheme still authenticates.
- `Persistence.CommitWrites` and `Persistence.SavedWrites` require the tracked entries to be of distinct entities, which EF's identity map keeps; `Persistence.Track` and `Persistence.Saved` preserve it.
- The rest of `ServiceCollectionExtensions` is left out: service registration, the other JWT events, and configuration binding are wiring with no logic to prove.

## Findings

| source | as written | input that shows it | evidently intended | confidence | as-written member | corrected member |
|---|---|---|---|---|---|---|
| ClimbEdge.Domain/Specifications/OrSpecification.cs:21 | the fold of `current \|\| spec.IsSatisfiedBy(entity)` starts from `true`, so it is always `true` and never evaluates a component | any entity, and an `OrSpecification` whose only component accepts nothing | true exactly when some component holds (seed `false`) | high, not executed | Specifications.OrAlwaysHolds | Specifications.AnyIsDisjunction |
| ClimbEdge.Infrastructure/Repositories/Repository.cs:178-183 | only `pageSize > MaxPageSize` is rejected, though the message says the size must be greater than 0 | `count = 5, pageSize = -2` gives `-1` pages and `count = 1, pageSize = -2` gives 1; `pageSize = 0` divides by zero | sizes below 1 rejected as in the paged queries | high, not executed | Paging.PagesNumberAcceptsNegativeSize | Paging.PagesNumberChecked |
| ClimbEdge.Infrastructure/Repositories/Repository.cs:44-51 | `CountAsync(criteria)` caches every criterion's count under the one key `TEntity_Count_Criteria` | count with a criterion accepting everything, then with one accepting nothing: both return the first count | one key per criterion, as `GetAsync(criteria)` does | high, not executed | Repositories.CriteriaCountIsShared | Repositories.CriteriaCountKeyedPerCriterion |
| ClimbEdge.Infrastructure/Repositories/AppUserRepository.cs:168-177 | `RestoreAsync` looks the user up through the query filter that hides soft-deleted users | delete a user, save, then restore it: `EntityNotFoundException` | the lookup ignores the query filter, so deleted users can be restored | medium, not executed | UserRepositories.RestoreCannotSeeSavedDelete | UserRepositories.AppUserRepository.RestoreDeletedAsync |
| ClimbEdge.Infrastructure/DependencyInjection/ServiceCollectionExtensions.cs:151 | `StartsWith("Bearer ")` is case-sensitive, while section 2.1 of RFC 7235 makes the scheme case-insensitive | `Authorization: bearer abc` beside `access_token: xyz` gives `xyz`, where `Bearer abc` gives `abc` | the scheme matched ignoring case | low, not executed | BearerTokens.LowercaseSchemeIgnored | BearerTokens.ExtractTokenAnyCase |
