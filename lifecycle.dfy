/**
 * The `IBaseEntity` operations the repositories and the context call without knowing the
 * concrete type: each dispatches to the override of `UserProfile` or to `AppUser`'s own method.
 * `InitializeSlug` exists only on `AppUser`; for a `UserProfile` the hook does nothing.
 */
module Lifecycle {
  import opened Wrappers
  import opened DomainEvents
  import opened Entities
  import BaseModel
  import UserProfiles
  import AppUsers

  /** What every transition keeps: the concrete type, the identity and the earlier events. */
  predicate Keeps(e: Entity, r: Entity)
  {
    r.Kind() == e.Kind() && r.id == e.id && r.uid == e.uid && r.createdAt == e.createdAt
    && |r.events| == |e.events| + 1 && r.events[..|e.events|] == e.events
  }

  function MarkAsDeleted(e: Entity, now: Time): (r: Entity)
    ensures r.IsDeleted() && !r.IsRestored() && r.lockedAt == e.lockedAt && r.slug == e.slug
    ensures Keeps(e, r) && r.events[|e.events|].eventType == Deleted
  {
    if e.IsBaseModel() then UserProfiles.AfterMarkAsDeleted(e, now) else AppUsers.AfterMarkAsDeleted(e, now)
  }

  function MarkAsRestored(e: Entity, now: Time): (r: Entity)
    ensures !r.IsDeleted() && r.IsRestored() && r.lockedAt == e.lockedAt && r.slug == e.slug
    ensures Keeps(e, r) && r.events[|e.events|].eventType == Restored
  {
    if e.IsBaseModel() then UserProfiles.AfterMarkAsRestored(e, now) else AppUsers.AfterMarkAsRestored(e, now)
  }

  function Lock(e: Entity, now: Time): (r: Entity)
    ensures r.IsLocked() && r.deletedAt == e.deletedAt && r.restoredAt == e.restoredAt && r.slug == e.slug
    ensures Keeps(e, r) && r.events[|e.events|] == DomainEvent(e.slug, e.TypeName(), Locked, [("Locked", true)])
  {
    if e.IsBaseModel() then UserProfiles.AfterLock(e, now) else AppUsers.AfterLock(e, now)
  }

  function Unlock(e: Entity): (r: Entity)
    ensures !r.IsLocked() && r.deletedAt == e.deletedAt && r.restoredAt == e.restoredAt && r.slug == e.slug
    ensures Keeps(e, r) && r.events[|e.events|] == DomainEvent(e.slug, e.TypeName(), Locked, [("Locked", false)])
  {
    if e.IsBaseModel() then UserProfiles.AfterUnlock(e) else AppUsers.AfterUnlock(e)
  }

  function UpdateTimestamps(e: Entity, now: Time): (r: Entity)
    ensures r.updatedAt == Some(now) && r.deletedAt == e.deletedAt && r.lockedAt == e.lockedAt && r.slug == e.slug
    ensures r.restoredAt == if e.IsDeleted() then None else e.restoredAt
    ensures Keeps(e, r) && r.events[|e.events|].eventType == Updated
  {
    if e.IsBaseModel() then UserProfiles.AfterUpdateTimestamps(e, now) else AppUsers.AfterUpdateTimestamps(e, now)
  }

  /** The per-type slug hook the context runs on added entries. */
  function InitializeSlug(e: Entity): (r: Entity)
    ensures r.Kind() == e.Kind() && r.id == e.id && r.uid == e.uid && r.createdAt == e.createdAt
    ensures r.updatedAt == e.updatedAt && r.deletedAt == e.deletedAt && r.lockedAt == e.lockedAt
    ensures r.restoredAt == e.restoredAt
    ensures e.IsBaseModel() ==> r == e
    ensures !e.IsBaseModel() ==> Keeps(e, r) && r.events[|e.events|].eventType == Created
  {
    if e.IsBaseModel() then e else AppUsers.AfterInitializeSlug(e)
  }

  /** `Lock()` and `Unlock()` are inverse on the lock state, whatever the concrete type. */
  lemma LockUnlockRoundTrip(e: Entity, now: Time)
    ensures Unlock(Lock(e, now)).lockedAt == None
    ensures Unlock(Lock(e, now)).(events := e.events) == e.(lockedAt := None)
    ensures |Unlock(Lock(e, now)).events| == |e.events| + 2
  {
    var l := Lock(e, now);
    var u := Unlock(l);
    if e.IsBaseModel() {
      assert l.(events := e.events) == BaseModel.Locked(e, now);
      assert u.(events := l.events) == BaseModel.Unlocked(l);
    } else {
      assert l.(events := e.events) == BaseModel.Locked(e, now);
      assert u.(events := l.events) == BaseModel.Unlocked(l);
    }
  }
}
