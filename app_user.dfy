/**
 * `AppUser`, the Identity user. It does not derive from `BaseModel` but implements the same
 * `IBaseEntity` contract itself: the same field changes as the base transitions, each followed
 * by one event, and `InitializeSlug`, which the context calls when the user is first saved.
 */
module AppUsers {
  import opened Wrappers
  import opened Text
  import opened DomainEvents
  import opened Entities
  import BaseModel

  const TypeName := "AppUser"

  /** `new AppUser()` with `Guid.NewGuid()` = `uid` and `DateTime.UtcNow` = `now`: the slug field starts empty. */
  function NewUser(uid: Guid, now: Time, userName: Option<string>): (r: Entity)
    ensures !r.IsBaseModel() && r.TypeName() == TypeName
    ensures r.uid == uid && r.id == 0 && r.slug == "" && r.events == []
    ensures r.createdAt == now && r.updatedAt == None && r.deletedAt == None
            && r.restoredAt == None && r.lockedAt == None
    ensures r.details.userName == userName
  {
    Entity(0, uid, "", now, None, None, None, None, [], UserDetails(userName))
  }

  function Event(e: Entity, eventType: EventType, state: seq<(string, bool)>): DomainEvent
  {
    DomainEvent(e.slug, TypeName, eventType, state)
  }

  /** `MarkAsDeleted()`: the same change as the base transition, then one `Deleted` event. */
  function AfterMarkAsDeleted(e: Entity, now: Time): (r: Entity)
    ensures r.IsDeleted() && !r.IsRestored()
    ensures r.events == e.events + [Event(e, Deleted, [("Deleted", true)])]
    ensures r.(events := e.events) == BaseModel.MarkedDeleted(e, now)
  {
    var b := BaseModel.MarkedDeleted(e, now);
    BaseModel.AddDomainEvent(b, Event(b, Deleted, [("Deleted", true)]))
  }

  /** `MarkAsRestored()`: the same change as the base transition, then one `Restored` event. */
  function AfterMarkAsRestored(e: Entity, now: Time): (r: Entity)
    ensures !r.IsDeleted() && r.IsRestored()
    ensures r.events == e.events + [Event(e, Restored, [("Restored", true)])]
    ensures r.(events := e.events) == BaseModel.MarkedRestored(e, now)
  {
    var b := BaseModel.MarkedRestored(e, now);
    BaseModel.AddDomainEvent(b, Event(b, Restored, [("Restored", true)]))
  }

  /** `Lock()`: stamps `LockedAt`, then one `Locked` event with `Locked = true`. */
  function AfterLock(e: Entity, now: Time): (r: Entity)
    ensures r.IsLocked()
    ensures r.events == e.events + [Event(e, Locked, [("Locked", true)])]
    ensures r.(events := e.events) == BaseModel.Locked(e, now)
  {
    var b := BaseModel.Locked(e, now);
    BaseModel.AddDomainEvent(b, Event(b, Locked, [("Locked", true)]))
  }

  /** `Unlock()`: clears `LockedAt`, then one event of type `Locked` with `Locked = false`. */
  function AfterUnlock(e: Entity): (r: Entity)
    ensures !r.IsLocked()
    ensures r.events == e.events + [Event(e, Locked, [("Locked", false)])]
    ensures r.(events := e.events) == BaseModel.Unlocked(e)
  {
    var b := BaseModel.Unlocked(e);
    BaseModel.AddDomainEvent(b, Event(b, Locked, [("Locked", false)]))
  }

  /** `UpdateTimestamps()`: the same change as the base transition, then one `Updated` event. */
  function AfterUpdateTimestamps(e: Entity, now: Time): (r: Entity)
    ensures r.updatedAt == Some(now)
    ensures r.events == e.events + [Event(e, Updated, [])]
    ensures r.(events := e.events) == BaseModel.Touched(e, now)
  {
    var b := BaseModel.Touched(e, now);
    BaseModel.AddDomainEvent(b, Event(b, Updated, []))
  }

  /** The text `InitializeSlug` hands to the setter: `$"{UserName}/{CreatedAt.Ticks}"`. */
  function SlugSource(e: Entity): string
    requires !e.IsBaseModel()
  {
    OrEmpty(e.details.userName) + "/" + NatToString(e.createdAt)
  }

  /** Normalising `<user name>/<ticks>` changes only the user name. */
  lemma UserSlug(name: string, ticks: string)
    requires forall i :: 0 <= i < |ticks| ==> IsDigit(ticks[i])
    ensures BaseModel.SlugFor(TypeName, Some(name + "/" + ticks))
            == TypeName + "/" + BaseModel.Normalize(name) + "/" + ticks
  {
    BaseModel.NormalizeAppend(name + "/", ticks);
    BaseModel.NormalizeAppend(name, "/");
    assert BaseModel.Normalize("/") == "/";
    assert BaseModel.Normalize(ticks) == ticks;
  }

  /** `InitializeSlug()`: the slug becomes `AppUser/<user name, normalised>/<ticks>`, then one `Created` event. */
  function AfterInitializeSlug(e: Entity): (r: Entity)
    requires !e.IsBaseModel()
    ensures r.slug == TypeName + "/" + BaseModel.Normalize(OrEmpty(e.details.userName)) + "/" + NatToString(e.createdAt)
    ensures r.events == e.events + [DomainEvent(r.slug, TypeName, Created, [])]
    ensures r.(slug := e.slug, events := e.events) == e
  {
    UserSlug(OrEmpty(e.details.userName), NatToString(e.createdAt));
    var slugged := BaseModel.WithSlug(e, Some(SlugSource(e)));
    BaseModel.AddDomainEvent(slugged, DomainEvent(slugged.slug, TypeName, Created, []))
  }

  /**
   * The slug `InitializeSlug` sets depends only on the user name and the creation time, so a
   * second call yields the same slug, yet it raises a second `Created` event.
   */
  lemma InitializeSlugTwice(e: Entity)
    requires !e.IsBaseModel()
    ensures AfterInitializeSlug(AfterInitializeSlug(e)).slug == AfterInitializeSlug(e).slug
    ensures |AfterInitializeSlug(AfterInitializeSlug(e)).events| == |e.events| + 2
  {
  }

  /** Users with the same creation time and user names that differ other than in letter case get distinct slugs. */
  lemma InitializeSlugSeparatesUsers(a: Entity, b: Entity)
    requires !a.IsBaseModel() && !b.IsBaseModel() && a.createdAt == b.createdAt
    requires BaseModel.Normalize(OrEmpty(a.details.userName)) != BaseModel.Normalize(OrEmpty(b.details.userName))
    ensures AfterInitializeSlug(a).slug != AfterInitializeSlug(b).slug
  {
    var na := BaseModel.Normalize(OrEmpty(a.details.userName));
    var nb := BaseModel.Normalize(OrEmpty(b.details.userName));
    var ticks := NatToString(a.createdAt);
    if AfterInitializeSlug(a).slug == AfterInitializeSlug(b).slug {
      FramedEqual3(TypeName + "/", na, nb, "/", ticks);
    }
  }

  /** An `AppUser` object, with the fields its lifecycle reads and writes. */
  class AppUser {
    var id: int
    var uid: Guid
    var slug: string
    var createdAt: Time
    var updatedAt: Option<Time>
    var deletedAt: Option<Time>
    var restoredAt: Option<Time>
    var lockedAt: Option<Time>
    var domainEvents: seq<DomainEvent>
    var userName: Option<string>

    function Value(): Entity
      reads this
    {
      Entity(id, uid, slug, createdAt, updatedAt, deletedAt, restoredAt, lockedAt, domainEvents, UserDetails(userName))
    }

    /** `new AppUser { UserName = name }` with the generated `Uid` and the clock as parameters. */
    constructor (newUid: Guid, now: Time, name: Option<string>)
      ensures Value() == NewUser(newUid, now, name)
    {
      id, uid, slug, createdAt := 0, newUid, "", now;
      updatedAt, deletedAt, restoredAt, lockedAt := None, None, None, None;
      domainEvents, userName := [], name;
    }

    /** The `Slug` setter. */
    method SetSlug(value: Option<string>)
      modifies this
      ensures Value() == BaseModel.WithSlug(old(Value()), value)
    {
      slug := BaseModel.SlugFor(TypeName, value);
    }

    method MarkAsDeleted(now: Time)
      modifies this
      ensures Value() == AfterMarkAsDeleted(old(Value()), now)
    {
      deletedAt := Some(now);
      restoredAt := None;
      domainEvents := domainEvents + [DomainEvent(slug, TypeName, Deleted, [("Deleted", true)])];
    }

    method MarkAsRestored(now: Time)
      modifies this
      ensures Value() == AfterMarkAsRestored(old(Value()), now)
    {
      restoredAt := Some(now);
      deletedAt := None;
      domainEvents := domainEvents + [DomainEvent(slug, TypeName, Restored, [("Restored", true)])];
    }

    method Lock(now: Time)
      modifies this
      ensures Value() == AfterLock(old(Value()), now)
    {
      lockedAt := Some(now);
      domainEvents := domainEvents + [DomainEvent(slug, TypeName, Locked, [("Locked", true)])];
    }

    method Unlock()
      modifies this
      ensures Value() == AfterUnlock(old(Value()))
    {
      lockedAt := None;
      domainEvents := domainEvents + [DomainEvent(slug, TypeName, Locked, [("Locked", false)])];
    }

    method UpdateTimestamps(now: Time)
      modifies this
      ensures Value() == AfterUpdateTimestamps(old(Value()), now)
    {
      updatedAt := Some(now);
      if deletedAt.Some? {
        restoredAt := None;
      }
      domainEvents := domainEvents + [DomainEvent(slug, TypeName, Updated, [])];
    }

    method InitializeSlug()
      modifies this
      ensures Value() == AfterInitializeSlug(old(Value()))
    {
      slug := BaseModel.SlugFor(TypeName, Some(OrEmpty(userName) + "/" + NatToString(createdAt)));
      domainEvents := domainEvents + [DomainEvent(slug, TypeName, Created, [])];
    }

    method ClearDomainEvents()
      modifies this
      ensures Value() == BaseModel.ClearDomainEvents(old(Value()))
    {
      domainEvents := [];
    }
  }
}
