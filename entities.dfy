/**
 * The value of one entity object: the `IBaseEntity` fields shared by `BaseModel` and `AppUser`,
 * its pending domain events, and the fields of its concrete type.
 */
module Entities {
  import opened Wrappers
  import opened DomainEvents

  /** `DateTime` as a tick count; the clock (`DateTime.UtcNow`) is always a parameter. */
  type Time = nat

  /** A `Guid`, represented by its `ToString()` text. */
  type Guid = string

  /** A calendar date as the two parts `Age` reads from it. */
  datatype Date = Date(year: int, dayOfYear: int)

  datatype Kind = UserProfileKind | AppUserKind

  /** The fields that only one concrete type declares. `UserProfile` is the only `BaseModel` subclass. */
  datatype Details =
    | ProfileDetails(userId: int, firstName: Option<string>, lastName: Option<string>, dateOfBirth: Option<Date>,
                     country: string, timeZone: string, preferredLanguage: string,
                     isPublic: bool, emailNotifications: bool, pushNotifications: bool)
    | UserDetails(userName: Option<string>)

  datatype Entity = Entity(
    id: int,
    uid: Guid,
    slug: string,
    createdAt: Time,
    updatedAt: Option<Time>,
    deletedAt: Option<Time>,
    restoredAt: Option<Time>,
    lockedAt: Option<Time>,
    events: seq<DomainEvent>,
    details: Details)
  {
    function Kind(): Kind
    {
      if details.ProfileDetails? then UserProfileKind else AppUserKind
    }

    /** `GetType().Name`. */
    function TypeName(): string
    {
      if details.ProfileDetails? then "UserProfile" else "AppUser"
    }

    /** The runtime type derives from `BaseModel`. */
    predicate IsBaseModel()
    {
      details.ProfileDetails?
    }

    predicate IsDeleted()
    {
      deletedAt.Some?
    }

    predicate IsRestored()
    {
      restoredAt.Some?
    }

    predicate IsLocked()
    {
      lockedAt.Some?
    }
  }
}
