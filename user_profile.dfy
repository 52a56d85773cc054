/**
 * `UserProfile`, the one `BaseModel` subclass: its defaults, its computed properties, a constructor
 * that fixes the slug and raises `Created`, and overrides that run the base transition and then
 * raise one event. The pure functions give each transition's effect on the entity's value; the
 * class `UserProfile` performs them in place on its fields.
 */
module UserProfiles {
  import opened Wrappers
  import opened Text
  import opened DomainEvents
  import opened Entities
  import BaseModel

  const DefaultCountry := "EC"
  const DefaultTimeZone := "UTC-5"
  const DefaultLanguage := "es-LA"
  const TypeName := "UserProfile"

  /** `name?.FirstOrDefault()` as string interpolation prints it: nothing for null, '\0' for "". */
  function FirstLetter(name: Option<string>): (r: string)
    ensures |r| <= 1
    ensures name.None? <==> r == []
    ensures name.Some? && name.value != [] ==> r == [name.value[0]]
  {
    match name
    case None => ""
    case Some(s) => if s == [] then ['\0'] else [s[0]]
  }

  /** `Initials`: the first letters of the first and last name, upper-cased; '\0' for an empty name. */
  function Initials(firstName: Option<string>, lastName: Option<string>): (r: string)
    ensures |r| == (if firstName.Some? then 1 else 0) + (if lastName.Some? then 1 else 0)
    ensures firstName.Some? ==> r[0] == UpperChar(if firstName.value == [] then '\0' else firstName.value[0])
    ensures lastName.Some? ==> r[|r| - 1] == UpperChar(if lastName.value == [] then '\0' else lastName.value[0])
  {
    Upper(FirstLetter(firstName) + FirstLetter(lastName))
  }

  /** `s` neither starts nor ends with white space. */
  predicate Trimmed(s: string)
  {
    s != [] && !IsWhiteSpace(s[0]) && !IsWhiteSpace(s[|s| - 1])
  }

  /**
   * `FullName`: `"{FirstName} {LastName}".Trim()`. A null or blank name drops out with its
   * separator; two names keep the white space between them, so `" Ana "` and `"Li"` give `"Ana  Li"`.
   */
  function FullName(firstName: Option<string>, lastName: Option<string>): (r: string)
    ensures r == [] || (!IsWhiteSpace(r[0]) && !IsWhiteSpace(r[|r| - 1]))
    ensures IsBlank(OrEmpty(firstName)) && IsBlank(OrEmpty(lastName)) ==> r == ""
    ensures !IsBlank(OrEmpty(firstName)) && IsBlank(OrEmpty(lastName)) ==> r == Trim(firstName.value)
    ensures IsBlank(OrEmpty(firstName)) && !IsBlank(OrEmpty(lastName)) ==> r == Trim(lastName.value)
    ensures !IsBlank(OrEmpty(firstName)) && !IsBlank(OrEmpty(lastName))
            ==> r == TrimStart(firstName.value) + " " + TrimEnd(lastName.value)
    ensures firstName.Some? && lastName.Some? && Trimmed(firstName.value) && Trimmed(lastName.value)
            ==> r == firstName.value + " " + lastName.value
  {
    var first, last := OrEmpty(firstName), OrEmpty(lastName);
    TrimJoined(first, last);
    TrimmedKept(first);
    TrimmedKept(last);
    Trim(first + " " + last)
  }

  lemma TrimmedKept(s: string)
    ensures Trimmed(s) ==> !IsBlank(s) && TrimStart(s) == s && TrimEnd(s) == s
  {
    if Trimmed(s) {
      TrimOfTrimmed(s);
    }
  }

  /** `Age` on the date `today` (`DateTime.Today`): null without a birth date, else the completed years. */
  function Age(dateOfBirth: Option<Date>, today: Date): (r: Option<int>)
    ensures r.None? <==> dateOfBirth.None?
    ensures r.Some? ==> var years := today.year - dateOfBirth.value.year;
                        r.value == years || r.value == years - 1
    ensures r.Some? ==> (r.value == today.year - dateOfBirth.value.year
                         <==> today.dayOfYear >= dateOfBirth.value.dayOfYear)
  {
    match dateOfBirth
    case None => None
    case Some(dob) =>
      var age := today.year - dob.year;
      Some(if today.dayOfYear < dob.dayOfYear then age - 1 else age)
  }

  lemma DigitsAreNormal(s: string)
    requires forall i :: 0 <= i < |s| ==> IsDigit(s[i])
    ensures BaseModel.Normalize(s) == s
  {
  }

  /** The slug of a new profile: the country lower-cased, no initials, the ticks. */
  lemma CountrySlug(ticks: string)
    requires forall i :: 0 <= i < |ticks| ==> IsDigit(ticks[i])
    ensures BaseModel.SlugFor(TypeName, Some(DefaultCountry + "/" + Initials(None, None) + "/" + ticks))
            == "UserProfile/ec//" + ticks
  {
    var value := DefaultCountry + "/" + Initials(None, None) + "/" + ticks;
    assert value == "EC//" + ticks;
    BaseModel.NormalizeAppend("EC//", ticks);
    DigitsAreNormal(ticks);
    CountryNormal();
  }

  lemma CountryNormal()
    ensures BaseModel.Normalize("EC//") == "ec//"
  {
    var n := BaseModel.Normalize("EC//");
    assert n[0] == 'e' && n[1] == 'c' && n[2] == '/' && n[3] == '/';
  }

  /**
   * `new UserProfile()` with `Guid.NewGuid()` = `uid` and `DateTime.UtcNow` = `now`. Field
   * initialisers run before the constructor body and object initialisers after it, so the body
   * always sees Country "EC" and null names: the slug never carries the caller's names.
   */
  function NewProfile(uid: Guid, now: Time): (r: Entity)
    ensures r.IsBaseModel() && r.uid == uid && r.id == 0
    ensures r.slug == "UserProfile/ec//" + NatToString(now)
    ensures r.events == [DomainEvent(r.slug, TypeName, Created, [])]
    ensures r.createdAt == now && r.updatedAt == None && r.deletedAt == None
            && r.restoredAt == None && r.lockedAt == None
    ensures r.details.country == "EC" && r.details.timeZone == "UTC-5" && r.details.preferredLanguage == "es-LA"
    ensures r.details.isPublic && r.details.emailNotifications && r.details.pushNotifications
  {
    var blank := Entity(0, uid, "", now, None, None, None, None, [],
                        ProfileDetails(0, None, None, None, DefaultCountry, DefaultTimeZone, DefaultLanguage,
                                       true, true, true));
    var ticks := NatToString(now);
    var slugged := BaseModel.WithSlug(blank, Some(DefaultCountry + "/" + Initials(None, None) + "/" + ticks));
    CountrySlug(ticks);
    BaseModel.AddDomainEvent(slugged, DomainEvent(slugged.slug, TypeName, Created, []))
  }

  /** The event a `UserProfile` override raises, carrying the slug it has at that moment. */
  function Event(e: Entity, eventType: EventType, state: seq<(string, bool)>): DomainEvent
  {
    DomainEvent(e.slug, TypeName, eventType, state)
  }

  /** `MarkAsDeleted()` override: the base transition, then one `Deleted` event. */
  function AfterMarkAsDeleted(e: Entity, now: Time): (r: Entity)
    ensures r.IsDeleted() && !r.IsRestored()
    ensures r.events == e.events + [Event(e, Deleted, [("deleted", true)])]
    ensures r.(events := e.events) == BaseModel.MarkedDeleted(e, now)
  {
    var b := BaseModel.MarkedDeleted(e, now);
    BaseModel.AddDomainEvent(b, Event(b, Deleted, [("deleted", true)]))
  }

  /** `MarkAsRestored()` override: the base transition, then one `Restored` event. */
  function AfterMarkAsRestored(e: Entity, now: Time): (r: Entity)
    ensures !r.IsDeleted() && r.IsRestored()
    ensures r.events == e.events + [Event(e, Restored, [("Restored", true)])]
    ensures r.(events := e.events) == BaseModel.MarkedRestored(e, now)
  {
    var b := BaseModel.MarkedRestored(e, now);
    BaseModel.AddDomainEvent(b, Event(b, Restored, [("Restored", true)]))
  }

  /** `Lock()` override: the base transition, then one `Locked` event with `Locked = true`. */
  function AfterLock(e: Entity, now: Time): (r: Entity)
    ensures r.IsLocked()
    ensures r.events == e.events + [Event(e, Locked, [("Locked", true)])]
    ensures r.(events := e.events) == BaseModel.Locked(e, now)
  {
    var b := BaseModel.Locked(e, now);
    BaseModel.AddDomainEvent(b, Event(b, Locked, [("Locked", true)]))
  }

  /** `Unlock()` override: the base transition, then one event of type `Locked` with `Locked = false`. */
  function AfterUnlock(e: Entity): (r: Entity)
    ensures !r.IsLocked()
    ensures r.events == e.events + [Event(e, Locked, [("Locked", false)])]
    ensures r.(events := e.events) == BaseModel.Unlocked(e)
  {
    var b := BaseModel.Unlocked(e);
    BaseModel.AddDomainEvent(b, Event(b, Locked, [("Locked", false)]))
  }

  /** `UpdateTimestamps()` override: the base transition, then one `Updated` event. */
  function AfterUpdateTimestamps(e: Entity, now: Time): (r: Entity)
    ensures r.updatedAt == Some(now)
    ensures r.events == e.events + [Event(e, Updated, [])]
    ensures r.(events := e.events) == BaseModel.Touched(e, now)
  {
    var b := BaseModel.Touched(e, now);
    BaseModel.AddDomainEvent(b, Event(b, Updated, []))
  }

  /** A `UserProfile` object. Its fields are the ones the source declares, `AppUserId` read as `UserId`. */
  class UserProfile {
    var id: int
    var uid: Guid
    var slug: string
    var createdAt: Time
    var updatedAt: Option<Time>
    var deletedAt: Option<Time>
    var restoredAt: Option<Time>
    var lockedAt: Option<Time>
    var domainEvents: seq<DomainEvent>
    var userId: int
    var firstName: Option<string>
    var lastName: Option<string>
    var dateOfBirth: Option<Date>
    var country: string
    var timeZone: string
    var preferredLanguage: string
    var isPublic: bool
    var emailNotifications: bool
    var pushNotifications: bool

    /** The object's current value. */
    function Value(): Entity
      reads this
    {
      Entity(id, uid, slug, createdAt, updatedAt, deletedAt, restoredAt, lockedAt, domainEvents,
             ProfileDetails(userId, firstName, lastName, dateOfBirth, country, timeZone, preferredLanguage,
                            isPublic, emailNotifications, pushNotifications))
    }

    /** `new UserProfile()` with the generated `Uid` and the clock as parameters. */
    constructor (newUid: Guid, now: Time)
      ensures Value() == NewProfile(newUid, now)
    {
      id, uid, createdAt := 0, newUid, now;
      updatedAt, deletedAt, restoredAt, lockedAt := None, None, None, None;
      userId, firstName, lastName, dateOfBirth := 0, None, None, None;
      country, timeZone, preferredLanguage := DefaultCountry, DefaultTimeZone, DefaultLanguage;
      isPublic, emailNotifications, pushNotifications := true, true, true;
      domainEvents := [];
      new;
      slug := BaseModel.SlugFor(TypeName, Some(country + "/" + Initials(firstName, lastName) + "/" + NatToString(createdAt)));
      domainEvents := domainEvents + [DomainEvent(slug, TypeName, Created, [])];
    }

    /** The `Slug` setter. */
    method SetSlug(value: Option<string>)
      modifies this
      ensures Value() == BaseModel.WithSlug(old(Value()), value)
    {
      slug := BaseModel.SlugFor(TypeName, value);
    }

    method MarkAsDeleted(now: Time)
      modifies this
      ensures Value() == AfterMarkAsDeleted(old(Value()), now)
    {
      deletedAt := Some(now);
      restoredAt := None;
      domainEvents := domainEvents + [DomainEvent(slug, TypeName, Deleted, [("deleted", true)])];
    }

    method MarkAsRestored(now: Time)
      modifies this
      ensures Value() == AfterMarkAsRestored(old(Value()), now)
    {
      restoredAt := Some(now);
      deletedAt := None;
      domainEvents := domainEvents + [DomainEvent(slug, TypeName, Restored, [("Restored", true)])];
    }

    method Lock(now: Time)
      modifies this
      ensures Value() == AfterLock(old(Value()), now)
    {
      lockedAt := Some(now);
      domainEvents := domainEvents + [DomainEvent(slug, TypeName, Locked, [("Locked", true)])];
    }

    method Unlock()
      modifies this
      ensures Value() == AfterUnlock(old(Value()))
    {
      lockedAt := None;
      domainEvents := domainEvents + [DomainEvent(slug, TypeName, Locked, [("Locked", false)])];
    }

    method UpdateTimestamps(now: Time)
      modifies this
      ensures Value() == AfterUpdateTimestamps(old(Value()), now)
    {
      updatedAt := Some(now);
      if deletedAt.Some? {
        restoredAt := None;
      }
      domainEvents := domainEvents + [DomainEvent(slug, TypeName, Updated, [])];
    }

    method ClearDomainEvents()
      modifies this
      ensures Value() == BaseModel.ClearDomainEvents(old(Value()))
    {
      domainEvents := [];
    }
  }
}
