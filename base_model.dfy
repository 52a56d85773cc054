/**
 * The behaviour `BaseModel` gives every entity: the normalising `Slug` setter, the lifecycle
 * transitions as the base class implements them (no events), identity and validity checks,
 * and the domain-event list. `UserProfile` runs these transitions through `base.X()`.
 */
module BaseModel {
  import opened Wrappers
  import opened Text
  import opened DomainEvents
  import opened Entities

  /** One character of `value.ToLowerInvariant().Replace(" ", "-")`. */
  function NormalizeChar(c: char): char
  {
    if c == ' ' then '-' else LowerChar(c)
  }

  /** `value.ToLowerInvariant().Replace(" ", "-")`. */
  function Normalize(s: string): (r: string)
    ensures |r| == |s|
    ensures forall i :: 0 <= i < |s| ==> r[i] == NormalizeChar(s[i])
  {
    seq(|s|, i requires 0 <= i < |s| => NormalizeChar(s[i]))
  }

  lemma NormalizeAppend(a: string, b: string)
    ensures Normalize(a + b) == Normalize(a) + Normalize(b)
  {
    assert forall i :: 0 <= i < |a + b| ==> Normalize(a + b)[i] == (Normalize(a) + Normalize(b))[i];
  }

  /** Normalising twice changes nothing: lower-case letters and '-' are fixed points. */
  lemma NormalizeIdempotent(s: string)
    ensures Normalize(Normalize(s)) == Normalize(s)
  {
    forall i | 0 <= i < |s| ensures NormalizeChar(NormalizeChar(s[i])) == NormalizeChar(s[i]) { }
  }

  /**
   * What the `Slug` setter stores for `value` on an object whose type is `typeName`:
   * `GetType().Name + "/" + value?.ToLowerInvariant().Replace(" ", "-") ?? string.Empty`.
   * `+` binds tighter than `??`, so a null value yields `typeName + "/"`.
   */
  function SlugFor(typeName: string, value: Option<string>): (r: string)
    ensures StartsWith(r, typeName + "/")
    ensures |r| == |typeName| + 1 + |OrEmpty(value)|
    ensures value.None? ==> r == typeName + "/"
    ensures forall i :: 0 <= i < |OrEmpty(value)| ==> r[|typeName| + 1 + i] == NormalizeChar(OrEmpty(value)[i])
  {
    typeName + "/" + Normalize(OrEmpty(value))
  }

  /**
   * Assigning a slug its own current value is not idempotent: the type prefix, lower-cased,
   * appears a second time.
   */
  lemma {:induction false} SlugReassignment(typeName: string, value: Option<string>)
    ensures SlugFor(typeName, Some(SlugFor(typeName, value)))
            == typeName + "/" + Normalize(typeName) + "/" + Normalize(OrEmpty(value))
    ensures SlugFor(typeName, Some(SlugFor(typeName, value))) != SlugFor(typeName, value)
  {
    var n := Normalize(OrEmpty(value));
    calc {
      Normalize(typeName + "/" + n);
      { NormalizeAppend(typeName + "/", n); NormalizeAppend(typeName, "/"); }
      Normalize(typeName) + Normalize("/") + Normalize(n);
      { NormalizeIdempotent(OrEmpty(value)); assert Normalize("/") == "/"; }
      Normalize(typeName) + "/" + n;
    }
    assert typeName + "/" + (Normalize(typeName) + "/" + n) == typeName + "/" + Normalize(typeName) + "/" + n;
  }

  /** `entity.Slug = value`: only the slug changes, and it carries the type prefix. */
  function WithSlug(e: Entity, value: Option<string>): (r: Entity)
    ensures StartsWith(r.slug, e.TypeName() + "/")
    ensures r.(slug := e.slug) == e
  {
    e.(slug := SlugFor(e.TypeName(), value))
  }

  /** `IsValid()`: throws `InvalidOperationException` iff the slug is empty or white space. */
  function IsValid(e: Entity): (r: Result<bool>)
    ensures r.Fail? <==> IsBlank(e.slug)
    ensures r.Fail? ==> r.error == InvalidOperation
    ensures r.Ok? ==> r.value
  {
    if IsBlank(e.slug) then Fail(InvalidOperation) else Ok(true)
  }

  /** Every slug the setter produces passes `IsValid`: it contains the '/' after the type name. */
  lemma ValidAfterSlugAssignment(e: Entity, value: Option<string>)
    ensures IsValid(WithSlug(e, value)) == Ok(true)
  {
    var s := WithSlug(e, value).slug;
    assert s[|e.TypeName()|] == '/';
    assert !IsWhiteSpace('/');
  }

  /** `Equals(obj)`: `obj` is a `BaseModel` with the same `Id` and `Uid`. */
  function Equals(e: Entity, obj: Option<Entity>): (r: bool)
    requires e.IsBaseModel()
    ensures r <==> obj.Some? && obj.value.IsBaseModel() && obj.value.id == e.id && obj.value.uid == e.uid
  {
    match obj
    case None => false
    case Some(other) => other.IsBaseModel() && e.id == other.id && e.uid == other.uid
  }

  /** `GetHashCode()`: `HashCode.Combine(Id, Uid)`, whose per-process seeding is the parameter `combine`. */
  function HashCode(e: Entity, combine: (int, Guid) -> int): int
  {
    combine(e.id, e.uid)
  }

  /** `Equals` is an equivalence on `BaseModel` values, and equal values hash alike. */
  lemma EqualsIsConsistent(a: Entity, b: Entity, c: Entity, combine: (int, Guid) -> int)
    requires a.IsBaseModel() && b.IsBaseModel() && c.IsBaseModel()
    ensures Equals(a, Some(a))
    ensures Equals(a, Some(b)) <==> Equals(b, Some(a))
    ensures Equals(a, Some(b)) && Equals(b, Some(c)) ==> Equals(a, Some(c))
    ensures Equals(a, Some(b)) ==> HashCode(a, combine) == HashCode(b, combine)
  {
  }

  /** `IsTransient()`: not yet persisted. */
  predicate IsTransient(e: Entity)
  {
    e.id == 0
  }

  /** `BaseModel.MarkAsDeleted()`: deleted now, no longer restored; nothing else changes. */
  function MarkedDeleted(e: Entity, now: Time): (r: Entity)
    ensures r.IsDeleted() && !r.IsRestored() && r.deletedAt == Some(now)
    ensures r.(deletedAt := e.deletedAt, restoredAt := e.restoredAt) == e
  {
    e.(deletedAt := Some(now), restoredAt := None)
  }

  /** `BaseModel.MarkAsRestored()`: restored now, no longer deleted; nothing else changes. */
  function MarkedRestored(e: Entity, now: Time): (r: Entity)
    ensures !r.IsDeleted() && r.IsRestored() && r.restoredAt == Some(now)
    ensures r.(deletedAt := e.deletedAt, restoredAt := e.restoredAt) == e
  {
    e.(restoredAt := Some(now), deletedAt := None)
  }

  /** `BaseModel.UpdateTimestamps()`: stamps `UpdatedAt`; a deleted entity also loses `RestoredAt`. */
  function Touched(e: Entity, now: Time): (r: Entity)
    ensures r.updatedAt == Some(now)
    ensures r.restoredAt == if e.IsDeleted() then None else e.restoredAt
    ensures r.(updatedAt := e.updatedAt, restoredAt := e.restoredAt) == e
  {
    var stamped := e.(updatedAt := Some(now));
    if e.IsDeleted() then stamped.(restoredAt := None) else stamped
  }

  /** `BaseModel.Lock()`: only `LockedAt` changes. */
  function Locked(e: Entity, now: Time): (r: Entity)
    ensures r.IsLocked() && r.lockedAt == Some(now)
    ensures r.(lockedAt := e.lockedAt) == e
  {
    e.(lockedAt := Some(now))
  }

  /** `BaseModel.Unlock()`: only `LockedAt` changes. */
  function Unlocked(e: Entity): (r: Entity)
    ensures !r.IsLocked()
    ensures r.(lockedAt := e.lockedAt) == e
  {
    e.(lockedAt := None)
  }

  /** Delete then restore is a round trip on the deletion flag, whatever happened in between on the lock axis. */
  lemma DeleteThenRestore(e: Entity, t1: Time, t2: Time, lockNow: Time)
    ensures !MarkedRestored(MarkedDeleted(e, t1), t2).IsDeleted()
    ensures MarkedRestored(MarkedDeleted(e, t1), t2).deletedAt == None
    ensures MarkedRestored(Locked(MarkedDeleted(e, t1), lockNow), t2).deletedAt == None
    ensures MarkedRestored(Unlocked(MarkedDeleted(e, t1)), t2).deletedAt == None
  {
  }

  /** `AddDomainEvent(ev)`: appends at the end; nothing else changes. */
  function AddDomainEvent(e: Entity, ev: DomainEvent): (r: Entity)
    ensures r.events == e.events + [ev]
    ensures r.(events := e.events) == e
  {
    e.(events := e.events + [ev])
  }

  /** `ClearDomainEvents()`. */
  function ClearDomainEvents(e: Entity): (r: Entity)
    ensures r.events == []
    ensures r.(events := e.events) == e
  {
    e.(events := [])
  }
}
