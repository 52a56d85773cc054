/**
 * `ClimbEdgeContext`: the committed rows, the change tracker's entries, and `SaveChanges`, which
 * runs the timestamp pass over the tracked entries and then commits them. Queries read the
 * committed rows of one entity type (soft-deleted `AppUser` rows hidden by the query filter)
 * and return the tracked value for a row that is already tracked, as the identity map does.
 */
module Persistence {
  import opened Wrappers
  import opened Entities
  import Lifecycle

  datatype EntryState = Unchanged | Modified | Added

  /** A change-tracker entry. */
  datatype Entry = Entry(entity: Entity, state: EntryState)

  /** The database rows, the tracked entries, and the next identity value the database hands out. */
  datatype Db = Db(rows: seq<Entity>, entries: seq<Entry>, nextId: int)

  /** A row a query over `kind` returns: `AppUserConfiguration` filters out soft-deleted users. */
  predicate Visible(row: Entity, kind: Kind)
  {
    row.Kind() == kind && (kind == AppUserKind ==> !row.IsDeleted())
  }

  /** The first tracked entry of the entity `uid`, or -1. */
  function IndexOf(entries: seq<Entry>, uid: Guid): (r: int)
    ensures -1 <= r < |entries|
    ensures r >= 0 ==> entries[r].entity.uid == uid
    ensures forall i :: 0 <= i < |entries| && (r == -1 || i < r) ==> entries[i].entity.uid != uid
  {
    if entries == [] then -1
    else if entries[0].entity.uid == uid then 0
    else
      var k := IndexOf(entries[1..], uid);
      if k == -1 then -1 else k + 1
  }

  /** Entry lists whose entities carry the same uids in the same order locate every uid alike. */
  lemma {:induction false} IndexOfSameUids(a: seq<Entry>, b: seq<Entry>, uid: Guid)
    requires |a| == |b| && forall i :: 0 <= i < |a| ==> a[i].entity.uid == b[i].entity.uid
    ensures IndexOf(a, uid) == IndexOf(b, uid)
  {
    if a != [] && a[0].entity.uid != uid {
      IndexOfSameUids(a[1..], b[1..], uid);
    }
  }

  /** The tracked value of the entity `uid`. */
  function Tracked(entries: seq<Entry>, uid: Guid): (r: Option<Entity>)
    ensures r.Some? <==> exists i :: 0 <= i < |entries| && entries[i].entity.uid == uid
    ensures r.Some? ==> r.value.uid == uid
  {
    var i := IndexOf(entries, uid);
    if i >= 0 then Some(entries[i].entity) else None
  }

  /** A row as a query returns it: the tracked instance when the row is tracked. */
  function Resolve(entries: seq<Entry>, row: Entity): (r: Entity)
    ensures r.uid == row.uid
  {
    var i := IndexOf(entries, row.uid);
    if i >= 0 then entries[i].entity else row
  }

  /** `Set<T>()` enumerated: the visible rows of `kind`, in row order, each resolved against the tracker. */
  function View(rows: seq<Entity>, entries: seq<Entry>, kind: Kind): (r: seq<Entity>)
    ensures |r| <= |rows|
    ensures forall x :: x in r ==> exists row :: row in rows && Visible(row, kind) && x == Resolve(entries, row)
    ensures forall row :: row in rows && Visible(row, kind) ==> Resolve(entries, row) in r
  {
    if rows == [] then []
    else (if Visible(rows[0], kind) then [Resolve(entries, rows[0])] else []) + View(rows[1..], entries, kind)
  }

  /** `IgnoreQueryFilters()`: every row of `kind`, resolved against the tracker. */
  function Unfiltered(rows: seq<Entity>, entries: seq<Entry>, kind: Kind): (r: seq<Entity>)
    ensures forall x :: x in r ==> exists row :: row in rows && row.Kind() == kind && x == Resolve(entries, row)
    ensures forall row :: row in rows && row.Kind() == kind ==> Resolve(entries, row) in r
  {
    if rows == [] then []
    else (if rows[0].Kind() == kind then [Resolve(entries, rows[0])] else []) + Unfiltered(rows[1..], entries, kind)
  }

  /** Attaching an entity no row carries leaves every query result as it was: the change is only staged. */
  lemma {:induction false} ViewIgnoresStaged(rows: seq<Entity>, entries: seq<Entry>, e: Entity, st: EntryState, kind: Kind)
    requires forall row :: row in rows ==> row.uid != e.uid
    ensures View(rows, Track(entries, e, st), kind) == View(rows, entries, kind)
  {
    if rows != [] {
      assert Resolve(Track(entries, e, st), rows[0]) == Resolve(entries, rows[0]);
      ViewIgnoresStaged(rows[1..], entries, e, st, kind);
    }
  }

  function Query(db: Db, kind: Kind): seq<Entity>
  {
    View(db.rows, db.entries, kind)
  }

  /** `FirstOrDefaultAsync(e => e.Uid == uid)` over a query result. */
  function Find(s: seq<Entity>, uid: Guid): (r: Option<Entity>)
    ensures r.Some? ==> r.value in s && r.value.uid == uid
    ensures r.None? <==> forall x :: x in s ==> x.uid != uid
    ensures r.Some? ==> exists j :: 0 <= j < |s| && s[j] == r.value && forall k :: 0 <= k < j ==> s[k].uid != uid
  {
    if s == [] then None
    else if s[0].uid == uid then Some(s[0])
    else
      var r := Find(s[1..], uid);
      assert r.Some? ==> exists j :: 1 <= j < |s| && s[j] == r.value && forall k :: 0 <= k < j ==> s[k].uid != uid by {
        if r.Some? {
          var j :| 0 <= j < |s[1..]| && s[1..][j] == r.value && forall k :: 0 <= k < j ==> s[1..][k].uid != uid;
          assert forall k :: 1 <= k < j + 1 ==> s[k].uid == s[1..][k - 1].uid;
          assert s[j + 1] == r.value;
        }
      }
      r
  }

  /** The state `Update(entity)` gives: `Added` for a key the database has yet to generate, else `Modified`. */
  function UpdateState(e: Entity): EntryState
  {
    if e.id == 0 then Added else Modified
  }

  /** Attaching `e` in state `st`: its entry is replaced when the entity is tracked, else appended. */
  function Track(entries: seq<Entry>, e: Entity, st: EntryState): (r: seq<Entry>)
    ensures |r| == |entries| || |r| == |entries| + 1
    ensures IndexOf(r, e.uid) >= 0 && r[IndexOf(r, e.uid)] == Entry(e, st)
    ensures Tracked(r, e.uid) == Some(e)
    ensures forall i :: 0 <= i < |entries| && entries[i].entity.uid != e.uid ==> r[i] == entries[i]
    ensures forall u :: u != e.uid ==> IndexOf(r, u) == IndexOf(entries, u)
    ensures DistinctUids(entries) ==> DistinctUids(r)
  {
    var i := IndexOf(entries, e.uid);
    if i >= 0 then
      var r := entries[i := Entry(e, st)];
      assert forall u :: IndexOf(r, u) == IndexOf(entries, u) by {
        forall u ensures IndexOf(r, u) == IndexOf(entries, u) {
          IndexOfSameUids(r, entries, u);
        }
      }
      r
    else
      var r := entries + [Entry(e, st)];
      assert forall u :: u != e.uid ==> IndexOf(r, u) == IndexOf(entries, u) by {
        forall u | u != e.uid ensures IndexOf(r, u) == IndexOf(entries, u) {
          IndexOfAppend(entries, Entry(e, st), u);
        }
      }
      IndexOfAppend(entries, Entry(e, st), e.uid);
      r
  }

  lemma {:induction false} IndexOfAppend(entries: seq<Entry>, en: Entry, uid: Guid)
    ensures IndexOf(entries + [en], uid) == if IndexOf(entries, uid) >= 0 || en.entity.uid != uid then IndexOf(entries, uid) else |entries|
  {
    if entries != [] && entries[0].entity.uid != uid {
      assert (entries + [en])[1..] == entries[1..] + [en];
      IndexOfAppend(entries[1..], en, uid);
    }
  }

  /** One visit of the timestamp pass to an entry. */
  function StampOnce(en: Entry, now: Time): (r: Entity)
    ensures r.Kind() == en.entity.Kind() && r.uid == en.entity.uid && r.id == en.entity.id
    ensures en.state == Unchanged ==> r == en.entity
    ensures en.state == Added ==> r.createdAt == now && r.updatedAt == None
    ensures en.state == Modified ==> r.updatedAt == Some(now) && r.createdAt == en.entity.createdAt
  {
    match en.state
    case Added => Lifecycle.InitializeSlug(en.entity.(createdAt := now, updatedAt := None))
    case Modified => Lifecycle.UpdateTimestamps(en.entity, now)
    case Unchanged => en.entity
  }

  /** The first loop of `UpdateTimestamps`: entries whose entity is a `BaseModel`. */
  function FirstLoop(entries: seq<Entry>, now: Time): (r: seq<Entry>)
    ensures |r| == |entries|
    ensures forall i :: 0 <= i < |entries| ==>
              r[i] == if entries[i].entity.IsBaseModel() then Entry(StampOnce(entries[i], now), entries[i].state) else entries[i]
  {
    seq(|entries|, i requires 0 <= i < |entries| =>
      if entries[i].entity.IsBaseModel() then Entry(StampOnce(entries[i], now), entries[i].state) else entries[i])
  }

  /** The second loop of `UpdateTimestamps`: every `IBaseEntity` entry, `BaseModel` ones included. */
  function SecondLoop(entries: seq<Entry>, now: Time): (r: seq<Entry>)
    ensures |r| == |entries|
    ensures forall i :: 0 <= i < |entries| ==> r[i] == Entry(StampOnce(entries[i], now), entries[i].state)
  {
    seq(|entries|, i requires 0 <= i < |entries| => Entry(StampOnce(entries[i], now), entries[i].state))
  }

  /** The whole pass. */
  function Pass(entries: seq<Entry>, now: Time): (r: seq<Entry>)
    ensures |r| == |entries|
    ensures forall i :: 0 <= i < |entries| ==>
              r[i].state == entries[i].state && r[i].entity.uid == entries[i].entity.uid
              && r[i].entity.Kind() == entries[i].entity.Kind() && r[i].entity.id == entries[i].entity.id
    ensures forall i :: 0 <= i < |entries| && entries[i].state == Unchanged ==> r[i] == entries[i]
    ensures DistinctUids(entries) ==> DistinctUids(r)
  {
    SecondLoop(FirstLoop(entries, now), now)
  }

  /** What the pass does to one entry, by type and state. */
  lemma PassEntry(entries: seq<Entry>, now: Time, i: int)
    requires 0 <= i < |entries|
    ensures var e, r := entries[i].entity, Pass(entries, now)[i].entity;
            match entries[i].state
            case Unchanged => r == e
            case Added =>
              if e.IsBaseModel() then r == e.(createdAt := now, updatedAt := None)
              else r == Lifecycle.InitializeSlug(e.(createdAt := now, updatedAt := None))
            case Modified =>
              if e.IsBaseModel() then r == Lifecycle.UpdateTimestamps(Lifecycle.UpdateTimestamps(e, now), now)
              else r == Lifecycle.UpdateTimestamps(e, now)
  {
  }

  /**
   * A modified `UserProfile` is visited by both loops: its `UpdateTimestamps` runs twice and two
   * `Updated` events are raised per save; a modified `AppUser` raises one.
   */
  lemma PassModifiedEvents(entries: seq<Entry>, now: Time, i: int)
    requires 0 <= i < |entries| && entries[i].state == Modified
    ensures var e, r := entries[i].entity, Pass(entries, now)[i].entity;
            r.updatedAt == Some(now)
            && |r.events| == |e.events| + (if e.IsBaseModel() then 2 else 1)
            && r.events[..|e.events|] == e.events
            && forall j :: |e.events| <= j < |r.events| ==> r.events[j].eventType == DomainEvents.Updated
  {
    var e := entries[i].entity;
    var once := Lifecycle.UpdateTimestamps(e, now);
    if e.IsBaseModel() {
      var twice := Lifecycle.UpdateTimestamps(once, now);
      assert twice.events == once.events + [twice.events[|once.events|]];
      assert once.events == e.events + [once.events[|e.events|]];
    }
  }

  /** An added `AppUser` gets the save time, no update time, its slug and exactly one `Created` event. */
  lemma PassAddedAppUser(entries: seq<Entry>, now: Time, i: int)
    requires 0 <= i < |entries| && entries[i].state == Added && !entries[i].entity.IsBaseModel()
    ensures var e, r := entries[i].entity, Pass(entries, now)[i].entity;
            r.createdAt == now && r.updatedAt == None
            && r.slug == Lifecycle.InitializeSlug(e.(createdAt := now)).slug
            && r.events == e.events + [DomainEvents.DomainEvent(r.slug, "AppUser", DomainEvents.Created, [])]
  {
  }

  /** `rows` with every row of the entity `e.uid` replaced by `e` (an `UPDATE` by key). */
  function ReplaceRow(rows: seq<Entity>, e: Entity): (r: seq<Entity>)
    ensures |r| == |rows|
    ensures forall i :: 0 <= i < |rows| ==> r[i] == if rows[i].uid == e.uid then e else rows[i]
  {
    seq(|rows|, i requires 0 <= i < |rows| => if rows[i].uid == e.uid then e else rows[i])
  }

  /** The states of the entries, in order. */
  function States(entries: seq<Entry>): (r: seq<EntryState>)
    ensures |r| == |entries| && forall i :: 0 <= i < |entries| ==> r[i] == entries[i].state
  {
    seq(|entries|, i requires 0 <= i < |entries| => entries[i].state)
  }

  /** The entities of the `Added` entries, in order: the rows an `INSERT` writes. */
  function AddedEntities(entries: seq<Entry>): (r: seq<Entity>)
    ensures |r| == multiset(States(entries))[Added]
  {
    if entries == [] then []
    else
      StatesCons(entries);
      (if entries[0].state == Added then [entries[0].entity] else []) + AddedEntities(entries[1..])
  }

  lemma StatesCons(entries: seq<Entry>)
    requires entries != []
    ensures multiset(States(entries)) == multiset{entries[0].state} + multiset(States(entries[1..]))
  {
    assert States(entries) == [entries[0].state] + States(entries[1..]);
  }

  /** No two tracked entries are of the same entity, as the change tracker's identity map keeps it. */
  predicate DistinctUids(entries: seq<Entry>)
  {
    forall i, j :: 0 <= i < j < |entries| ==> entries[i].entity.uid != entries[j].entity.uid
  }

  /** `e` carrying the identity value `id`. */
  function WithId(e: Entity, id: int): (r: Entity)
    ensures r.id == id && r.(id := e.id) == e
  {
    e.(id := id)
  }

  /** A row as the commit leaves it: the entity of the `Modified` entry of its uid, if there is one. */
  function ModifiedRow(pending: seq<Entry>, row: Entity): (r: Entity)
    ensures r.uid == row.uid || (IndexOf(pending, row.uid) >= 0 && pending[IndexOf(pending, row.uid)].state == Modified)
  {
    var k := IndexOf(pending, row.uid);
    if k >= 0 && pending[k].state == Modified then pending[k].entity else row
  }

  /**
   * The commit of `base.SaveChanges()`: added entities are inserted with the next identity
   * values, modified ones update their rows, and every entry becomes `Unchanged`.
   */
  function Commit(rows: seq<Entity>, pending: seq<Entry>, nextId: int): (r: (seq<Entity>, seq<Entry>, int))
    ensures |r.1| == |pending|
    ensures forall i :: 0 <= i < |pending| ==>
              r.1[i].state == Unchanged && r.1[i].entity.uid == pending[i].entity.uid
              && r.1[i].entity.(id := pending[i].entity.id) == pending[i].entity
              && (pending[i].state != Added ==> r.1[i].entity == pending[i].entity)
    ensures |r.0| == |rows| + |AddedEntities(pending)|
    ensures r.2 == nextId + |AddedEntities(pending)|
    decreases |pending|
  {
    if pending == [] then (rows, [], nextId)
    else
      var en := pending[0];
      var next := if en.state == Added then nextId + 1 else nextId;
      var rest := Commit(CommitRows(rows, en, nextId), pending[1..], next);
      (rest.0, [Entry(Committed(en, nextId), Unchanged)] + rest.1, rest.2)
  }

  /** The entity an entry becomes once committed: an added one receives the identity value `nextId`. */
  function Committed(en: Entry, nextId: int): (r: Entity)
    ensures r.uid == en.entity.uid && r.(id := en.entity.id) == en.entity
    ensures r.id == if en.state == Added then nextId else en.entity.id
  {
    if en.state == Added then en.entity.(id := nextId) else en.entity
  }

  /** The rows after one entry is written: an update by uid, an insert at the end, or nothing. */
  function CommitRows(rows: seq<Entity>, en: Entry, nextId: int): (r: seq<Entity>)
    ensures |r| == |rows| + (if en.state == Added then 1 else 0)
    ensures forall i :: 0 <= i < |rows| ==>
              r[i] == if en.state == Modified && rows[i].uid == en.entity.uid then en.entity else rows[i]
    ensures en.state == Added ==> r[|rows|] == en.entity.(id := nextId)
  {
    match en.state
    case Unchanged => rows
    case Modified => ReplaceRow(rows, en.entity)
    case Added => rows + [Committed(en, nextId)]
  }

  /**
   * What a commit writes, when no two entries are of one entity: each existing row becomes the
   * entity of its `Modified` entry or stays as it was, and the `Added` entities follow in entry
   * order with the identity values `nextId`, `nextId + 1`, ...
   */
  lemma CommitWrites(rows: seq<Entity>, pending: seq<Entry>, nextId: int)
    requires DistinctUids(pending)
    ensures CommitOutput(Commit(rows, pending, nextId).0, rows, pending, nextId)
  {
    CommitUpdates(rows, pending, nextId);
    CommitInserts(rows, pending, nextId);
  }

  /**
   * `out` is what a commit of `pending` makes of `rows`: the existing rows as the `Modified`
   * entries leave them, then the `Added` entities with the identity values from `nextId` on.
   */
  predicate CommitOutput(out: seq<Entity>, rows: seq<Entity>, pending: seq<Entry>, nextId: int)
  {
    |out| == |rows| + |AddedEntities(pending)|
    && (forall i :: 0 <= i < |rows| ==> out[i] == ModifiedRow(pending, rows[i]))
    && InsertedAt(out, |rows|, AddedEntities(pending), nextId)
  }

  lemma DistinctTail(pending: seq<Entry>)
    requires pending != [] && DistinctUids(pending)
    ensures DistinctUids(pending[1..])
    ensures forall i :: 0 <= i < |pending[1..]| ==> pending[1..][i].entity.uid != pending[0].entity.uid
  {
    assert forall i :: 0 <= i < |pending[1..]| ==> pending[1..][i] == pending[i + 1];
  }

  /** The existing rows after a commit. */
  lemma {:induction false} CommitUpdates(rows: seq<Entity>, pending: seq<Entry>, nextId: int)
    requires DistinctUids(pending)
    ensures forall i :: 0 <= i < |rows| ==> Commit(rows, pending, nextId).0[i] == ModifiedRow(pending, rows[i])
    decreases |pending|
  {
    if pending != [] {
      var en := pending[0];
      var next := if en.state == Added then nextId + 1 else nextId;
      var rows1 := CommitRows(rows, en, nextId);
      DistinctTail(pending);
      CommitUpdates(rows1, pending[1..], next);
      forall i | 0 <= i < |rows|
        ensures Commit(rows, pending, nextId).0[i] == ModifiedRow(pending, rows[i])
      {
        ModifiedRowStep(pending, rows[i], rows1[i]);
      }
    }
  }

  /** `out` holds the entities `added` from index `base` on, with the identity values from `nextId` on. */
  predicate InsertedAt(out: seq<Entity>, base: nat, added: seq<Entity>, nextId: int)
  {
    base + |added| <= |out| && forall k :: 0 <= k < |added| ==> out[base + k] == WithId(added[k], nextId + k)
  }

  /** The inserted rows after a commit. */
  lemma {:induction false} CommitInserts(rows: seq<Entity>, pending: seq<Entry>, nextId: int)
    requires DistinctUids(pending)
    ensures InsertedAt(Commit(rows, pending, nextId).0, |rows|, AddedEntities(pending), nextId)
    decreases |pending|
  {
    if pending != [] {
      var en := pending[0];
      var next := if en.state == Added then nextId + 1 else nextId;
      var rows1 := CommitRows(rows, en, nextId);
      var tail := pending[1..];
      var out := Commit(rows1, tail, next).0;
      assert Commit(rows, pending, nextId).0 == out;
      DistinctTail(pending);
      CommitInserts(rows1, tail, next);
      var added, added1 := AddedEntities(pending), AddedEntities(tail);
      if en.state == Added {
        assert added == [en.entity] + added1;
        assert |rows1| == |rows| + 1 && rows1[|rows|] == WithId(en.entity, nextId);
        CommitUpdates(rows1, tail, next);
        assert out[|rows|] == ModifiedRow(tail, rows1[|rows|]);
        UntouchedRow(tail, rows1[|rows|]);
        InsertStep(out, |rows|, added, added1, nextId);
      } else {
        assert added == added1;
      }
    }
  }

  /** The inserted rows after the first one, shifted by one place and one identity value. */
  lemma InsertStep(out: seq<Entity>, base: nat, added: seq<Entity>, added1: seq<Entity>, nextId: int)
    requires added != [] && added1 == added[1..] && |out| == base + |added|
    requires out[base] == WithId(added[0], nextId)
    requires InsertedAt(out, base + 1, added1, nextId + 1)
    ensures InsertedAt(out, base, added, nextId)
  {
    forall k | 0 <= k < |added|
      ensures out[base + k] == WithId(added[k], nextId + k)
    {
      if k > 0 {
        assert added[k] == added1[k - 1];
      }
    }
  }

  /** A row whose entity no entry tracks is left as it is. */
  lemma UntouchedRow(pending: seq<Entry>, row: Entity)
    requires forall i :: 0 <= i < |pending| ==> pending[i].entity.uid != row.uid
    ensures ModifiedRow(pending, row) == row
  {
  }

  /**
   * One step of the commit seen from a row `row` whose value after the first entry is `row1`:
   * the rest of the entries then leave it as the whole list leaves `row`.
   */
  lemma ModifiedRowStep(pending: seq<Entry>, row: Entity, row1: Entity)
    requires pending != [] && DistinctUids(pending)
    requires row1 == if pending[0].state == Modified && row.uid == pending[0].entity.uid then pending[0].entity else row
    ensures ModifiedRow(pending[1..], row1) == ModifiedRow(pending, row)
  {
    var tail := pending[1..];
    if row.uid == pending[0].entity.uid {
      assert forall i :: 0 <= i < |tail| ==> tail[i].entity.uid != row.uid by {
        assert forall i :: 0 <= i < |tail| ==> tail[i] == pending[i + 1];
      }
    } else {
      var k := IndexOf(tail, row.uid);
      assert IndexOf(pending, row.uid) == if k == -1 then -1 else k + 1;
    }
  }

  /** `SaveChanges()` and `SaveChangesAsync()`: the timestamp pass, then the commit. */
  function Saved(db: Db, now: Time): (r: Db)
    ensures |r.entries| == |db.entries|
    ensures forall i :: 0 <= i < |db.entries| ==> r.entries[i].state == Unchanged && r.entries[i].entity.uid == db.entries[i].entity.uid
    ensures DistinctUids(db.entries) ==> DistinctUids(r.entries)
  {
    var (rows, entries, nextId) := Commit(db.rows, Pass(db.entries, now), db.nextId);
    Db(rows, entries, nextId)
  }

  /**
   * The rows a save leaves, when no two entries are of one entity: each existing row becomes its
   * entity as the timestamp pass left it, if that entry is `Modified`, and the entities of the
   * `Added` entries, as the pass left them, follow with the identity values from `nextId` on.
   */
  lemma SavedWrites(db: Db, now: Time)
    requires DistinctUids(db.entries)
    ensures CommitOutput(Saved(db, now).rows, db.rows, Pass(db.entries, now), db.nextId)
    ensures Saved(db, now).nextId == db.nextId + multiset(States(db.entries))[Added]
  {
    var pending := Pass(db.entries, now);
    assert States(pending) == States(db.entries);
    CommitWrites(db.rows, pending, db.nextId);
  }

  /** A save keeps every tracked entity tracked, and a tracked entity that was not added keeps its identity value. */
  lemma SaveChangesKeepsTracked(db: Db, now: Time, uid: Guid)
    ensures IndexOf(Saved(db, now).entries, uid) == IndexOf(db.entries, uid)
    ensures var i := IndexOf(db.entries, uid);
            i >= 0 ==> Saved(db, now).entries[i].entity.(id := db.entries[i].entity.id)
                       == Pass(db.entries, now)[i].entity
  {
    var after := Saved(db, now).entries;
    IndexOfSameUids(after, db.entries, uid);
  }

  /**
   * What a save makes of an entity just attached in state `st`: it stays tracked under its uid,
   * keeps its deletion and lock stamps, and gets the pass's timestamps.
   */
  lemma SavedAttached(db: Db, e: Entity, st: EntryState, now: Time)
    requires st != Unchanged
    ensures Tracked(Saved(db.(entries := Track(db.entries, e, st)), now).entries, e.uid).Some?
    ensures var s := Tracked(Saved(db.(entries := Track(db.entries, e, st)), now).entries, e.uid).value;
            s.uid == e.uid && s.Kind() == e.Kind() && s.deletedAt == e.deletedAt && s.lockedAt == e.lockedAt
            && (e.IsBaseModel() ==> s.slug == e.slug)
            && (st == Added ==> s.createdAt == now && s.updatedAt == None && s.restoredAt == e.restoredAt)
            && (st == Modified ==> s.id == e.id && s.updatedAt == Some(now)
                                   && s.restoredAt == if e.IsDeleted() then None else e.restoredAt)
  {
    var db1 := db.(entries := Track(db.entries, e, st));
    var i := IndexOf(db1.entries, e.uid);
    SaveChangesKeepsTracked(db1, now, e.uid);
    PassEntry(db1.entries, now, i);
  }

  /** The number of entries a commit writes, which `SaveChanges` returns. */
  function Written(entries: seq<Entry>): (r: nat)
    ensures r <= |entries|
    ensures r == multiset(States(entries))[Added] + multiset(States(entries))[Modified]
  {
    if entries == [] then 0
    else
      StatesCons(entries);
      (if entries[0].state == Unchanged then 0 else 1) + Written(entries[1..])
  }

  class ClimbEdgeContext {
    var rows: seq<Entity>
    var entries: seq<Entry>
    var nextId: int

    function Value(): Db
      reads this
    {
      Db(rows, entries, nextId)
    }

    /** A context over the database `initialRows`, tracking nothing. */
    constructor (initialRows: seq<Entity>, firstId: int)
      ensures Value() == Db(initialRows, [], firstId)
    {
      rows, entries, nextId := initialRows, [], firstId;
    }

    /** `Set<T>().Add(entity)` / `AddAsync(entity)`. */
    method Add(e: Entity)
      modifies this
      ensures Value() == old(Value()).(entries := Track(old(entries), e, Added))
    {
      entries := Track(entries, e, Added);
    }

    /** `Set<T>().Update(entity)`. */
    method Update(e: Entity)
      modifies this
      ensures Value() == old(Value()).(entries := Track(old(entries), e, UpdateState(e)))
    {
      entries := Track(entries, e, UpdateState(e));
    }

    /** `UpdateTimestamps()`: the two loops over the tracked entries. */
    method UpdateTimestamps(now: Time)
      modifies this
      ensures Value() == old(Value()).(entries := Pass(old(entries), now))
    {
      ghost var first := FirstLoop(entries, now);
      for i := 0 to |entries|
        invariant rows == old(rows) && nextId == old(nextId)
        invariant |entries| == |old(entries)|
        invariant forall j :: 0 <= j < i ==> entries[j] == first[j]
        invariant forall j :: i <= j < |entries| ==> entries[j] == old(entries)[j]
      {
        if entries[i].entity.IsBaseModel() {
          entries := entries[i := Entry(StampOnce(entries[i], now), entries[i].state)];
        }
      }
      assert entries == first;
      ghost var second := SecondLoop(first, now);
      for i := 0 to |entries|
        invariant rows == old(rows) && nextId == old(nextId)
        invariant |entries| == |first|
        invariant forall j :: 0 <= j < i ==> entries[j] == second[j]
        invariant forall j :: i <= j < |entries| ==> entries[j] == first[j]
      {
        entries := entries[i := Entry(StampOnce(entries[i], now), entries[i].state)];
      }
      assert entries == second;
      assert second == Pass(old(entries), now);
    }

    /** `SaveChanges()` / `SaveChangesAsync()`: returns the number of entries written. */
    method SaveChanges(now: Time) returns (written: int)
      modifies this
      ensures Value() == Saved(old(Value()), now)
      ensures written == Written(old(entries))
    {
      written := Written(entries);
      UpdateTimestamps(now);
      WrittenAfterPass(old(entries), now);
      var (rs, es, n) := Commit(rows, entries, nextId);
      rows, entries, nextId := rs, es, n;
    }
  }

  lemma {:induction false} WrittenAfterPass(entries: seq<Entry>, now: Time)
    ensures Written(Pass(entries, now)) == Written(entries)
  {
    WrittenSameStates(Pass(entries, now), entries);
  }

  lemma {:induction false} WrittenSameStates(a: seq<Entry>, b: seq<Entry>)
    requires |a| == |b| && forall i :: 0 <= i < |a| ==> a[i].state == b[i].state
    ensures Written(a) == Written(b)
  {
    if a != [] {
      WrittenSameStates(a[1..], b[1..]);
    }
  }
}
