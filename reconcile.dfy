/** What both sync loops do to the `Events` table, item by item and in order: a cancelled item
    deletes the row under its natural key (if there is one), a kept item is upserted, a skipped
    item changes nothing, and the first item that raises stops the loop with the changes made so
    far left in place. `ApplyChanges` is that loop as a function; the lemmas below say what the
    table holds afterwards. */
module Reconcile {
  import opened Base
  import opened Models

  /** What one upstream item asks of the store. `Fail` is an item whose mapping itself throws. */
  datatype Change = Skip | Tombstone(key: EventKey) | Upsert(data: EventData) | Fail(error: SyncError)
  {
    function Target(): Option<EventKey> {
      match this
      case Tombstone(k) => Some(k)
      case Upsert(d) => Some(d.Key())
      case _ => None
    }
  }

  /** The state after a loop, how many upserts it made, and the error that stopped it. */
  datatype Run = Run(db: Db, upserted: nat, failure: Option<SyncError>)

  /** The outcome of one sync: the new state, and the count or the error the caller sees. */
  datatype Synced = Synced(db: Db, result: Result<nat, SyncError>)

  function ApplyChanges(db: Db, cs: seq<Change>, now: Instant): (r: Run)
    ensures r.db.calendars == db.calendars && r.db.nextId == db.nextId
    decreases |cs|
  {
    if cs == [] then Run(db, 0, None)
    else
      match cs[0]
      case Skip => ApplyChanges(db, cs[1..], now)
      case Tombstone(k) => ApplyChanges(DestroyEvent(db, k), cs[1..], now)
      case Fail(e) => Run(db, 0, Some(e))
      case Upsert(d) =>
        match UpsertEvent(db, d, now)
        case Err(e) => Run(db, 0, Some(e))
        case Ok(db1) =>
          var rest := ApplyChanges(db1, cs[1..], now);
          rest.(upserted := rest.upserted + 1)
  }

  /** A change that does not raise against the given `Calendars` table. */
  predicate Applicable(calendars: map<nat, Calendar>, c: Change, now: Instant) {
    match c
    case Fail(_) => false
    case Upsert(d) => BuildEvent(d, now).Ok? && d.calendarId in calendars
    case _ => true
  }

  /** The error a non-applicable change raises. */
  function ErrorOf(calendars: map<nat, Calendar>, c: Change, now: Instant): SyncError
    requires !Applicable(calendars, c, now)
  {
    match c
    case Fail(e) => e
    case Upsert(d) => if BuildEvent(d, now).Err? then BuildEvent(d, now).error else ForeignKeyViolation
  }

  /** The loop runs to the end exactly when no change raises. */
  lemma {:induction false} ApplySucceedsIff(db: Db, cs: seq<Change>, now: Instant)
    ensures ApplyChanges(db, cs, now).failure.None? <==>
            forall i :: 0 <= i < |cs| ==> Applicable(db.calendars, cs[i], now)
    decreases |cs|
  {
    if cs != [] {
      var db1 := match cs[0]
        case Tombstone(k) => DestroyEvent(db, k)
        case Upsert(d) => if UpsertEvent(db, d, now).Ok? then UpsertEvent(db, d, now).value else db
        case _ => db;
      assert db1.calendars == db.calendars;
      ApplySucceedsIff(db1, cs[1..], now);
      assert forall i :: 1 <= i < |cs| ==> cs[i] == cs[1..][i - 1];
    }
  }

  /** The state after one change that does not raise. */
  function Step(db: Db, c: Change, now: Instant): Db {
    match c
    case Tombstone(k) => DestroyEvent(db, k)
    case Upsert(d) => if UpsertEvent(db, d, now).Ok? then UpsertEvent(db, d, now).value else db
    case _ => db
  }

  lemma ApplyUnfold(db: Db, cs: seq<Change>, now: Instant)
    requires cs != [] && Applicable(db.calendars, cs[0], now)
    ensures ApplyChanges(db, cs, now).db == ApplyChanges(Step(db, cs[0], now), cs[1..], now).db
    ensures ApplyChanges(db, cs, now).failure == ApplyChanges(Step(db, cs[0], now), cs[1..], now).failure
    ensures Step(db, cs[0], now).calendars == db.calendars
  {
  }

  /** The index of the first change that raises, or `|cs|` when none does. */
  function FirstFailing(calendars: map<nat, Calendar>, cs: seq<Change>, now: Instant): (j: nat)
    ensures j <= |cs|
    ensures forall i :: 0 <= i < j ==> Applicable(calendars, cs[i], now)
    ensures j < |cs| ==> !Applicable(calendars, cs[j], now)
    decreases |cs|
  {
    if cs == [] then 0
    else if !Applicable(calendars, cs[0], now) then 0
    else
      var j := FirstFailing(calendars, cs[1..], now);
      assert forall i :: 1 <= i < |cs| ==> cs[i] == cs[1..][i - 1];
      j + 1
  }

  /** When an item raises, the error is that of the first raising item, and the table holds
      exactly the effect of the items before it. */
  lemma {:induction false} ApplyStopsAtFirstFailure(db: Db, cs: seq<Change>, now: Instant)
    requires ApplyChanges(db, cs, now).failure.Some?
    ensures FirstFailing(db.calendars, cs, now) < |cs|
    ensures ApplyChanges(db, cs, now).failure
              == Some(ErrorOf(db.calendars, cs[FirstFailing(db.calendars, cs, now)], now))
    ensures ApplyChanges(db, cs, now).db
              == ApplyChanges(db, cs[..FirstFailing(db.calendars, cs, now)], now).db
    decreases |cs|
  {
    if !Applicable(db.calendars, cs[0], now) {
      assert cs[..0] == [];
    } else {
      var db1 := Step(db, cs[0], now);
      ApplyUnfold(db, cs, now);
      ApplyStopsAtFirstFailure(db1, cs[1..], now);
      var j := FirstFailing(db.calendars, cs, now);
      assert j == FirstFailing(db.calendars, cs[1..], now) + 1;
      assert cs[..j][1..] == cs[1..][..j - 1];
      ApplyUnfold(db, cs[..j], now);
    }
  }

  /** How many changes are upserts. */
  function UpsertCount(cs: seq<Change>): (n: nat)
    ensures n <= |cs|
  {
    if cs == [] then 0 else (if cs[0].Upsert? then 1 else 0) + UpsertCount(cs[1..])
  }

  /** A loop that runs to the end made one upsert per `Upsert` change and no other. */
  lemma {:induction false} ApplyCountsUpserts(db: Db, cs: seq<Change>, now: Instant)
    requires ApplyChanges(db, cs, now).failure.None?
    ensures ApplyChanges(db, cs, now).upserted == UpsertCount(cs)
    decreases |cs|
  {
    if cs != [] {
      match cs[0]
      case Skip => ApplyCountsUpserts(db, cs[1..], now);
      case Tombstone(k) => ApplyCountsUpserts(DestroyEvent(db, k), cs[1..], now);
      case Upsert(d) => ApplyCountsUpserts(UpsertEvent(db, d, now).value, cs[1..], now);
    }
  }

  /** The index of the last change aimed at `k`, or -1 when none is. */
  function LastFor(cs: seq<Change>, k: EventKey): (j: int)
    ensures -1 <= j < |cs|
    ensures j >= 0 ==> cs[j].Target() == Some(k)
    ensures forall i :: j < i < |cs| ==> cs[i].Target() != Some(k)
    decreases |cs|
  {
    if cs == [] then -1
    else
      var r := LastFor(cs[1..], k);
      assert forall i :: 1 <= i < |cs| ==> cs[i] == cs[1..][i - 1];
      if r >= 0 then r + 1 else if cs[0].Target() == Some(k) then 0 else -1
  }

  function Lookup(m: map<EventKey, Event>, k: EventKey): Option<Event> {
    if k in m then Some(m[k]) else None
  }

  /** Independent statement of what a completed loop leaves under `k`: the row built from the
      last change aimed at `k`, nothing if that change is a tombstone, and the old row if no
      change is aimed at `k`. */
  function FinalRow(db: Db, cs: seq<Change>, now: Instant, k: EventKey): Option<Event> {
    var j := LastFor(cs, k);
    if j < 0 then Lookup(db.events, k)
    else
      match cs[j]
      case Upsert(d) => if BuildEvent(d, now).Ok? then Some(BuildEvent(d, now).value) else None
      case _ => None
  }

  /** Later items win: after a completed loop every key holds the row `FinalRow` names. */
  lemma {:induction false} LastWriteWins(db: Db, cs: seq<Change>, now: Instant, k: EventKey)
    requires ApplyChanges(db, cs, now).failure.None?
    ensures Lookup(ApplyChanges(db, cs, now).db.events, k) == FinalRow(db, cs, now, k)
    decreases |cs|
  {
    if cs != [] {
      var db1 := match cs[0]
        case Tombstone(t) => DestroyEvent(db, t)
        case Upsert(d) => UpsertEvent(db, d, now).value
        case _ => db;
      assert ApplyChanges(db, cs, now).db == ApplyChanges(db1, cs[1..], now).db;
      LastWriteWins(db1, cs[1..], now, k);
      var r := LastFor(cs[1..], k);
      if r >= 0 {
        assert LastFor(cs, k) == r + 1 && cs[r + 1] == cs[1..][r];
      } else if cs[0].Target() == Some(k) {
        assert LastFor(cs, k) == 0;
      } else {
        assert LastFor(cs, k) == -1;
        assert Lookup(db1.events, k) == Lookup(db.events, k);
      }
    }
  }

  /** A cancelled item removes its row and an absent row stays absent: a tombstone as the last
      change for `k` leaves no event under `k`, whatever came before it. */
  lemma TombstoneLeavesNoRow(db: Db, cs: seq<Change>, now: Instant, k: EventKey)
    requires ApplyChanges(db, cs, now).failure.None?
    requires LastFor(cs, k) >= 0 && cs[LastFor(cs, k)].Tombstone?
    ensures k !in ApplyChanges(db, cs, now).db.events
  {
    LastWriteWins(db, cs, now, k);
  }

  /** Rows no change is aimed at are left exactly as they were, whether or not the loop ran to
      the end. */
  lemma {:induction false} UntouchedRowsKept(db: Db, cs: seq<Change>, now: Instant, k: EventKey)
    requires forall i :: 0 <= i < |cs| ==> cs[i].Target() != Some(k)
    ensures Lookup(ApplyChanges(db, cs, now).db.events, k) == Lookup(db.events, k)
    decreases |cs|
  {
    if cs != [] {
      assert cs[0].Target() != Some(k);
      assert forall i :: 1 <= i < |cs| ==> cs[i] == cs[1..][i - 1];
      match cs[0]
      case Skip => UntouchedRowsKept(db, cs[1..], now, k);
      case Fail(_) =>
      case Tombstone(t) => UntouchedRowsKept(DestroyEvent(db, t), cs[1..], now, k);
      case Upsert(d) =>
        if UpsertEvent(db, d, now).Ok? {
          UntouchedRowsKept(UpsertEvent(db, d, now).value, cs[1..], now, k);
        }
    }
  }

  lemma {:induction false} ApplyKeepsValid(db: Db, cs: seq<Change>, now: Instant)
    requires Valid(db)
    ensures Valid(ApplyChanges(db, cs, now).db)
    decreases |cs|
  {
    if cs != [] {
      match cs[0]
      case Skip => ApplyKeepsValid(db, cs[1..], now);
      case Fail(_) =>
      case Tombstone(k) =>
        DestroyEventKeepsValid(db, k);
        ApplyKeepsValid(DestroyEvent(db, k), cs[1..], now);
      case Upsert(d) =>
        if UpsertEvent(db, d, now).Ok? {
          UpsertKeepsValid(db, d, now);
          ApplyKeepsValid(UpsertEvent(db, d, now).value, cs[1..], now);
        }
    }
  }

  /** Whether an upsert succeeds depends on the calendar it names, not on the `Events` table:
      two states that agree on which of those calendars exist give the same count and error. */
  lemma {:induction false} ApplyOutcomeIgnoresEvents(db1: Db, db2: Db, cs: seq<Change>, now: Instant)
    requires forall i :: 0 <= i < |cs| && cs[i].Upsert? ==>
               (cs[i].data.calendarId in db1.calendars <==> cs[i].data.calendarId in db2.calendars)
    ensures ApplyChanges(db1, cs, now).failure == ApplyChanges(db2, cs, now).failure
    ensures ApplyChanges(db1, cs, now).upserted == ApplyChanges(db2, cs, now).upserted
    decreases |cs|
  {
    if cs != [] {
      assert forall i :: 1 <= i < |cs| ==> cs[i] == cs[1..][i - 1];
      match cs[0]
      case Skip => ApplyOutcomeIgnoresEvents(db1, db2, cs[1..], now);
      case Fail(_) =>
      case Tombstone(k) => ApplyOutcomeIgnoresEvents(DestroyEvent(db1, k), DestroyEvent(db2, k), cs[1..], now);
      case Upsert(d) =>
        if UpsertEvent(db1, d, now).Ok? {
          ApplyOutcomeIgnoresEvents(UpsertEvent(db1, d, now).value, UpsertEvent(db2, d, now).value, cs[1..], now);
        }
    }
  }

  /** Two batches aimed, change by change, at the same keys with the same kind of change (the
      same upstream items mapped at two different times). */
  predicate SameShape(cs1: seq<Change>, cs2: seq<Change>) {
    && |cs1| == |cs2|
    && forall i :: 0 <= i < |cs1| ==>
         && cs1[i].Target() == cs2[i].Target()
         && cs1[i].Skip? == cs2[i].Skip? && cs1[i].Tombstone? == cs2[i].Tombstone?
         && cs1[i].Upsert? == cs2[i].Upsert? && cs1[i].Fail? == cs2[i].Fail?
  }

  lemma MapsEqualByLookup(a: map<EventKey, Event>, b: map<EventKey, Event>)
    requires forall k :: Lookup(a, k) == Lookup(b, k)
    ensures a == b
  {
    assert forall k :: k in a <==> k in b by {
      forall k ensures k in a <==> k in b { assert Lookup(a, k).Some? == Lookup(b, k).Some?; }
    }
    forall k | k in a ensures a[k] == b[k] { assert Lookup(a, k) == Lookup(b, k); }
  }

  /** Replaying a batch is harmless: applying a batch on top of the state an identically shaped
      batch produced (the same items, mapped and applied at an earlier time) gives the same as
      applying it once. */
  lemma ReplayIsIdempotent(db: Db, cs1: seq<Change>, t1: Instant, cs2: seq<Change>, t2: Instant)
    requires SameShape(cs1, cs2)
    requires ApplyChanges(db, cs1, t1).failure.None?
    requires ApplyChanges(db, cs2, t2).failure.None?
    ensures ApplyChanges(ApplyChanges(db, cs1, t1).db, cs2, t2) == ApplyChanges(db, cs2, t2)
  {
    var db1 := ApplyChanges(db, cs1, t1).db;
    var twice := ApplyChanges(db1, cs2, t2);
    var once := ApplyChanges(db, cs2, t2);
    ApplySucceedsIff(db, cs2, t2);
    ApplySucceedsIff(db1, cs2, t2);
    assert twice.failure.None?;
    ApplyCountsUpserts(db1, cs2, t2);
    ApplyCountsUpserts(db, cs2, t2);
    forall k ensures Lookup(twice.db.events, k) == Lookup(once.db.events, k) {
      LastWriteWins(db1, cs2, t2, k);
      LastWriteWins(db, cs2, t2, k);
      if LastFor(cs2, k) < 0 {
        assert forall i :: 0 <= i < |cs1| ==> cs1[i].Target() != Some(k) by {
          forall i | 0 <= i < |cs1| ensures cs1[i].Target() != Some(k) { assert cs2[i].Target() != Some(k); }
        }
        UntouchedRowsKept(db, cs1, t1, k);
      }
    }
    MapsEqualByLookup(twice.db.events, once.db.events);
  }
}
