/** The database as the services see it: one object whose tables change in place. Each method
    is one Sequelize call and is proved against the function of the same name in `Models`. */
module Store {
  import opened Base
  import opened Models

  class Database {
    var calendars: map<nat, Calendar>
    var events: map<EventKey, Event>
    var nextId: nat

    function State(): Db
      reads this
    {
      Db(calendars, events, nextId)
    }

    /** An empty database whose id sequence starts at 1. */
    constructor ()
      ensures State() == Db(map[], map[], 1)
    {
      calendars := map[];
      events := map[];
      nextId := 1;
    }

    /** `Calendar.findByPk(id)`. */
    method FindCalendar(id: nat) returns (r: Option<Calendar>)
      requires Valid(State())
      ensures r.Some? <==> id in calendars
      ensures r.Some? ==> r.value == calendars[id] && r.value.id == id
    {
      if id in calendars {
        r := Some(calendars[id]);
      } else {
        r := None;
      }
    }

    /** `Calendar.findAll({ where: { isActive: true } })`: a scan of the table, in an order
        the database chooses, keeping the active rows. */
    method FindAllActive() returns (r: seq<Calendar>)
      requires Valid(State())
      ensures ActiveListing(State(), r)
    {
      var rest := calendars.Keys;
      r := [];
      while rest != {}
        invariant rest <= calendars.Keys
        invariant forall i :: 0 <= i < |r| ==>
          r[i].id in calendars && calendars[r[i].id] == r[i] && r[i].isActive && r[i].id !in rest
        invariant forall i, j :: 0 <= i < j < |r| ==> r[i].id != r[j].id
        invariant forall id :: id in calendars && calendars[id].isActive && id !in rest ==>
          exists i :: 0 <= i < |r| && r[i].id == id
        decreases rest
      {
        var id :| id in rest;
        ghost var r0 := r;
        if calendars[id].isActive {
          r := r + [calendars[id]];
          assert r[|r| - 1].id == id;
        }
        assert forall i :: 0 <= i < |r0| ==> r[i] == r0[i];
        rest := rest - {id};
      }
    }

    /** `Event.upsert(data)`; on an error nothing is written. */
    method UpsertEvent(d: EventData, now: Instant) returns (err: Option<SyncError>)
      modifies this
      ensures var u := Models.UpsertEvent(old(State()), d, now);
        && (u.Ok? ==> err.None? && State() == u.value)
        && (u.Err? ==> err == Some(u.error) && State() == old(State()))
    {
      var u := Models.UpsertEvent(State(), d, now);
      if u.Ok? {
        events := u.value.events;
        err := None;
      } else {
        err := Some(u.error);
      }
    }

    /** `Event.findOne({ where: key })` followed by `destroy()` when a row was found. */
    method DestroyEvent(k: EventKey)
      modifies this
      ensures State() == Models.DestroyEvent(old(State()), k)
    {
      if k in events {
        events := events - {k};
      }
    }

    /** `calendarRecord.update({ syncToken, lastSynced })`. */
    method UpdateSyncState(id: nat, token: Option<string>, lastSynced: Option<Instant>)
      requires id in calendars
      modifies this
      ensures State() == Models.UpdateSyncState(old(State()), id, token, lastSynced)
    {
      calendars := calendars[id := calendars[id].(syncToken := token, lastSynced := lastSynced)];
    }

    /** `Calendar.create(data)`. */
    method CreateCalendar(d: CalendarData, now: Instant) returns (r: Result<Calendar, SyncError>)
      modifies this
      ensures var c := Models.CreateCalendar(old(State()), d, now);
        && (c.Ok? ==> r == Ok(c.value.1) && State() == c.value.0)
        && (c.Err? ==> r == Err(c.error) && State() == old(State()))
    {
      var c := Models.CreateCalendar(State(), d, now);
      if c.Ok? {
        calendars, nextId := c.value.0.calendars, c.value.0.nextId;
        r := Ok(c.value.1);
      } else {
        r := Err(c.error);
      }
    }

    /** `calendar.destroy()` with the cascade to its events. */
    method DestroyCalendar(id: nat)
      modifies this
      ensures State() == Models.DestroyCalendar(old(State()), id)
    {
      calendars := calendars - {id};
      events := map k | k in events && k.calendarId != id :: events[k];
    }
  }

  /** `cals` lists every active calendar of `db` exactly once, as stored. */
  predicate ActiveListing(db: Db, cals: seq<Calendar>) {
    && (forall i :: 0 <= i < |cals| ==>
          cals[i].id in db.calendars && db.calendars[cals[i].id] == cals[i] && cals[i].isActive)
    && (forall i, j :: 0 <= i < j < |cals| ==> cals[i].id != cals[j].id)
    && (forall id :: id in db.calendars && db.calendars[id].isActive ==>
          exists i :: 0 <= i < |cals| && cals[i].id == id)
  }
}
