/** The two tables of the server, `Calendars` and `Events`, with the column rules of their
    schema (NOT NULL, defaults, column widths, unique indexes, the foreign key and its cascade).
    The database is a value `Db`; each store primitive the sync code calls is a function on it. */
module Models {
  import opened Base

  /** The natural key of an event: the unique index on `(calendarId, sourceEventId)`. */
  datatype EventKey = EventKey(calendarId: nat, sourceEventId: string)

  /** A stored row of `Events` (the surrogate `id` and the opaque `metadata` column are not modelled). */
  datatype Event = Event(
    calendarId: nat,
    sourceEventId: string,
    title: Option<string>,
    description: Option<string>,
    location: Option<string>,
    organizer: Option<string>,
    organizerEmail: Option<string>,
    organizerName: Option<string>,
    startTime: Instant,
    endTime: Instant,
    isAllDay: bool,
    attendees: Option<seq<string>>,
    status: Option<string>,
    recurrence: Option<string>,
    color: Option<string>,
    lastUpdated: Instant)
  {
    function Key(): EventKey { EventKey(calendarId, sourceEventId) }
  }

  /** The values handed to `Event.upsert`: NOT NULL columns may still be missing here. */
  datatype EventData = EventData(
    calendarId: nat,
    sourceEventId: string,
    title: Option<string>,
    description: Option<string>,
    location: Option<string>,
    organizer: Option<string>,
    organizerEmail: Option<string>,
    organizerName: Option<string>,
    startTime: Option<Instant>,
    endTime: Option<Instant>,
    isAllDay: Option<bool>,
    attendees: Option<seq<string>>,
    status: Option<string>,
    recurrence: Option<string>,
    color: Option<string>,
    lastUpdated: Option<Instant>)
  {
    function Key(): EventKey { EventKey(calendarId, sourceEventId) }
  }

  /** A stored row of `Calendars`; `createdAt` is the timestamp Sequelize adds. */
  datatype Calendar = Calendar(
    id: nat,
    provider: string,
    accountEmail: Option<string>,
    calendarIdentifier: string,
    displayName: Option<string>,
    color: Option<string>,
    accessToken: Option<string>,
    refreshToken: Option<string>,
    tokenExpiry: Option<Instant>,
    syncToken: Option<string>,
    lastSynced: Option<Instant>,
    isActive: bool,
    createdAt: Instant)

  /** The values handed to `Calendar.create`. */
  datatype CalendarData = CalendarData(
    provider: Option<string>,
    accountEmail: Option<string>,
    calendarIdentifier: Option<string>,
    displayName: Option<string>,
    color: Option<string>,
    accessToken: Option<string>,
    refreshToken: Option<string>,
    tokenExpiry: Option<Instant>,
    syncToken: Option<string>,
    lastSynced: Option<Instant>,
    isActive: Option<bool>)

  /** Every error the core raises, with the message `error.message` carries. */
  datatype SyncError =
    | CalendarNotFound(id: nat)
    | NotAnIcalCalendar(id: nat)
    | UnsupportedProvider(provider: string)
    | InvalidIcalUrl
    | UpstreamError(code: Option<int>, message: string)
    | FeedError(message: string)
    | NotNullViolation(table: string, columns: seq<string>)
    | ValueTooLong(width: nat)
    | UniqueViolation
    | ForeignKeyViolation
    | TypeError(message: string)
    | ReferenceError(name: string)

  function NotNullItems(table: string, columns: seq<string>): string
    decreases |columns|
  {
    if columns == [] then ""
    else
      var item := "notNull Violation: " + table + "." + columns[0] + " cannot be null";
      if |columns| == 1 then item else item + ",\n" + NotNullItems(table, columns[1..])
  }

  function Message(e: SyncError): string {
    match e
    case CalendarNotFound(id) => "Calendar with ID " + NatToString(id) + " not found"
    case NotAnIcalCalendar(id) => "Calendar with ID " + NatToString(id) + " is not an iCal calendar"
    case UnsupportedProvider(p) => "Unsupported calendar provider: " + p
    case InvalidIcalUrl => "Invalid iCal URL"
    case UpstreamError(_, m) => m
    case FeedError(m) => m
    case NotNullViolation(t, cs) => NotNullItems(t, cs)
    case ValueTooLong(w) => "value too long for type character varying(" + NatToString(w) + ")"
    case UniqueViolation => "Validation error"
    case ForeignKeyViolation =>
      "insert or update on table \"Events\" violates foreign key constraint \"Events_calendarId_fkey\""
    case TypeError(m) => m
    case ReferenceError(name) => name + " is not defined"
  }

  /** JavaScript truthiness of an optional string: present and not empty. */
  predicate Truthy(s: Option<string>) {
    s.Some? && s.value != ""
  }

  /** A `VARCHAR(width)` column accepts the value. */
  predicate Fits(s: Option<string>, width: nat) {
    s.None? || |s.value| <= width
  }

  /** The first `VARCHAR` column, in table order, whose value is too wide; its width. */
  function FirstTooWide(cols: seq<(Option<string>, nat)>): (w: Option<nat>)
    ensures w.None? <==> forall i :: 0 <= i < |cols| ==> Fits(cols[i].0, cols[i].1)
    ensures w.Some? ==> exists i :: 0 <= i < |cols| && !Fits(cols[i].0, cols[i].1) && w.value == cols[i].1
  {
    if cols == [] then None
    else if !Fits(cols[0].0, cols[0].1) then Some(cols[0].1)
    else
      var w := FirstTooWide(cols[1..]);
      assert forall i :: 1 <= i < |cols| ==> cols[i] == cols[1..][i - 1];
      w
  }

  function EventWidths(d: EventData): seq<(Option<string>, nat)> {
    [(Some(d.sourceEventId), 255), (d.organizerEmail, 255), (d.organizerName, 255),
     (d.status, 20), (d.color, 20)]
  }

  predicate EventFits(e: Event) {
    |e.sourceEventId| <= 255 && Fits(e.organizerEmail, 255) && Fits(e.organizerName, 255)
    && Fits(e.status, 20) && Fits(e.color, 20)
  }

  function MissingEventColumns(d: EventData): seq<string> {
    (if d.startTime.None? then ["startTime"] else []) + (if d.endTime.None? then ["endTime"] else [])
  }

  /** The row `Event.upsert` writes for `d`: Sequelize's NOT NULL check first, then the column
      widths the database enforces, then the defaults `isAllDay = false` and `lastUpdated = now`. */
  function BuildEvent(d: EventData, now: Instant): (r: Result<Event, SyncError>)
    ensures r.Ok? <==> d.startTime.Some? && d.endTime.Some? && FirstTooWide(EventWidths(d)).None?
    ensures d.startTime.None? || d.endTime.None? ==> r == Err(NotNullViolation("Events", MissingEventColumns(d)))
    ensures r.Ok? ==> var e := r.value;
      && e.Key() == d.Key() && EventFits(e)
      && e.startTime == d.startTime.value && e.endTime == d.endTime.value
      && e.isAllDay == d.isAllDay.GetOr(false) && e.lastUpdated == d.lastUpdated.GetOr(now)
      && e.title == d.title && e.description == d.description && e.location == d.location
      && e.organizer == d.organizer && e.organizerEmail == d.organizerEmail
      && e.organizerName == d.organizerName && e.attendees == d.attendees
      && e.status == d.status && e.recurrence == d.recurrence && e.color == d.color
  {
    var missing := MissingEventColumns(d);
    if missing != [] then Err(NotNullViolation("Events", missing))
    else
      var wide := FirstTooWide(EventWidths(d));
      if wide.Some? then Err(ValueTooLong(wide.value))
      else
        var ws := EventWidths(d);
        assert Fits(ws[0].0, ws[0].1) && Fits(ws[1].0, ws[1].1) && Fits(ws[2].0, ws[2].1);
        assert Fits(ws[3].0, ws[3].1) && Fits(ws[4].0, ws[4].1);
        Ok(Event(d.calendarId, d.sourceEventId, d.title, d.description, d.location,
                 d.organizer, d.organizerEmail, d.organizerName,
                 d.startTime.value, d.endTime.value, d.isAllDay.GetOr(false),
                 d.attendees, d.status, d.recurrence, d.color, d.lastUpdated.GetOr(now)))
  }

  predicate CalendarFits(c: Calendar) {
    |c.provider| <= 20 && Fits(c.accountEmail, 255) && |c.calendarIdentifier| <= 255
    && Fits(c.displayName, 255) && Fits(c.color, 20)
  }

  /** The columns of the unique index on `Calendars`. */
  function Identity(c: Calendar): (string, string) {
    (c.provider, c.calendarIdentifier)
  }

  /** The whole database: `Calendars` by primary key, `Events` by natural key, and the next
      value of the auto-increment sequence of `Calendars.id`. */
  datatype Db = Db(calendars: map<nat, Calendar>, events: map<EventKey, Event>, nextId: nat)

  /** What the schema guarantees of every state: primary keys match, `(provider,
      calendarIdentifier)` is unique, every event sits under its own natural key and points
      at an existing calendar, and every value fits its column. */
  predicate Valid(db: Db) {
    && (forall id :: id in db.calendars ==>
          db.calendars[id].id == id && id < db.nextId && CalendarFits(db.calendars[id]))
    && (forall id1, id2 :: id1 in db.calendars && id2 in db.calendars && id1 != id2 ==>
          Identity(db.calendars[id1]) != Identity(db.calendars[id2]))
    && (forall k :: k in db.events ==>
          db.events[k].Key() == k && k.calendarId in db.calendars && EventFits(db.events[k]))
  }

  /** No two stored events share `(calendarId, sourceEventId)`. The unique index holds by
      construction: the table is a map keyed by that natural key, and `Valid` asks that every
      row sit under its own key, so this follows from the distinctness of map keys. */
  lemma NaturalKeyUnique(db: Db, k1: EventKey, k2: EventKey)
    requires Valid(db) && k1 in db.events && k2 in db.events && k1 != k2
    ensures db.events[k1].Key() != db.events[k2].Key()
  {
  }

  /** No two stored calendars share `(provider, calendarIdentifier)`. */
  lemma CalendarIdentityUnique(db: Db, id1: nat, id2: nat)
    requires Valid(db) && id1 in db.calendars && id2 in db.calendars
    requires Identity(db.calendars[id1]) == Identity(db.calendars[id2])
    ensures id1 == id2
  {
  }

  /** `Event.upsert`: insert or replace the row under the natural key of `d`. */
  function UpsertEvent(db: Db, d: EventData, now: Instant): (r: Result<Db, SyncError>)
    ensures r.Ok? <==> BuildEvent(d, now).Ok? && d.calendarId in db.calendars
    ensures BuildEvent(d, now).Ok? && d.calendarId !in db.calendars ==> r == Err(ForeignKeyViolation)
    ensures BuildEvent(d, now).Err? ==> r == Err(BuildEvent(d, now).error)
    ensures r.Ok? ==> r.value == db.(events := db.events[d.Key() := BuildEvent(d, now).value])
  {
    match BuildEvent(d, now)
    case Err(e) => Err(e)
    case Ok(e) =>
      if d.calendarId !in db.calendars then Err(ForeignKeyViolation)
      else Ok(db.(events := db.events[e.Key() := e]))
  }

  /** Looking up the row under a natural key and destroying it when it is there. */
  function DestroyEvent(db: Db, k: EventKey): (r: Db)
    ensures r.calendars == db.calendars && r.nextId == db.nextId
    ensures k !in r.events && r.events.Keys == db.events.Keys - {k}
    ensures forall k' :: k' in r.events ==> r.events[k'] == db.events[k']
    ensures k !in db.events ==> r == db
  {
    if k in db.events then db.(events := db.events - {k}) else db
  }

  /** `calendarRecord.update(...)` of the sync columns of one existing calendar. */
  function UpdateSyncState(db: Db, id: nat, token: Option<string>, lastSynced: Option<Instant>): (r: Db)
    requires id in db.calendars
    ensures r.events == db.events && r.nextId == db.nextId && r.calendars.Keys == db.calendars.Keys
    ensures r.calendars[id] == db.calendars[id].(syncToken := token, lastSynced := lastSynced)
    ensures forall other :: other in db.calendars && other != id ==> r.calendars[other] == db.calendars[other]
  {
    db.(calendars := db.calendars[id := db.calendars[id].(syncToken := token, lastSynced := lastSynced)])
  }

  /** `after` is `before` with at most its sync columns changed. */
  predicate SyncColumnsOnly(before: Calendar, after: Calendar) {
    after == before.(syncToken := after.syncToken, lastSynced := after.lastSynced)
  }

  function MissingCalendarColumns(d: CalendarData): seq<string> {
    (if d.provider.None? then ["provider"] else [])
    + (if d.calendarIdentifier.None? then ["calendarIdentifier"] else [])
  }

  function CalendarWidths(d: CalendarData): seq<(Option<string>, nat)> {
    [(d.provider, 20), (d.accountEmail, 255), (d.calendarIdentifier, 255), (d.displayName, 255),
     (d.color, 20)]
  }

  predicate IdentityTaken(db: Db, provider: string, identifier: string) {
    exists id :: id in db.calendars && Identity(db.calendars[id]) == (provider, identifier)
  }

  /** `Calendar.create`: NOT NULL check, column widths, the unique index, then the row with the
      next id, `isActive` defaulting to true and `createdAt = now`. */
  function CreateCalendar(db: Db, d: CalendarData, now: Instant): (r: Result<(Db, Calendar), SyncError>)
    ensures MissingCalendarColumns(d) != [] ==> r == Err(NotNullViolation("Calendars", MissingCalendarColumns(d)))
    ensures r.Ok? <==> && d.provider.Some? && d.calendarIdentifier.Some?
                       && FirstTooWide(CalendarWidths(d)).None?
                       && !IdentityTaken(db, d.provider.value, d.calendarIdentifier.value)
    ensures r.Err? && MissingCalendarColumns(d) == [] && FirstTooWide(CalendarWidths(d)).None? ==>
              r == Err(UniqueViolation)
    ensures r.Ok? ==> var (db', c) := r.value;
      && c.id == db.nextId
      && db' == Db(db.calendars[c.id := c], db.events, db.nextId + 1)
      && c.provider == d.provider.value && c.calendarIdentifier == d.calendarIdentifier.value
      && c.isActive == d.isActive.GetOr(true) && c.createdAt == now
      && c.accountEmail == d.accountEmail && c.displayName == d.displayName && c.color == d.color
      && c.accessToken == d.accessToken && c.refreshToken == d.refreshToken
      && c.tokenExpiry == d.tokenExpiry && c.syncToken == d.syncToken && c.lastSynced == d.lastSynced
  {
    var missing := MissingCalendarColumns(d);
    if missing != [] then Err(NotNullViolation("Calendars", missing))
    else
      var wide := FirstTooWide(CalendarWidths(d));
      if wide.Some? then Err(ValueTooLong(wide.value))
      else if IdentityTaken(db, d.provider.value, d.calendarIdentifier.value) then Err(UniqueViolation)
      else
        var c := Calendar(db.nextId, d.provider.value, d.accountEmail, d.calendarIdentifier.value,
                          d.displayName, d.color, d.accessToken, d.refreshToken, d.tokenExpiry,
                          d.syncToken, d.lastSynced, d.isActive.GetOr(true), now);
        Ok((Db(db.calendars[c.id := c], db.events, db.nextId + 1), c))
  }

  /** `calendar.destroy()`: the row goes, and with it every event that references it (the
      `ON DELETE CASCADE` of `Events.calendarId`). */
  function DestroyCalendar(db: Db, id: nat): (r: Db)
    ensures r.calendars == db.calendars - {id} && r.nextId == db.nextId
    ensures forall k :: k in r.events <==> k in db.events && k.calendarId != id
    ensures forall k :: k in r.events ==> r.events[k] == db.events[k]
  {
    Db(db.calendars - {id}, map k | k in db.events && k.calendarId != id :: db.events[k], db.nextId)
  }

  lemma UpsertKeepsValid(db: Db, d: EventData, now: Instant)
    requires Valid(db) && UpsertEvent(db, d, now).Ok?
    ensures Valid(UpsertEvent(db, d, now).value)
  {
  }

  lemma DestroyEventKeepsValid(db: Db, k: EventKey)
    requires Valid(db)
    ensures Valid(DestroyEvent(db, k))
  {
  }

  lemma UpdateSyncStateKeepsValid(db: Db, id: nat, token: Option<string>, last: Option<Instant>)
    requires Valid(db) && id in db.calendars
    ensures Valid(UpdateSyncState(db, id, token, last))
  {
    var r := UpdateSyncState(db, id, token, last);
    forall id1, id2 | id1 in r.calendars && id2 in r.calendars && id1 != id2
      ensures Identity(r.calendars[id1]) != Identity(r.calendars[id2])
    {
      assert Identity(r.calendars[id1]) == Identity(db.calendars[id1]);
      assert Identity(r.calendars[id2]) == Identity(db.calendars[id2]);
    }
  }

  lemma CreateCalendarKeepsValid(db: Db, d: CalendarData, now: Instant)
    requires Valid(db) && CreateCalendar(db, d, now).Ok?
    ensures Valid(CreateCalendar(db, d, now).value.0)
  {
    var (r, c) := CreateCalendar(db, d, now).value;
    assert c.id !in db.calendars;
    assert CalendarFits(c) by {
      var ws := CalendarWidths(d);
      assert Fits(ws[0].0, ws[0].1) && Fits(ws[1].0, ws[1].1) && Fits(ws[2].0, ws[2].1);
      assert Fits(ws[3].0, ws[3].1) && Fits(ws[4].0, ws[4].1);
    }
    forall id1, id2 | id1 in r.calendars && id2 in r.calendars && id1 != id2
      ensures Identity(r.calendars[id1]) != Identity(r.calendars[id2])
    {
      if id1 == c.id {
        assert id2 in db.calendars;
      } else if id2 == c.id {
        assert id1 in db.calendars;
      }
    }
  }

  /** Destroying a calendar leaves no event of it behind and keeps the schema's guarantees. */
  lemma DestroyCalendarCascades(db: Db, id: nat)
    requires Valid(db)
    ensures Valid(DestroyCalendar(db, id))
    ensures forall k :: k in DestroyCalendar(db, id).events ==> k.calendarId != id
    ensures forall k :: k in db.events && k.calendarId != id ==> k in DestroyCalendar(db, id).events
  {
  }
}
