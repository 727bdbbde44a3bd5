/** Google Calendar sync: choosing between an incremental and a windowed `events.list`
    request, saving the next sync token, the fallback when Google answers 410 (the token has
    expired), flattening each item into an `Events` row, and the store loop. The Google API is
    a function parameter; the sequence of store calls is the one the service makes. */
module GoogleSync {
  import opened Base
  import opened Models
  import opened Reconcile
  import opened Store

  /** `start` / `end` of an item: `dateTime` for timed events, `date` for all-day ones. */
  datatype GoogleTime = GoogleTime(dateTime: Option<Instant>, date: Option<Instant>)

  datatype GooglePerson = GooglePerson(email: Option<string>, displayName: Option<string>)

  /** The fields of an `events.list` item the sync reads. */
  datatype GoogleItem = GoogleItem(
    id: string,
    status: Option<string>,
    summary: Option<string>,
    description: Option<string>,
    location: Option<string>,
    organizer: Option<GooglePerson>,
    start: GoogleTime,
    end: GoogleTime,
    recurrence: Option<seq<string>>,
    colorId: Option<string>,
    attendees: Option<seq<GooglePerson>>)

  /** The caller's `options`; `None` is a key that is absent. */
  datatype SyncOptions = SyncOptions(
    fullSync: bool, timeMin: Option<Instant>, timeMax: Option<Instant>, maxResults: Option<int>)

  const NoOptions := SyncOptions(false, None, None, None)

  /** The current time and `date.setMonth(date.getMonth() + n)` as a function of the instant. */
  datatype Clock = Clock(now: Instant, addMonths: (Instant, int) -> Instant)

  /** What `oauth2Client.setCredentials` receives. */
  datatype Credentials = Credentials(accessToken: Option<string>, refreshToken: Option<string>, expiry: Option<Instant>)

  /** The `params` object handed to `calendar.events.list`. `fullSync` is the key the spread
      of `options` copies in; `false` stands for an absent key as well. */
  datatype ListRequest = ListRequest(
    calendarId: string,
    maxResults: int,
    singleEvents: bool,
    orderBy: string,
    syncToken: Option<string>,
    timeMin: Option<Instant>,
    timeMax: Option<Instant>,
    fullSync: bool)

  datatype ListResponse = ListResponse(items: seq<GoogleItem>, nextSyncToken: Option<string>)

  /** A rejected call: the HTTP status in `code` and the error message. */
  datatype UpstreamFailure = UpstreamFailure(code: Option<int>, message: string)

  type EventsApi = (Credentials, ListRequest) -> Result<ListResponse, UpstreamFailure>

  function CredentialsOf(cal: Calendar): Credentials {
    Credentials(cal.accessToken, cal.refreshToken, cal.tokenExpiry)
  }

  /** The request is incremental when the calendar holds a non-empty token and no full sync
      is asked for. */
  predicate UsesSyncToken(cal: Calendar, opts: SyncOptions) {
    Truthy(cal.syncToken) && !opts.fullSync
  }

  function WindowStart(opts: SyncOptions, clock: Clock): Instant {
    opts.timeMin.GetOr(clock.now)
  }

  /** The upper bound is the supplied `timeMax`, or else the lower bound, moved three months on. */
  function WindowEnd(opts: SyncOptions, clock: Clock): Instant {
    clock.addMonths(opts.timeMax.GetOr(WindowStart(opts, clock)), 3)
  }

  function BuildListRequest(cal: Calendar, opts: SyncOptions, clock: Clock): (q: ListRequest)
    ensures q.calendarId == cal.calendarIdentifier && q.singleEvents && q.orderBy == "startTime"
    ensures q.maxResults == opts.maxResults.GetOr(2500) && q.fullSync == opts.fullSync
    ensures q.syncToken.Some? <==> UsesSyncToken(cal, opts)
    ensures UsesSyncToken(cal, opts) ==>
      q.syncToken == cal.syncToken && q.timeMin == opts.timeMin && q.timeMax == opts.timeMax
    ensures !UsesSyncToken(cal, opts) ==>
      q.timeMin == Some(WindowStart(opts, clock)) && q.timeMax == Some(WindowEnd(opts, clock))
  {
    // the spread of `options` wins over the defaults written before it
    var base := ListRequest(cal.calendarIdentifier, opts.maxResults.GetOr(2500), true, "startTime",
                            None, opts.timeMin, opts.timeMax, opts.fullSync);
    if UsesSyncToken(cal, opts) then base.(syncToken := cal.syncToken)
    else base.(timeMin := Some(WindowStart(opts, clock)), timeMax := Some(WindowEnd(opts, clock)))
  }

  /** A calendar without a token always gets a windowed request. */
  lemma NullTokenMeansWindow(cal: Calendar, opts: SyncOptions, clock: Clock)
    requires cal.syncToken.None?
    ensures BuildListRequest(cal, opts, clock).syncToken.None?
    ensures BuildListRequest(cal, opts, clock).timeMin == Some(WindowStart(opts, clock))
  {
  }

  /** A full-sync request never carries a token, so the 410 fallback cannot hit the same
      expired token again. */
  lemma FullSyncSendsNoToken(cal: Calendar, opts: SyncOptions, clock: Clock)
    requires opts.fullSync
    ensures BuildListRequest(cal, opts, clock).syncToken.None?
  {
  }

  /** The caller's `options.timeMax` after the request was built: `setMonth` moves a supplied
      `timeMax` in place whenever the windowed branch runs. */
  function TimeMaxAfter(cal: Calendar, opts: SyncOptions, clock: Clock): (t: Option<Instant>)
    ensures opts.timeMax.None? ==> t.None?
    ensures UsesSyncToken(cal, opts) ==> t == opts.timeMax
    ensures !UsesSyncToken(cal, opts) && opts.timeMax.Some? ==> t == BuildListRequest(cal, opts, clock).timeMax
  {
    if !UsesSyncToken(cal, opts) && opts.timeMax.Some? then Some(clock.addMonths(opts.timeMax.value, 3))
    else opts.timeMax
  }

  /** The database after a fetch, what it returned, and the caller's `options.timeMax`. */
  datatype Fetched = Fetched(db: Db, result: Result<ListResponse, SyncError>, timeMax: Option<Instant>)

  /** One pass through the `try` block of `fetchEvents`. */
  function Attempt(db: Db, id: nat, opts: SyncOptions, clock: Clock, api: EventsApi): (f: Fetched)
    ensures f.db.events == db.events && f.db.nextId == db.nextId && f.db.calendars.Keys == db.calendars.Keys
    ensures forall other :: other in db.calendars && other != id ==> f.db.calendars[other] == db.calendars[other]
    ensures id in db.calendars ==> SyncColumnsOnly(db.calendars[id], f.db.calendars[id])
    ensures opts.timeMax.None? ==> f.timeMax.None?
    ensures id !in db.calendars ==> f == Fetched(db, Err(CalendarNotFound(id)), opts.timeMax)
    ensures f.result.Err? ==> f.db == db
    ensures f.result.Err? && f.result.error.UpstreamError? ==> id in db.calendars
    ensures f.result.Ok? ==> id in db.calendars
    ensures f.result.Ok? && Truthy(f.result.value.nextSyncToken) ==>
      f.db.calendars[id] == db.calendars[id].(syncToken := f.result.value.nextSyncToken, lastSynced := Some(clock.now))
    ensures f.result.Ok? && !Truthy(f.result.value.nextSyncToken) ==> f.db == db
  {
    if id !in db.calendars then Fetched(db, Err(CalendarNotFound(id)), opts.timeMax)
    else
      var cal := db.calendars[id];
      var timeMax := TimeMaxAfter(cal, opts, clock);
      match api(CredentialsOf(cal), BuildListRequest(cal, opts, clock))
      case Err(failure) => Fetched(db, Err(UpstreamError(failure.code, failure.message)), timeMax)
      case Ok(resp) =>
        if Truthy(resp.nextSyncToken) then
          Fetched(UpdateSyncState(db, id, resp.nextSyncToken, Some(clock.now)), Ok(resp), timeMax)
        else Fetched(db, Ok(resp), timeMax)
  }

  predicate IsGone(e: SyncError) {
    e.UpstreamError? && e.code == Some(410)
  }

  /** The state after the token is cleared by `update({ syncToken: null })`. */
  function ClearSyncToken(db: Db, id: nat): (r: Db)
    requires id in db.calendars
    ensures r.events == db.events && r.nextId == db.nextId && r.calendars.Keys == db.calendars.Keys
    ensures r.calendars[id] == db.calendars[id].(syncToken := None)
    ensures forall other :: other in db.calendars && other != id ==> r.calendars[other] == db.calendars[other]
    ensures forall opts: SyncOptions :: !UsesSyncToken(r.calendars[id], opts)
  {
    UpdateSyncState(db, id, None, db.calendars[id].lastSynced)
  }

  /** The options of the retry: `{ ...options, fullSync: true }` shares the caller's `timeMax`. */
  function RetryOptions(opts: SyncOptions, timeMax: Option<Instant>): SyncOptions {
    opts.(fullSync := true, timeMax := timeMax)
  }

  /** `fetchEvents` as intended: on a 410 the token is cleared and the fetch runs once more as
      a full sync. */
  function FetchOutcome(db: Db, id: nat, opts: SyncOptions, clock: Clock, api: EventsApi): (f: Fetched)
    ensures f.db.events == db.events && f.db.nextId == db.nextId && f.db.calendars.Keys == db.calendars.Keys
    ensures forall other :: other in db.calendars && other != id ==> f.db.calendars[other] == db.calendars[other]
    ensures id in db.calendars ==> SyncColumnsOnly(db.calendars[id], f.db.calendars[id])
    ensures opts.timeMax.None? ==> f.timeMax.None?
    ensures f.result.Ok? ==> id in db.calendars
  {
    var first := Attempt(db, id, opts, clock, api);
    if first.result.Err? && IsGone(first.result.error) then
      Attempt(ClearSyncToken(db, id), id, RetryOptions(opts, first.timeMax), clock, api)
    else first
  }

  /** `fetchEvents` as written: the `catch` block names `calendarRecord`, a `const` of the
      `try` block, so a 410 raises a ReferenceError and the token is never cleared. */
  function FetchOutcomeAsWritten(db: Db, id: nat, opts: SyncOptions, clock: Clock, api: EventsApi): (f: Fetched)
    ensures f.db.events == db.events && f.db.calendars.Keys == db.calendars.Keys
  {
    var first := Attempt(db, id, opts, clock, api);
    if first.result.Err? && IsGone(first.result.error) then
      Fetched(first.db, Err(ReferenceError("calendarRecord")), first.timeMax)
    else first
  }

  /** On a 410 the intended fetch clears the token, retries exactly once without a token, and
      leaves the calendar with the retry's token or none. */
  lemma ExpiredTokenFallsBack(db: Db, id: nat, opts: SyncOptions, clock: Clock, api: EventsApi)
    requires var first := Attempt(db, id, opts, clock, api); first.result.Err? && IsGone(first.result.error)
    ensures id in db.calendars
    ensures var first := Attempt(db, id, opts, clock, api);
      var cleared := ClearSyncToken(db, id);
      && BuildListRequest(cleared.calendars[id], RetryOptions(opts, first.timeMax), clock).syncToken.None?
      && BuildListRequest(cleared.calendars[id], RetryOptions(opts, first.timeMax), clock).fullSync
      && FetchOutcome(db, id, opts, clock, api) == Attempt(cleared, id, RetryOptions(opts, first.timeMax), clock, api)
    ensures var f := FetchOutcome(db, id, opts, clock, api);
      f.db.calendars[id].syncToken ==
        (if f.result.Ok? && Truthy(f.result.value.nextSyncToken) then f.result.value.nextSyncToken else None)
  {
  }

  /** As written, a 410 leaves the state as it was, so the expired token stays and every later
      sync fails the same way. */
  lemma AsWrittenExpiredTokenSticks(db: Db, id: nat, opts: SyncOptions, clock: Clock, api: EventsApi)
    requires var first := Attempt(db, id, opts, clock, api); first.result.Err? && IsGone(first.result.error)
    ensures FetchOutcomeAsWritten(db, id, opts, clock, api).result == Err(ReferenceError("calendarRecord"))
    ensures FetchOutcomeAsWritten(db, id, opts, clock, api).db == db
  {
  }

  /** A calendar holding a token that Google reports as expired. */
  const StaleCalendar := Calendar(1, "google", None, "primary", None, None, None, None, None,
                                  Some("stale"), None, true, 0)
  const StaleDb := Db(map[1 := StaleCalendar], map[], 2)
  const FixedClock := Clock(0, (t: Instant, n: int) => t)

  /** An API that rejects every token with 410 and answers a windowed request with a new token. */
  const ExpiringApi: EventsApi := (c: Credentials, q: ListRequest) =>
    if q.syncToken.Some? then Err(UpstreamFailure(Some(410), "Sync token is no longer valid"))
    else Ok(ListResponse([], Some("fresh")))

  /** On that calendar the code as written fails with "calendarRecord is not defined" and keeps
      the stale token; the intended fallback succeeds and stores the new token. */
  lemma ExpiredTokenCounterexample()
    ensures Message(FetchOutcomeAsWritten(StaleDb, 1, NoOptions, FixedClock, ExpiringApi).result.error)
              == "calendarRecord is not defined"
    ensures FetchOutcomeAsWritten(StaleDb, 1, NoOptions, FixedClock, ExpiringApi).db.calendars[1].syncToken == Some("stale")
    ensures FetchOutcome(StaleDb, 1, NoOptions, FixedClock, ExpiringApi).result.Ok?
    ensures FetchOutcome(StaleDb, 1, NoOptions, FixedClock, ExpiringApi).db.calendars[1].syncToken == Some("fresh")
  {
    assert UsesSyncToken(StaleCalendar, NoOptions);
    var q := BuildListRequest(StaleCalendar, NoOptions, FixedClock);
    assert q.syncToken == Some("stale");
    var first := Attempt(StaleDb, 1, NoOptions, FixedClock, ExpiringApi);
    assert first.result == Err(UpstreamError(Some(410), "Sync token is no longer valid"));
    assert FetchOutcomeAsWritten(StaleDb, 1, NoOptions, FixedClock, ExpiringApi).result == Err(ReferenceError("calendarRecord"));
    var cleared := ClearSyncToken(StaleDb, 1);
    var retry := RetryOptions(NoOptions, first.timeMax);
    assert !UsesSyncToken(cleared.calendars[1], retry);
    var q2 := BuildListRequest(cleared.calendars[1], retry, FixedClock);
    assert ExpiringApi(CredentialsOf(cleared.calendars[1]), q2) == Ok(ListResponse([], Some("fresh")));
  }

  // ---- Field mapping of one item ----

  function NameOrEmpty(s: Option<string>): string {
    if Truthy(s) then s.value else ""
  }

  /** A template literal `${x}` of a possibly undefined string. */
  function Interpolated(s: Option<string>): string {
    if s.Some? then s.value else "undefined"
  }

  /** `\`${displayName || ''} <${email}>\`.trim()`. */
  function OrganizerLine(p: GooglePerson): (r: string)
    ensures var addr := "<" + Interpolated(p.email) + ">"; |addr| <= |r| && r[|r| - |addr|..] == addr
  {
    var addr := "<" + Interpolated(p.email) + ">";
    var s := NameOrEmpty(p.displayName) + " " + addr;
    assert s == NameOrEmpty(p.displayName) + " <" + Interpolated(p.email) + ">";
    TrimOfNonBlankEnd(s);
    EndIsKept(s, addr);
    Trim(s)
  }

  /** Leading whitespace never reaches into a suffix that starts with `<`. */
  lemma EndIsKept(s: string, addr: string)
    requires |addr| <= |s| && s[|s| - |addr|..] == addr && addr != [] && addr[0] == '<'
    ensures var t := TrimStart(s); |addr| <= |t| && t[|t| - |addr|..] == addr
  {
    var t := TrimStart(s);
    assert s[|s| - |addr|] == '<';
  }

  /** The organizer line is the name without its leading blanks, a space and the address in
      angle brackets, or the bracketed address alone when the name is absent or blank. */
  lemma OrganizerLineShape(p: GooglePerson)
    ensures var name := TrimStart(NameOrEmpty(p.displayName));
      var addr := "<" + Interpolated(p.email) + ">";
      OrganizerLine(p) == if name == [] then addr else name + " " + addr
  {
    var a := NameOrEmpty(p.displayName);
    var e := Interpolated(p.email);
    var addr := "<" + e + ">";
    var b := " " + addr;
    var s := a + " <" + e + ">";
    assert s == a + b == a + " " + addr;
    assert s[|s| - 1] == '>';
    TrimOfNonBlankEnd(s);
    TrimStartConcat(a, b);
    LeadingSpaceDropped(addr);
  }

  lemma LeadingSpaceDropped(addr: string)
    requires addr != [] && addr[0] == '<'
    ensures TrimStart(" " + addr) == addr
  {
    assert (" " + addr)[1..] == addr;
  }

  /** An attendee is named by the email, else the display name, else 'Unknown'. */
  function AttendeeLabel(p: GooglePerson): (r: string)
    ensures Truthy(p.email) ==> r == p.email.value
    ensures !Truthy(p.email) && Truthy(p.displayName) ==> r == p.displayName.value
    ensures !Truthy(p.email) && !Truthy(p.displayName) ==> r == "Unknown"
    ensures r != ""
  {
    if Truthy(p.email) then p.email.value
    else if Truthy(p.displayName) then p.displayName.value
    else "Unknown"
  }

  /** The `attendees` value, set only for a non-empty list, in the list's order. */
  function GoogleAttendees(ps: Option<seq<GooglePerson>>): (r: Option<seq<string>>)
    ensures r.Some? <==> ps.Some? && |ps.value| > 0
    ensures r.Some? ==> (|r.value| == |ps.value| &&
      forall i :: 0 <= i < |ps.value| ==> r.value[i] == AttendeeLabel(ps.value[i]))
  {
    if ps.Some? && |ps.value| > 0 then Some(seq(|ps.value|, i requires 0 <= i < |ps.value| => AttendeeLabel(ps.value[i])))
    else None
  }

  /** `dateTime || date`. */
  function InstantOf(t: GoogleTime): Option<Instant> {
    if t.dateTime.Some? then t.dateTime else t.date
  }

  /** `recurrence.join('\n')` for any list, the empty one included, since an array is truthy. */
  function GoogleRecurrence(rules: Option<seq<string>>): (r: Option<string>)
    ensures r.Some? <==> rules.Some?
    ensures rules == Some([]) ==> r == Some("")
    ensures rules.Some? && |rules.value| == 1 ==> r == Some(rules.value[0])
  {
    if rules.Some? then Some(Join(rules.value, '\n')) else None
  }

  /** The recurrence rules can be read back by splitting on newlines. */
  lemma RecurrenceRoundTrip(rules: seq<string>)
    requires |rules| >= 1
    requires forall i, j :: 0 <= i < |rules| && 0 <= j < |rules[i]| ==> rules[i][j] != '\n'
    ensures Split(GoogleRecurrence(Some(rules)).value, '\n') == rules
  {
    SplitJoin(rules, '\n');
  }

  /** The values `processAndStoreEvents` hands to `Event.upsert` for a kept item. */
  function GoogleEventData(calendarId: nat, item: GoogleItem, now: Instant): (d: EventData)
    ensures d.Key() == EventKey(calendarId, item.id)
    ensures d.startTime == InstantOf(item.start) && d.endTime == InstantOf(item.end)
    ensures d.isAllDay == Some(item.start.dateTime.None?)
    ensures item.organizer.None? ==> d.organizer.None? && d.organizerEmail.None? && d.organizerName.None?
    ensures item.organizer.Some? ==> (d.organizer == Some(OrganizerLine(item.organizer.value))
      && d.organizerEmail == item.organizer.value.email && d.organizerName == item.organizer.value.displayName)
    ensures d.attendees == GoogleAttendees(item.attendees)
    ensures d.recurrence == GoogleRecurrence(item.recurrence)
    ensures d.status == item.status && d.color == item.colorId && d.lastUpdated == Some(now)
  {
    var org := item.organizer;
    EventData(calendarId, item.id, item.summary, item.description, item.location,
              if org.Some? then Some(OrganizerLine(org.value)) else None,
              if org.Some? then org.value.email else None,
              if org.Some? then org.value.displayName else None,
              InstantOf(item.start), InstantOf(item.end), Some(item.start.dateTime.None?),
              GoogleAttendees(item.attendees), item.status, GoogleRecurrence(item.recurrence),
              item.colorId, Some(now))
  }

  predicate IsCancelled(item: GoogleItem) {
    item.status == Some("cancelled")
  }

  /** A cancelled item is a tombstone for its key and is never upserted; any other item is an
      upsert under the same key. */
  function GoogleChange(calendarId: nat, item: GoogleItem, now: Instant): (c: Change)
    ensures c.Target() == Some(EventKey(calendarId, item.id))
    ensures c.Tombstone? <==> IsCancelled(item)
    ensures !IsCancelled(item) ==> c == Upsert(GoogleEventData(calendarId, item, now))
  {
    if IsCancelled(item) then Tombstone(EventKey(calendarId, item.id))
    else Upsert(GoogleEventData(calendarId, item, now))
  }

  function GoogleChanges(calendarId: nat, items: seq<GoogleItem>, now: Instant): (cs: seq<Change>)
    ensures |cs| == |items|
    ensures forall i :: 0 <= i < |items| ==> cs[i] == GoogleChange(calendarId, items[i], now)
    ensures forall i :: 0 <= i < |cs| && cs[i].Upsert? ==> cs[i].data.calendarId == calendarId
  {
    seq(|items|, i requires 0 <= i < |items| => GoogleChange(calendarId, items[i], now))
  }

  /** The database, the result and the caller's `options.timeMax` after a Google sync. */
  datatype GoogleSynced = GoogleSynced(db: Db, result: Result<nat, SyncError>, timeMax: Option<Instant>)

  /** `syncCalendarEvents` of the Google service: fetch, then store; the count is the number of
      items fetched, cancelled ones included. */
  function SyncOutcome(db: Db, id: nat, opts: SyncOptions, clock: Clock, api: EventsApi): (s: GoogleSynced)
    ensures s.db.nextId == db.nextId && s.db.calendars.Keys == db.calendars.Keys
    ensures forall other :: other in db.calendars && other != id ==> s.db.calendars[other] == db.calendars[other]
    ensures id in db.calendars ==> SyncColumnsOnly(db.calendars[id], s.db.calendars[id])
    ensures var f := FetchOutcome(db, id, opts, clock, api);
      && s.timeMax == f.timeMax
      && (f.result.Err? ==> s.db == f.db && s.result == Err(f.result.error))
      && (f.result.Ok? ==> s.db.calendars == f.db.calendars)
      && (s.result.Ok? ==> f.result.Ok? && s.result.value == |f.result.value.items|)
  {
    var f := FetchOutcome(db, id, opts, clock, api);
    match f.result
    case Err(e) => GoogleSynced(f.db, Err(e), f.timeMax)
    case Ok(resp) =>
      var run := ApplyChanges(f.db, GoogleChanges(id, resp.items, clock.now), clock.now);
      GoogleSynced(run.db, if run.failure.Some? then Err(run.failure.value) else Ok(|resp.items|), f.timeMax)
  }

  // ---- Properties of the sync ----

  lemma AttemptKeepsValid(db: Db, id: nat, opts: SyncOptions, clock: Clock, api: EventsApi)
    requires Valid(db)
    ensures Valid(Attempt(db, id, opts, clock, api).db)
  {
    var f := Attempt(db, id, opts, clock, api);
    if f.result.Ok? && Truthy(f.result.value.nextSyncToken) {
      UpdateSyncStateKeepsValid(db, id, f.result.value.nextSyncToken, Some(clock.now));
    }
  }

  lemma SyncKeepsValid(db: Db, id: nat, opts: SyncOptions, clock: Clock, api: EventsApi)
    requires Valid(db)
    ensures Valid(SyncOutcome(db, id, opts, clock, api).db)
  {
    var first := Attempt(db, id, opts, clock, api);
    AttemptKeepsValid(db, id, opts, clock, api);
    if first.result.Err? && IsGone(first.result.error) {
      UpdateSyncStateKeepsValid(db, id, None, db.calendars[id].lastSynced);
      AttemptKeepsValid(ClearSyncToken(db, id), id, RetryOptions(opts, first.timeMax), clock, api);
    }
    var f := FetchOutcome(db, id, opts, clock, api);
    if f.result.Ok? {
      ApplyKeepsValid(f.db, GoogleChanges(id, f.result.value.items, clock.now), clock.now);
    }
  }

  /** The cursor advances before anything is stored: when the fetch brings a new token, the
      calendar holds it afterwards even if storing an item fails. */
  lemma CursorAdvancesBeforeStoring(db: Db, id: nat, opts: SyncOptions, clock: Clock, api: EventsApi)
    requires var f := FetchOutcome(db, id, opts, clock, api);
      f.result.Ok? && Truthy(f.result.value.nextSyncToken)
    ensures var f := FetchOutcome(db, id, opts, clock, api);
      && id in SyncOutcome(db, id, opts, clock, api).db.calendars
      && SyncOutcome(db, id, opts, clock, api).db.calendars[id].syncToken == f.result.value.nextSyncToken
      && SyncOutcome(db, id, opts, clock, api).db.calendars[id].lastSynced == Some(clock.now)
  {
    var first := Attempt(db, id, opts, clock, api);
    if first.result.Err? && IsGone(first.result.error) {
      var cleared := ClearSyncToken(db, id);
      assert FetchOutcome(db, id, opts, clock, api) == Attempt(cleared, id, RetryOptions(opts, first.timeMax), clock, api);
    }
  }

  /** A fetch touches no event: whatever Google answers, the `Events` table only changes in the
      store loop. */
  lemma FetchNeverTouchesEvents(db: Db, id: nat, opts: SyncOptions, clock: Clock, api: EventsApi)
    ensures FetchOutcome(db, id, opts, clock, api).db.events == db.events
    ensures FetchOutcomeAsWritten(db, id, opts, clock, api).db.events == db.events
  {
  }

  /** When storing runs to the end, later items win: the row under `(calendarId, sid)` comes
      from the last item with id `sid`, and is gone if that item is cancelled. */
  lemma LastItemWins(db: Db, calendarId: nat, items: seq<GoogleItem>, now: Instant, j: nat)
    requires ApplyChanges(db, GoogleChanges(calendarId, items, now), now).failure.None?
    requires j < |items| && forall i :: j < i < |items| ==> items[i].id != items[j].id
    ensures var k := EventKey(calendarId, items[j].id);
      var out := ApplyChanges(db, GoogleChanges(calendarId, items, now), now).db;
      && (IsCancelled(items[j]) ==> k !in out.events)
      && (!IsCancelled(items[j]) ==>
            && BuildEvent(GoogleEventData(calendarId, items[j], now), now).Ok?
            && k in out.events && out.events[k] == BuildEvent(GoogleEventData(calendarId, items[j], now), now).value)
  {
    var cs := GoogleChanges(calendarId, items, now);
    var k := EventKey(calendarId, items[j].id);
    var last := LastFor(cs, k);
    assert cs[j].Target() == Some(k);
    assert last >= j;
    assert last <= j;
    LastWriteWins(db, cs, now, k);
    if !IsCancelled(items[j]) {
      ApplySucceedsIff(db, cs, now);
      assert Applicable(db.calendars, cs[j], now);
    }
  }

  /** Rows the batch does not name are left alone, in particular every row of another calendar. */
  lemma StoreKeepsOtherRows(db: Db, calendarId: nat, items: seq<GoogleItem>, now: Instant, k: EventKey)
    requires k.calendarId != calendarId || forall i :: 0 <= i < |items| ==> items[i].id != k.sourceEventId
    ensures Lookup(ApplyChanges(db, GoogleChanges(calendarId, items, now), now).db.events, k) == Lookup(db.events, k)
  {
    var cs := GoogleChanges(calendarId, items, now);
    assert forall i :: 0 <= i < |cs| ==> cs[i].Target() != Some(k) by {
      forall i | 0 <= i < |cs| ensures cs[i].Target() != Some(k) {
        assert cs[i].Target() == Some(EventKey(calendarId, items[i].id));
      }
    }
    UntouchedRowsKept(db, cs, now, k);
  }

  /** Storing the same items again later, as the next windowed sync does, gives the same as
      storing them once at the later time. */
  lemma StoreReplayIsIdempotent(db: Db, calendarId: nat, items: seq<GoogleItem>, t1: Instant, t2: Instant)
    requires ApplyChanges(db, GoogleChanges(calendarId, items, t1), t1).failure.None?
    requires ApplyChanges(db, GoogleChanges(calendarId, items, t2), t2).failure.None?
    ensures var once := ApplyChanges(db, GoogleChanges(calendarId, items, t1), t1).db;
      ApplyChanges(once, GoogleChanges(calendarId, items, t2), t2) == ApplyChanges(db, GoogleChanges(calendarId, items, t2), t2)
  {
    var cs1 := GoogleChanges(calendarId, items, t1);
    var cs2 := GoogleChanges(calendarId, items, t2);
    assert SameShape(cs1, cs2);
    ReplayIsIdempotent(db, cs1, t1, cs2, t2);
  }

  // ---- The service, statement by statement ----

  /** The `try` block of `fetchEvents`. */
  method FetchOnce(db: Database, id: nat, opts: SyncOptions, clock: Clock, api: EventsApi)
    returns (r: Result<ListResponse, SyncError>, timeMax: Option<Instant>)
    requires Valid(db.State())
    modifies db
    ensures Fetched(db.State(), r, timeMax) == Attempt(old(db.State()), id, opts, clock, api)
  {
    var found := db.FindCalendar(id);
    if found.None? {
      return Err(CalendarNotFound(id)), opts.timeMax;
    }
    var cal := found.value;
    var params := BuildListRequest(cal, opts, clock);
    timeMax := TimeMaxAfter(cal, opts, clock);
    var response := api(CredentialsOf(cal), params);
    if response.Err? {
      return Err(UpstreamError(response.error.code, response.error.message)), timeMax;
    }
    if Truthy(response.value.nextSyncToken) {
      db.UpdateSyncState(id, response.value.nextSyncToken, Some(clock.now));
    }
    r := Ok(response.value);
  }

  /** `fetchEvents`, with the fallback on 410 as intended. */
  method FetchEvents(db: Database, id: nat, opts: SyncOptions, clock: Clock, api: EventsApi)
    returns (r: Result<ListResponse, SyncError>, timeMax: Option<Instant>)
    requires Valid(db.State())
    modifies db
    ensures Fetched(db.State(), r, timeMax) == FetchOutcome(old(db.State()), id, opts, clock, api)
  {
    AttemptKeepsValid(db.State(), id, opts, clock, api);
    r, timeMax := FetchOnce(db, id, opts, clock, api);
    if r.Err? && IsGone(r.error) {
      UpdateSyncStateKeepsValid(db.State(), id, None, db.calendars[id].lastSynced);
      db.UpdateSyncState(id, None, db.calendars[id].lastSynced);
      r, timeMax := FetchOnce(db, id, RetryOptions(opts, timeMax), clock, api);
    }
  }

  /** `processAndStoreEvents`: the items in order; a cancelled one deletes its row, any other
      is upserted; the first error stops the loop. */
  method ProcessAndStoreEvents(db: Database, calendarId: nat, items: seq<GoogleItem>, now: Instant)
    returns (err: Option<SyncError>)
    modifies db
    ensures var run := ApplyChanges(old(db.State()), GoogleChanges(calendarId, items, now), now);
      db.State() == run.db && err == run.failure
  {
    ghost var cs := GoogleChanges(calendarId, items, now);
    ghost var goal := ApplyChanges(db.State(), cs, now);
    var i := 0;
    while i < |items|
      invariant 0 <= i <= |items|
      invariant ApplyChanges(db.State(), cs[i..], now).db == goal.db
      invariant ApplyChanges(db.State(), cs[i..], now).failure == goal.failure
    {
      assert cs[i..][0] == cs[i] && cs[i..][1..] == cs[i + 1..];
      var item := items[i];
      if IsCancelled(item) {
        db.DestroyEvent(EventKey(calendarId, item.id));
      } else {
        err := db.UpsertEvent(GoogleEventData(calendarId, item, now), now);
        if err.Some? {
          return;
        }
      }
      i := i + 1;
    }
    err := None;
  }

  /** `syncCalendarEvents` of the Google service. */
  method SyncCalendarEvents(db: Database, id: nat, opts: SyncOptions, clock: Clock, api: EventsApi)
    returns (r: Result<nat, SyncError>, timeMax: Option<Instant>)
    requires Valid(db.State())
    modifies db
    ensures GoogleSynced(db.State(), r, timeMax) == SyncOutcome(old(db.State()), id, opts, clock, api)
  {
    var fetched;
    fetched, timeMax := FetchEvents(db, id, opts, clock, api);
    if fetched.Err? {
      return Err(fetched.error), timeMax;
    }
    var err := ProcessAndStoreEvents(db, id, fetched.value.items, clock.now);
    if err.Some? {
      return Err(err.value), timeMax;
    }
    r := Ok(|fetched.value.items|);
  }
}
