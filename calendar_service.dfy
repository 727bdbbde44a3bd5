/** The calendar service: dispatch of a sync by provider, the sync of every active calendar
    with one result per calendar, connecting a Google account or an iCal feed, deleting a
    calendar, and the event and calendar queries. */
module CalendarService {
  import opened Base
  import opened Models
  import opened Reconcile
  import opened Store
  import opened GoogleSync
  import opened IcalSync

  /** Everything outside the database a sync reads: the clock, the Google API and the feed reader. */
  datatype Env = Env(clock: Clock, google: EventsApi, feed: FeedReader)

  /** The database, the result and the caller's `options.timeMax` after one sync. */
  datatype SyncRun = SyncRun(db: Db, result: Result<nat, SyncError>, timeMax: Option<Instant>)

  /** Two states hold the same row for calendar `id`, or both have none. */
  predicate Agree(a: Db, b: Db, id: nat) {
    (id in a.calendars <==> id in b.calendars) && (id in a.calendars ==> a.calendars[id] == b.calendars[id])
  }

  /** `syncCalendarEvents`: not found, then `'google'` to the Google sync, `'ical'` to the iCal
      sync, and any other provider an error. */
  function SyncOne(db: Db, id: nat, opts: SyncOptions, env: Env): (s: SyncRun)
    ensures s.db.nextId == db.nextId && s.db.calendars.Keys == db.calendars.Keys
    ensures forall other :: other in db.calendars && other != id ==> s.db.calendars[other] == db.calendars[other]
    ensures id in db.calendars ==> SyncColumnsOnly(db.calendars[id], s.db.calendars[id])
    ensures opts.timeMax.None? ==> s.timeMax.None?
    ensures id !in db.calendars ==> s == SyncRun(db, Err(CalendarNotFound(id)), opts.timeMax)
    ensures id in db.calendars && db.calendars[id].provider !in {"google", "ical"} ==>
      s == SyncRun(db, Err(UnsupportedProvider(db.calendars[id].provider)), opts.timeMax)
  {
    if id !in db.calendars then SyncRun(db, Err(CalendarNotFound(id)), opts.timeMax)
    else
      match db.calendars[id].provider
      case "google" =>
        var g := SyncOutcome(db, id, opts, env.clock, env.google);
        SyncRun(g.db, g.result, g.timeMax)
      case "ical" =>
        var c := IcalSyncOutcome(db, id, env.clock.now, env.feed);
        SyncRun(c.db, c.result, opts.timeMax)
      case other => SyncRun(db, Err(UnsupportedProvider(other)), opts.timeMax)
  }

  lemma SyncOneKeepsValid(db: Db, id: nat, opts: SyncOptions, env: Env)
    requires Valid(db)
    ensures Valid(SyncOne(db, id, opts, env).db)
  {
    if id in db.calendars {
      if db.calendars[id].provider == "google" {
        SyncKeepsValid(db, id, opts, env.clock, env.google);
      } else if db.calendars[id].provider == "ical" {
        IcalSyncKeepsValid(db, id, env.clock.now, env.feed);
      }
    }
  }

  /** The Google sync reads nothing of the database but the calendar's own row: what it
      reports does not depend on other calendars or on the stored events. */
  lemma GoogleSyncIsLocal(db1: Db, db2: Db, id: nat, opts: SyncOptions, clock: Clock, api: EventsApi)
    requires Agree(db1, db2, id)
    ensures SyncOutcome(db1, id, opts, clock, api).result == SyncOutcome(db2, id, opts, clock, api).result
    ensures SyncOutcome(db1, id, opts, clock, api).timeMax == SyncOutcome(db2, id, opts, clock, api).timeMax
  {
    var a1 := Attempt(db1, id, opts, clock, api);
    var a2 := Attempt(db2, id, opts, clock, api);
    assert a1.result == a2.result && a1.timeMax == a2.timeMax;
    if a1.result.Err? && IsGone(a1.result.error) {
      var r := RetryOptions(opts, a1.timeMax);
      assert ClearSyncToken(db1, id).calendars[id] == ClearSyncToken(db2, id).calendars[id];
      var b1 := Attempt(ClearSyncToken(db1, id), id, r, clock, api);
      var b2 := Attempt(ClearSyncToken(db2, id), id, r, clock, api);
      assert b1.result == b2.result && b1.timeMax == b2.timeMax;
    }
    var f1 := FetchOutcome(db1, id, opts, clock, api);
    var f2 := FetchOutcome(db2, id, opts, clock, api);
    assert f1.result == f2.result;
    if f1.result.Ok? {
      ApplyOutcomeIgnoresEvents(f1.db, f2.db, GoogleChanges(id, f1.result.value.items, clock.now), clock.now);
    }
  }

  /** The same holds of the iCal sync. */
  lemma IcalSyncIsLocal(db1: Db, db2: Db, id: nat, now: Instant, feed: FeedReader)
    requires Agree(db1, db2, id)
    ensures IcalSyncOutcome(db1, id, now, feed).result == IcalSyncOutcome(db2, id, now, feed).result
  {
    if id in db1.calendars && db1.calendars[id].provider == "ical" {
      var entries := feed(db1.calendars[id].calendarIdentifier);
      if entries.Ok? {
        ApplyOutcomeIgnoresEvents(db1, db2, IcalChanges(id, entries.value, now), now);
      }
    }
  }

  lemma SyncOneIsLocal(db1: Db, db2: Db, id: nat, opts: SyncOptions, env: Env)
    requires Agree(db1, db2, id)
    ensures SyncOne(db1, id, opts, env).result == SyncOne(db2, id, opts, env).result
    ensures SyncOne(db1, id, opts, env).timeMax == SyncOne(db2, id, opts, env).timeMax
  {
    if id in db1.calendars {
      if db1.calendars[id].provider == "google" {
        GoogleSyncIsLocal(db1, db2, id, opts, env.clock, env.google);
      } else if db1.calendars[id].provider == "ical" {
        IcalSyncIsLocal(db1, db2, id, env.clock.now, env.feed);
      }
    }
  }

  // ---- syncAllCalendars ----

  datatype EntryOutcome = Success(count: nat) | Failure(message: string)

  /** One element of the result array: `{ calendarId, provider, success, count | error }`. */
  datatype SyncEntry = SyncEntry(calendarId: nat, provider: string, outcome: EntryOutcome)

  datatype SyncAll = SyncAll(db: Db, entries: seq<SyncEntry>, timeMax: Option<Instant>)

  /** A failed sync becomes an entry carrying the error's message. */
  function OutcomeOf(r: Result<nat, SyncError>): (o: EntryOutcome)
    ensures r.Ok? <==> o.Success?
    ensures r.Ok? ==> o.count == r.value
    ensures r.Err? ==> o.message == Message(r.error)
  {
    if r.Ok? then Success(r.value) else Failure(Message(r.error))
  }

  /** The loop of `syncAllCalendars` over a listing of calendars: each is synced in turn on the
      state the previous ones left, and a failure is recorded and the loop goes on. */
  function SyncAllFrom(db: Db, cals: seq<Calendar>, opts: SyncOptions, env: Env): (r: SyncAll)
    ensures |r.entries| == |cals|
    decreases |cals|
  {
    if cals == [] then SyncAll(db, [], opts.timeMax)
    else
      var s := SyncOne(db, cals[0].id, opts, env);
      var rest := SyncAllFrom(s.db, cals[1..], opts.(timeMax := s.timeMax), env);
      SyncAll(rest.db, [SyncEntry(cals[0].id, cals[0].provider, OutcomeOf(s.result))] + rest.entries, rest.timeMax)
  }

  /** One entry per calendar, in the order of the listing, with its id and provider. */
  lemma {:induction false} SyncAllEntriesInOrder(db: Db, cals: seq<Calendar>, opts: SyncOptions, env: Env)
    ensures forall i :: 0 <= i < |cals| ==>
      SyncAllFrom(db, cals, opts, env).entries[i].calendarId == cals[i].id
      && SyncAllFrom(db, cals, opts, env).entries[i].provider == cals[i].provider
    decreases |cals|
  {
    if cals != [] {
      var s := SyncOne(db, cals[0].id, opts, env);
      var o := opts.(timeMax := s.timeMax);
      SyncAllEntriesInOrder(s.db, cals[1..], o, env);
      var all := SyncAllFrom(db, cals, opts, env).entries;
      var rest := SyncAllFrom(s.db, cals[1..], o, env).entries;
      assert all == [SyncEntry(cals[0].id, cals[0].provider, OutcomeOf(s.result))] + rest;
      forall i | 1 <= i < |cals|
        ensures all[i].calendarId == cals[i].id && all[i].provider == cals[i].provider
      {
        assert all[i] == rest[i - 1] && cals[i] == cals[1..][i - 1];
      }
    }
  }

  lemma {:induction false} SyncAllKeepsValid(db: Db, cals: seq<Calendar>, opts: SyncOptions, env: Env)
    requires Valid(db)
    ensures Valid(SyncAllFrom(db, cals, opts, env).db)
    decreases |cals|
  {
    if cals != [] {
      var s := SyncOne(db, cals[0].id, opts, env);
      SyncOneKeepsValid(db, cals[0].id, opts, env);
      SyncAllKeepsValid(s.db, cals[1..], opts.(timeMax := s.timeMax), env);
    }
  }

  lemma {:induction false} SyncAllIsolatedFrom(db0: Db, db: Db, cals: seq<Calendar>, opts: SyncOptions, env: Env)
    requires opts.timeMax.None?
    requires forall i, j :: 0 <= i < j < |cals| ==> cals[i].id != cals[j].id
    requires forall i :: 0 <= i < |cals| ==> Agree(db0, db, cals[i].id)
    ensures forall i :: 0 <= i < |cals| ==>
      SyncAllFrom(db, cals, opts, env).entries[i].outcome == OutcomeOf(SyncOne(db0, cals[i].id, opts, env).result)
    decreases |cals|
  {
    if cals != [] {
      var s := SyncOne(db, cals[0].id, opts, env);
      SyncOneIsLocal(db0, db, cals[0].id, opts, env);
      assert opts.(timeMax := s.timeMax) == opts;
      var tail := cals[1..];
      assert forall i :: 0 <= i < |tail| ==> tail[i] == cals[i + 1];
      assert forall i :: 0 <= i < |tail| ==> Agree(db0, s.db, tail[i].id) by {
        forall i | 0 <= i < |tail| ensures Agree(db0, s.db, tail[i].id) {
          assert Agree(db0, db, cals[i + 1].id) && cals[i + 1].id != cals[0].id;
        }
      }
      SyncAllIsolatedFrom(db0, s.db, tail, opts, env);
      var all := SyncAllFrom(db, cals, opts, env);
      assert all.entries[1..] == SyncAllFrom(s.db, tail, opts, env).entries;
    }
  }

  /** Failure isolation: each calendar's entry is exactly what syncing that calendar alone
      would report from the starting state, so neither an earlier failure nor an earlier
      success changes it. */
  lemma SyncAllIsolation(db: Db, cals: seq<Calendar>, opts: SyncOptions, env: Env)
    requires opts.timeMax.None?
    requires ActiveListing(db, cals)
    ensures |SyncAllFrom(db, cals, opts, env).entries| == |cals|
    ensures forall i :: 0 <= i < |cals| ==>
      SyncAllFrom(db, cals, opts, env).entries[i] ==
        SyncEntry(cals[i].id, cals[i].provider, OutcomeOf(SyncOne(db, cals[i].id, opts, env).result))
  {
    SyncAllIsolatedFrom(db, db, cals, opts, env);
    SyncAllEntriesInOrder(db, cals, opts, env);
  }

  // ---- Connecting a feed or an account ----

  /** The schemes `connectIcalFeed` accepts, compared case-sensitively. */
  predicate IsAcceptedIcalUrl(url: string) {
    StartsWith(url, "http://") || StartsWith(url, "https://") || StartsWith(url, "webcal://")
  }

  /** `url.replace(/^webcal:\/\//i, 'https://')`. */
  function NormalizeFeedUrl(url: string): (r: string)
    ensures IgnoreCasePrefix(url, "webcal://") ==> r == "https://" + url[9..]
    ensures !IgnoreCasePrefix(url, "webcal://") ==> r == url
  {
    if IgnoreCasePrefix(url, "webcal://") then "https://" + url[9..] else url
  }

  /** Rewriting twice is rewriting once. */
  lemma NormalizeIdempotent(url: string)
    ensures NormalizeFeedUrl(NormalizeFeedUrl(url)) == NormalizeFeedUrl(url)
  {
    var r := NormalizeFeedUrl(url);
    if IgnoreCasePrefix(url, "webcal://") {
      assert r[0] == 'h';
      assert !IgnoreCaseEq(r[0], "webcal://"[0]);
    }
  }

  /** An accepted URL is stored as an `http://` or `https://` URL. */
  lemma AcceptedUrlIsHttp(url: string)
    requires IsAcceptedIcalUrl(url)
    ensures StartsWith(NormalizeFeedUrl(url), "http://") || StartsWith(NormalizeFeedUrl(url), "https://")
  {
    var r := NormalizeFeedUrl(url);
    if StartsWith(url, "webcal://") {
      assert forall j :: 0 <= j < 9 ==> url[j] == "webcal://"[j];
      assert IgnoreCasePrefix(url, "webcal://");
      assert r[..8] == "https://";
    } else {
      assert !IgnoreCaseEq(url[0], 'w');
    }
  }

  /** The result of a connect: the calendar as created, or the first error. */
  datatype Connected = Connected(db: Db, result: Result<Calendar, SyncError>)

  /** The values a feed is created with: provider, normalised URL and display name, and no
      account or OAuth columns. */
  function IcalCalendarData(url: string, displayName: Option<string>): (d: CalendarData)
    ensures d.provider == Some("ical") && d.calendarIdentifier == Some(NormalizeFeedUrl(url))
    ensures d.displayName == Some(if Truthy(displayName) then displayName.value else "iCal Calendar")
    ensures d.accountEmail.None? && d.accessToken.None? && d.refreshToken.None? && d.tokenExpiry.None?
    ensures d.syncToken.None? && d.isActive.None?
  {
    CalendarData(Some("ical"), None, Some(NormalizeFeedUrl(url)),
                 Some(if Truthy(displayName) then displayName.value else "iCal Calendar"),
                 None, None, None, None, None, None, None)
  }

  /** Create the calendar, then sync it; a failed sync fails the connect but the row stays. */
  function CreateThenSync(db: Db, d: CalendarData, env: Env): (r: Connected)
    ensures CreateCalendar(db, d, env.clock.now).Err? ==> r == Connected(db, Err(CreateCalendar(db, d, env.clock.now).error))
    ensures CreateCalendar(db, d, env.clock.now).Ok? ==>
      var (db1, c) := CreateCalendar(db, d, env.clock.now).value;
      && r.db.calendars.Keys == db.calendars.Keys + {c.id}
      && SyncColumnsOnly(c, r.db.calendars[c.id])
      && (r.result.Ok? <==> SyncOne(db1, c.id, NoOptions, env).result.Ok?)
      && (r.result.Ok? ==> r.result.value == c)
      && (r.result.Err? ==> r.result.error == SyncOne(db1, c.id, NoOptions, env).result.error)
  {
    match CreateCalendar(db, d, env.clock.now)
    case Err(e) => Connected(db, Err(e))
    case Ok((db1, c)) =>
      var s := SyncOne(db1, c.id, NoOptions, env);
      Connected(s.db, if s.result.Ok? then Ok(c) else Err(s.result.error))
  }

  /** `connectIcalFeed`. */
  function ConnectIcalOutcome(db: Db, url: string, displayName: Option<string>, env: Env): (r: Connected)
    ensures !IsAcceptedIcalUrl(url) ==> r == Connected(db, Err(InvalidIcalUrl))
    ensures r.result.Ok? ==>
      (r.result.value.provider == "ical" && r.result.value.calendarIdentifier == NormalizeFeedUrl(url)
       && r.result.value.displayName == Some(if Truthy(displayName) then displayName.value else "iCal Calendar"))
  {
    if !IsAcceptedIcalUrl(url) then Connected(db, Err(InvalidIcalUrl))
    else CreateThenSync(db, IcalCalendarData(url, displayName), env)
  }

  /** A connected feed is stored under its normalised URL with the default name, and the row
      stays even when the first sync fails. */
  lemma IcalFeedIsStored(db: Db, url: string, displayName: Option<string>, env: Env)
    requires Valid(db) && IsAcceptedIcalUrl(url)
    requires CreateCalendar(db, IcalCalendarData(url, displayName), env.clock.now).Ok?
    ensures var c := CreateCalendar(db, IcalCalendarData(url, displayName), env.clock.now).value.1;
      var out := ConnectIcalOutcome(db, url, displayName, env).db;
      && c.id in out.calendars
      && out.calendars[c.id].provider == "ical"
      && out.calendars[c.id].calendarIdentifier == NormalizeFeedUrl(url)
      && out.calendars[c.id].displayName == Some(if Truthy(displayName) then displayName.value else "iCal Calendar")
      && out.calendars[c.id].isActive
  {
  }

  /** The OAuth tokens and the user info a Google connect starts from. */
  datatype OAuthTokens = OAuthTokens(accessToken: Option<string>, refreshToken: Option<string>, expiry: Option<Instant>)
  datatype UserInfo = UserInfo(email: Option<string>, name: Option<string>)

  /** The values a Google account is created with. The identifier is 'primary' whoever the
      user is, and the name is interpolated, so a missing name reads "undefined's Calendar". */
  function GoogleCalendarData(tokens: OAuthTokens, user: UserInfo): (d: CalendarData)
    ensures d.provider == Some("google") && d.calendarIdentifier == Some("primary")
    ensures d.accountEmail == user.email
    ensures d.displayName == Some(Interpolated(user.name) + "'s Calendar")
    ensures user.name.None? ==> d.displayName == Some("undefined's Calendar")
    ensures d.accessToken == tokens.accessToken && d.refreshToken == tokens.refreshToken && d.tokenExpiry == tokens.expiry
    ensures d.syncToken.None? && d.isActive.None?
  {
    assert "undefined" + "'s Calendar" == "undefined's Calendar";
    CalendarData(Some("google"), user.email, Some("primary"), Some(Interpolated(user.name) + "'s Calendar"),
                 None, tokens.accessToken, tokens.refreshToken, tokens.expiry, None, None, None)
  }

  /** `connectGoogleCalendar`, from the tokens and user info the OAuth exchange returned. */
  function ConnectGoogleOutcome(db: Db, tokens: OAuthTokens, user: UserInfo, env: Env): (r: Connected)
    ensures r.result.Ok? ==>
      (r.result.value.provider == "google" && r.result.value.accountEmail == user.email && r.result.value.calendarIdentifier == "primary"
       && r.result.value.displayName == Some(Interpolated(user.name) + "'s Calendar"))
  {
    CreateThenSync(db, GoogleCalendarData(tokens, user), env)
  }

  /** Every Google account is stored under the identifier 'primary', so once one Google
      calendar exists, connecting a second account fails on the unique index and creates
      nothing. */
  lemma SecondGoogleAccountRejected(db: Db, tokens: OAuthTokens, user: UserInfo, env: Env, existing: nat)
    requires existing in db.calendars && Identity(db.calendars[existing]) == ("google", "primary")
    requires Fits(user.email, 255) && |Interpolated(user.name) + "'s Calendar"| <= 255
    ensures ConnectGoogleOutcome(db, tokens, user, env) == Connected(db, Err(UniqueViolation))
  {
    var d := GoogleCalendarData(tokens, user);
    assert IdentityTaken(db, "google", "primary");
    var ws := CalendarWidths(d);
    assert forall i :: 0 <= i < |ws| ==> Fits(ws[i].0, ws[i].1);
  }

  /** `deleteCalendar`. */
  function DeleteOutcome(db: Db, id: nat): (r: (Db, Option<SyncError>))
    ensures id !in db.calendars ==> r == (db, Some(CalendarNotFound(id)))
    ensures id in db.calendars ==> r == (DestroyCalendar(db, id), None)
  {
    if id !in db.calendars then (db, Some(CalendarNotFound(id))) else (DestroyCalendar(db, id), None)
  }

  // ---- Queries ----

  predicate SortedBy<T>(xs: seq<T>, key: T -> int) {
    forall i, j :: 0 <= i < j < |xs| ==> key(xs[i]) <= key(xs[j])
  }

  /** Insertion after the elements with a key no greater than that of `x`. */
  function InsertBy<T>(x: T, xs: seq<T>, key: T -> int): (r: seq<T>)
    requires SortedBy(xs, key)
    ensures SortedBy(r, key)
    ensures multiset(r) == multiset(xs) + multiset{x}
    ensures r[0] == x || (|xs| > 0 && r[0] == xs[0])
    decreases |xs|
  {
    if xs == [] || key(x) < key(xs[0]) then [x] + xs
    else
      var rest := InsertBy(x, xs[1..], key);
      var r := [xs[0]] + rest;
      assert xs == [xs[0]] + xs[1..];
      assert forall j :: 0 < j < |r| ==> r[j] == rest[j - 1];
      assert forall j :: 0 <= j < |rest| ==> key(rest[0]) <= key(rest[j]);
      r
  }

  /** A set listed in key order; elements with equal keys come in an order the database is
      free to choose. */
  ghost function OrderBy<T>(s: set<T>, key: T -> int): (r: seq<T>)
    ensures SortedBy(r, key)
    ensures multiset(r) == multiset(s)
    decreases s
  {
    if s == {} then []
    else
      var x :| x in s;
      assert multiset(s - {x}) + multiset{x} == multiset(s);
      InsertBy(x, OrderBy(s - {x}, key), key)
  }

  /** `OFFSET start LIMIT size`. */
  function Page<T>(xs: seq<T>, start: nat, size: nat): (r: seq<T>)
    ensures |r| == if start >= |xs| then 0 else if |xs| - start < size then |xs| - start else size
    ensures forall i :: 0 <= i < |r| ==> r[i] == xs[start + i]
  {
    if start >= |xs| then []
    else if |xs| - start < size then xs[start..]
    else xs[start..start + size]
  }

  lemma PageOfSorted<T>(xs: seq<T>, start: nat, size: nat, key: T -> int)
    requires SortedBy(xs, key)
    ensures SortedBy(Page(xs, start, size), key)
  {
    var r := Page(xs, start, size);
    forall i, j | 0 <= i < j < |r| ensures key(r[i]) <= key(r[j]) {
      assert r[i] == xs[start + i] && r[j] == xs[start + j];
    }
  }

  /** The filter and paging options of the event queries; `None` is an absent or falsy value. */
  datatype EventQuery = EventQuery(startDate: Option<Instant>, endDate: Option<Instant>, limit: Option<nat>, offset: Option<nat>)

  predicate InRange(e: Event, q: EventQuery) {
    (q.startDate.None? || e.startTime >= q.startDate.value) && (q.endDate.None? || e.endTime <= q.endDate.value)
  }

  /** `limit || 100`. */
  function PageSize(q: EventQuery): (n: nat)
    ensures n > 0
  {
    if q.limit.None? || q.limit.value == 0 then 100 else q.limit.value
  }

  function ByStart(e: Event): int {
    e.startTime
  }

  /** The rows of one calendar in the requested range. */
  ghost function CalendarMatches(db: Db, calendarId: nat, q: EventQuery): set<Event> {
    set k | k in db.events && k.calendarId == calendarId && InRange(db.events[k], q) :: db.events[k]
  }

  /** The rows of active calendars in the requested range (the inner join on `Calendars`). */
  ghost function ActiveMatches(db: Db, q: EventQuery): set<Event> {
    set k | k in db.events && k.calendarId in db.calendars && db.calendars[k.calendarId].isActive
              && InRange(db.events[k], q) :: db.events[k]
  }

  /** One page of a set of rows ordered by ascending start. */
  ghost function StartOrderedPage(matches: set<Event>, q: EventQuery): (r: seq<Event>)
    ensures forall i :: 0 <= i < |r| ==> r[i] in matches
    ensures SortedBy(r, ByStart)
    ensures |r| <= PageSize(q)
    ensures exists all :: SortedBy(all, ByStart) && multiset(all) == multiset(matches)
                          && r == Page(all, q.offset.GetOr(0), PageSize(q))
    ensures q.offset.GetOr(0) == 0 && |matches| <= PageSize(q) ==> multiset(r) == multiset(matches)
  {
    var all := OrderBy(matches, ByStart);
    var r := Page(all, q.offset.GetOr(0), PageSize(q));
    PageOfSorted(all, q.offset.GetOr(0), PageSize(q), ByStart);
    assert |all| == |matches| by { assert |multiset(all)| == |multiset(matches)|; }
    assert forall i :: 0 <= i < |r| ==> r[i] in matches by {
      forall i | 0 <= i < |r| ensures r[i] in matches {
        assert r[i] == all[q.offset.GetOr(0) + i];
        assert r[i] in multiset(all);
      }
    }
    assert q.offset.GetOr(0) == 0 && |matches| <= PageSize(q) ==> r == all;
    r
  }

  /** `getCalendarEvents`. */
  ghost function GetCalendarEvents(db: Db, calendarId: nat, q: EventQuery): (r: seq<Event>)
    ensures forall i :: 0 <= i < |r| ==> r[i] in CalendarMatches(db, calendarId, q)
    ensures SortedBy(r, ByStart) && |r| <= PageSize(q)
  {
    StartOrderedPage(CalendarMatches(db, calendarId, q), q)
  }

  /** A returned event belongs to the calendar, lies in the range and is stored. */
  lemma CalendarEventsMatch(db: Db, calendarId: nat, q: EventQuery, i: nat)
    requires Valid(db)
    requires i < |GetCalendarEvents(db, calendarId, q)|
    ensures var e := GetCalendarEvents(db, calendarId, q)[i];
      e.calendarId == calendarId && InRange(e, q) && e.Key() in db.events && db.events[e.Key()] == e
  {
    var e := GetCalendarEvents(db, calendarId, q)[i];
    assert e in CalendarMatches(db, calendarId, q);
  }

  /** `getAllEvents`: only the events of active calendars. */
  ghost function GetAllEvents(db: Db, q: EventQuery): (r: seq<Event>)
    ensures forall i :: 0 <= i < |r| ==> r[i] in ActiveMatches(db, q)
    ensures SortedBy(r, ByStart) && |r| <= PageSize(q)
  {
    StartOrderedPage(ActiveMatches(db, q), q)
  }

  lemma AllEventsAreOfActiveCalendars(db: Db, q: EventQuery, i: nat)
    requires Valid(db)
    requires i < |GetAllEvents(db, q)|
    ensures var e := GetAllEvents(db, q)[i];
      e.calendarId in db.calendars && db.calendars[e.calendarId].isActive && InRange(e, q)
  {
    var e := GetAllEvents(db, q)[i];
    assert e in ActiveMatches(db, q);
  }

  function NewestFirst(c: Calendar): int {
    -c.createdAt
  }

  ghost function ActiveCalendars(db: Db): set<Calendar> {
    set id | id in db.calendars && db.calendars[id].isActive :: db.calendars[id]
  }

  /** `getAllCalendars`: every active calendar, newest `createdAt` first. */
  ghost function GetAllCalendars(db: Db): (r: seq<Calendar>)
    ensures multiset(r) == multiset(ActiveCalendars(db))
    ensures forall i, j :: 0 <= i < j < |r| ==> r[i].createdAt >= r[j].createdAt
  {
    var r := OrderBy(ActiveCalendars(db), NewestFirst);
    assert forall i, j :: 0 <= i < j < |r| ==> NewestFirst(r[i]) <= NewestFirst(r[j]);
    r
  }

  lemma AllCalendarsAreActive(db: Db, c: Calendar)
    ensures c in GetAllCalendars(db) <==> exists id :: id in db.calendars && db.calendars[id] == c && c.isActive
  {
    assert c in GetAllCalendars(db) <==> c in multiset(GetAllCalendars(db));
  }

  // ---- The service, statement by statement ----

  /** `syncCalendarEvents` of the calendar service. */
  method SyncCalendarEvents(db: Database, id: nat, opts: SyncOptions, env: Env)
    returns (r: Result<nat, SyncError>, timeMax: Option<Instant>)
    requires Valid(db.State())
    modifies db
    ensures SyncRun(db.State(), r, timeMax) == SyncOne(old(db.State()), id, opts, env)
  {
    var found := db.FindCalendar(id);
    if found.None? {
      return Err(CalendarNotFound(id)), opts.timeMax;
    }
    var provider := found.value.provider;
    if provider == "google" {
      r, timeMax := GoogleSync.SyncCalendarEvents(db, id, opts, env.clock, env.google);
    } else if provider == "ical" {
      r := SyncIcalCalendar(db, id, env.clock.now, env.feed);
      timeMax := opts.timeMax;
    } else {
      r, timeMax := Err(UnsupportedProvider(provider)), opts.timeMax;
    }
  }

  /** `syncAllCalendars`: one entry per active calendar, in the order of the listing. */
  method SyncAllCalendars(db: Database, opts: SyncOptions, env: Env) returns (results: seq<SyncEntry>)
    requires Valid(db.State())
    modifies db
    ensures exists cals ::
      (ActiveListing(old(db.State()), cals)
       && SyncAllFrom(old(db.State()), cals, opts, env).entries == results
       && SyncAllFrom(old(db.State()), cals, opts, env).db == db.State())
  {
    var cals := db.FindAllActive();
    results := SyncEach(db, cals, opts, env);
  }

  /** The loop of `syncAllCalendars` over the listing it read. */
  method SyncEach(db: Database, cals: seq<Calendar>, opts: SyncOptions, env: Env) returns (results: seq<SyncEntry>)
    requires Valid(db.State())
    modifies db
    ensures results == SyncAllFrom(old(db.State()), cals, opts, env).entries
    ensures db.State() == SyncAllFrom(old(db.State()), cals, opts, env).db
  {
    ghost var goal := SyncAllFrom(db.State(), cals, opts, env);
    var options := opts;
    results := [];
    var i := 0;
    assert cals[i..] == cals;
    while i < |cals|
      invariant 0 <= i <= |cals|
      invariant Valid(db.State())
      invariant goal.entries == results + SyncAllFrom(db.State(), cals[i..], options, env).entries
      invariant goal.db == SyncAllFrom(db.State(), cals[i..], options, env).db
    {
      var entry, timeMax := SyncNext(db, cals, i, options, env);
      results := results + [entry];
      options := options.(timeMax := timeMax);
      i := i + 1;
    }
    assert cals[i..] == [];
  }

  /** One turn of the loop of `syncAllCalendars`: sync `cals[i]` and record its entry. */
  method SyncNext(db: Database, cals: seq<Calendar>, i: nat, options: SyncOptions, env: Env)
    returns (entry: SyncEntry, timeMax: Option<Instant>)
    requires i < |cals| && Valid(db.State())
    modifies db
    ensures Valid(db.State())
    ensures var rest := SyncAllFrom(db.State(), cals[i + 1..], options.(timeMax := timeMax), env);
      && SyncAllFrom(old(db.State()), cals[i..], options, env).entries == [entry] + rest.entries
      && SyncAllFrom(old(db.State()), cals[i..], options, env).db == rest.db
  {
    SyncAllStep(db.State(), cals, i, options, env);
    SyncOneKeepsValid(db.State(), cals[i].id, options, env);
    var r;
    r, timeMax := SyncCalendarEvents(db, cals[i].id, options, env);
    entry := SyncEntry(cals[i].id, cals[i].provider, OutcomeOf(r));
  }

  /** How one turn of the loop of `syncAllCalendars` takes the listing forward. */
  lemma SyncAllStep(db: Db, cals: seq<Calendar>, i: nat, opts: SyncOptions, env: Env)
    requires i < |cals|
    ensures var s := SyncOne(db, cals[i].id, opts, env);
      var rest := SyncAllFrom(s.db, cals[i + 1..], opts.(timeMax := s.timeMax), env);
      && SyncAllFrom(db, cals[i..], opts, env).entries
           == [SyncEntry(cals[i].id, cals[i].provider, OutcomeOf(s.result))] + rest.entries
      && SyncAllFrom(db, cals[i..], opts, env).db == rest.db
  {
    assert cals[i..][0] == cals[i] && cals[i..][1..] == cals[i + 1..];
  }

  /** `connectIcalFeed`. */
  method ConnectIcalFeed(db: Database, url: string, displayName: Option<string>, env: Env)
    returns (r: Result<Calendar, SyncError>)
    requires Valid(db.State())
    modifies db
    ensures Connected(db.State(), r) == ConnectIcalOutcome(old(db.State()), url, displayName, env)
  {
    if !StartsWith(url, "http://") && !StartsWith(url, "https://") && !StartsWith(url, "webcal://") {
      return Err(InvalidIcalUrl);
    }
    r := CreateAndSync(db, IcalCalendarData(url, displayName), env);
  }

  /** `connectGoogleCalendar`. */
  method ConnectGoogleCalendar(db: Database, tokens: OAuthTokens, user: UserInfo, env: Env)
    returns (r: Result<Calendar, SyncError>)
    requires Valid(db.State())
    modifies db
    ensures Connected(db.State(), r) == ConnectGoogleOutcome(old(db.State()), tokens, user, env)
  {
    r := CreateAndSync(db, GoogleCalendarData(tokens, user), env);
  }

  method CreateAndSync(db: Database, d: CalendarData, env: Env) returns (r: Result<Calendar, SyncError>)
    requires Valid(db.State())
    modifies db
    ensures Connected(db.State(), r) == CreateThenSync(old(db.State()), d, env)
  {
    ghost var before := db.State();
    var created := db.CreateCalendar(d, env.clock.now);
    if created.Err? {
      return created;
    }
    CreateCalendarKeepsValid(before, d, env.clock.now);
    var synced, _ := SyncCalendarEvents(db, created.value.id, NoOptions, env);
    r := if synced.Ok? then created else Err(synced.error);
  }

  /** `deleteCalendar`. */
  method DeleteCalendar(db: Database, id: nat) returns (err: Option<SyncError>)
    requires Valid(db.State())
    modifies db
    ensures (db.State(), err) == DeleteOutcome(old(db.State()), id)
  {
    var found := db.FindCalendar(id);
    if found.None? {
      return Some(CalendarNotFound(id));
    }
    db.DestroyCalendar(id);
    err := None;
  }
}
