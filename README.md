# Calenda-APP sync core in Dafny

This project models how the Calenda-APP server syncs calendars. The server pulls events from Google Calendar (`events.list`) and from iCal feeds (as parsed by `node-ical`). It reconciles them into a local `Events` table keyed by `(calendarId, sourceEventId)`. It also dispatches each sync by provider and syncs every active calendar with one result entry per calendar. It connects new Google accounts and iCal feeds, and answers the event and calendar queries.

The database is a `class Database` in `Store`. Its fields are the `Calendars` table, the `Events` table and the id sequence. The Sequelize calls that change state (`upsert`, `destroy`, `update`, `create`) and the two lookups the sync paths make (`findByPk`, `findAll` of the active calendars) become methods of that class, each proved against a function on the value `Models.Db`. The sync, connect and delete services are methods that take that object, and each is proved equal to a function of the old state. The three queries (`getCalendarEvents`, `getAllEvents`, `getAllCalendars`) only read, and are ghost functions of the state with no method counterpart. The properties of the services are lemmas about those functions.

## Modules

- `Base`: `Option`/`Result`, and JavaScript string operations (`trim`, `split`/`join`, `indexOf`, `replace` of the first occurrence, `startsWith`).
- `Models`: the `Event` and `Calendar` records (`models/Event.js`, `models/Calendar.js`), the database value `Db` and what the schema guarantees of it (`Valid`). It also has the store primitives:
  - upsert by natural key;
  - destroy;
  - update of the sync columns;
  - create, with its NOT NULL, width and unique-index errors;
  - cascade delete.
- `Reconcile`: the loop both sync paths run over the upstream items, as a fold over `Change = Skip | Tombstone | Upsert | Fail`. The first error stops it. The properties proved about it:
  - later items win;
  - a tombstone leaves no row;
  - untouched rows stay;
  - the count;
  - the loop is replay-idempotent.
- `Store`: the mutable database object.
- `GoogleSync`: `fetchEvents`, `processAndStoreEvents` and `syncCalendarEvents` of the Google service. This includes the request building, the 410 fallback and the item flattening.
- `IcalSync`: `processAndStoreIcalEvents` and `syncIcalCalendar`. This includes the `mailto:` regular expression and the organizer and attendee normalisation.
- `CalendarService`: the provider dispatch, `syncAllCalendars`, `connectIcalFeed`, `connectGoogleCalendar`, `deleteCalendar` and the event and calendar queries.

Inputs from outside the program are parameters:
- the current instant;
- `setMonth(getMonth() + n)`, as a function `addMonths`;
- the Google `events.list` call, as a function from credentials and request to a response or a failure;
- the feed fetch and parse, as a function from URL to entries or an error message;
- the OAuth tokens and user info of a Google connect.

## Model

| member | source | states |
|---|---|---|
| `Models.BuildEvent` | server/src/models/Event.js:5-101 | The row succeeds exactly when `startTime` and `endTime` are present and every `VARCHAR` value fits its width. A missing time gives the NOT NULL error naming the missing columns. On success every column is carried over, `isAllDay` defaults to false and `lastUpdated` defaults to now. |
| `Models.FirstTooWide` | server/src/models/Event.js:20-89 | None exactly when every `VARCHAR` value fits its width; otherwise the width of a column that does not fit |
| `Models.NaturalKeyUnique` | server/src/models/Event.js:103-107 | In a valid state, two distinct stored events never share `(calendarId, sourceEventId)` |
| `Models.CalendarIdentityUnique` | server/src/models/Calendar.js:67-72 | In a valid state, two calendars with the same `(provider, calendarIdentifier)` are the same calendar |
| `Models.UpsertEvent` | server/src/models/Event.js:103-107 | The upsert succeeds iff the row builds and the calendar exists. A missing calendar is a foreign-key error. On success only the row under the natural key changes. |
| `Models.DestroyEvent` | server/src/services/googleCalendarService.js:152-161 | The key is gone and every other row is unchanged. Deleting an absent key changes nothing. |
| `Models.UpdateSyncState` | server/src/services/googleCalendarService.js:121-124 | Only `syncToken` and `lastSynced` of that calendar change |
| `Models.CreateCalendar` | server/src/models/Calendar.js:4-75 | A missing `provider`/`calendarIdentifier` gives the NOT NULL error. Success requires every width to fit and the `(provider, calendarIdentifier)` pair to be free; when the columns are present and fit, the only error is the unique violation. On success the new row is under the next id, `isActive` defaults to true, `createdAt` is now, and nothing else changes. |
| `Models.DestroyCalendar` | server/src/models/Event.js:120 | The calendar is removed together with exactly its events; every other row stays as it was |
| `Models.UpsertKeepsValid` | server/src/models/Event.js:103-107 | A successful upsert keeps keys unique, foreign keys resolved and widths respected |
| `Models.DestroyEventKeepsValid` | server/src/models/Event.js:103-107 | Destroying an event keeps the schema's guarantees |
| `Models.UpdateSyncStateKeepsValid` | server/src/models/Calendar.js:67-72 | Updating the sync columns keeps `(provider, calendarIdentifier)` unique |
| `Models.CreateCalendarKeepsValid` | server/src/models/Calendar.js:67-72 | A successful create keeps every schema guarantee, including the unique identity |
| `Models.DestroyCalendarCascades` | server/src/models/Event.js:120 | After the cascade no event references the calendar, every other event is kept and the state stays valid |
| `Reconcile.ApplyChanges` | server/src/services/googleCalendarService.js:148-213 | The store loop changes only the `Events` table |
| `Reconcile.ApplySucceedsIff` | server/src/services/googleCalendarService.js:148-213 | The loop runs to the end iff no item raises; both directions are proved |
| `Reconcile.ApplyStopsAtFirstFailure` | server/src/services/googleCalendarService.js:210-213 | On a failure the error is that of the first raising item, and the table holds exactly the effect of the items before it |
| `Reconcile.ApplyCountsUpserts` | server/src/services/icalService.js:137-139 | A completed loop upserted once per `Upsert` change |
| `Reconcile.LastWriteWins` | server/src/services/googleCalendarService.js:148-204 | After a completed loop every key holds what the last change aimed at it says (independent reference `FinalRow`), or its old row when no change names it |
| `Reconcile.TombstoneLeavesNoRow` | server/src/services/googleCalendarService.js:150-164 | A tombstone as the last change for a key leaves no row under it |
| `Reconcile.UntouchedRowsKept` | server/src/services/googleCalendarService.js:148-209 | Rows that no change names are unchanged, whether or not the loop completed |
| `Reconcile.ApplyKeepsValid` | server/src/models/Event.js:103-107 | The loop keeps every schema guarantee |
| `Reconcile.ApplyOutcomeIgnoresEvents` | server/src/services/googleCalendarService.js:148-209 | Error and count depend only on which named calendars exist, not on the stored events |
| `Reconcile.ReplayIsIdempotent` | server/src/services/googleCalendarService.js:204 | Applying a like-shaped batch on top of a batch's result equals applying it once |
| `Store.Database.FindCalendar` | server/src/services/calendarService.js:33 | Returns the row iff the id is stored, with its own id |
| `Store.Database.FindAllActive` | server/src/services/calendarService.js:105-107 | Lists every active calendar exactly once, as stored, and nothing else |
| `Store.Database.UpsertEvent` | server/src/services/googleCalendarService.js:204 | The new state is `Models.UpsertEvent` of the old; on an error nothing is written |
| `Store.Database.DestroyEvent` | server/src/services/googleCalendarService.js:152-161 | The new state is `Models.DestroyEvent` of the old |
| `Store.Database.UpdateSyncState` | server/src/services/googleCalendarService.js:121-124 | The new state is `Models.UpdateSyncState` of the old |
| `Store.Database.CreateCalendar` | server/src/services/calendarService.js:6-14 | Returns the created row and the new state of `Models.CreateCalendar`, or its error with the state unchanged |
| `Store.Database.DestroyCalendar` | server/src/services/calendarService.js:65 | The new state is the cascade of `Models.DestroyCalendar` |
| `GoogleSync.BuildListRequest` | server/src/services/googleCalendarService.js:93-112 | `maxResults` defaults to 2500 and `fullSync` is copied in by the spread. The token is sent exactly when the calendar has a token and `fullSync` is off. Otherwise the request carries `timeMin` (default now) and three months past `timeMax` (default `timeMin`), and no token. |
| `GoogleSync.NullTokenMeansWindow` | server/src/models/Calendar.js:50-54 | A calendar with a null `syncToken` is fetched with the time window |
| `GoogleSync.FullSyncSendsNoToken` | server/src/services/googleCalendarService.js:102 | With `fullSync` no token is sent, so the 410 retry cannot fail on the token again |
| `GoogleSync.TimeMaxAfter` | server/src/services/googleCalendarService.js:102-108 | The caller's `options.timeMax` after the request is built: unchanged on the token branch or when none was supplied, and otherwise moved in place to exactly the `timeMax` the request sends |
| `GoogleSync.Attempt` | server/src/services/googleCalendarService.js:78-130 | A missing calendar is an error. A truthy `nextSyncToken` stores the token and `lastSynced = now`, with nothing else changed. With no token, or on an upstream error, the state is unchanged. Events are never touched. |
| `GoogleSync.FetchOutcome` | server/src/services/googleCalendarService.js:76-143 | The intended `fetchEvents`: only the sync columns of this calendar change, events never; a supplied `timeMax` is the only one that moves |
| `GoogleSync.FetchOutcomeAsWritten` | server/src/services/googleCalendarService.js:131-142 | `fetchEvents` as written: the `catch` cannot reach `calendarRecord` |
| `GoogleSync.ClearSyncToken` | server/src/services/googleCalendarService.js:137 | Only the calendar's `syncToken` becomes null; every other column and row stays, and no later request for it can use a token |
| `GoogleSync.ExpiredTokenFallsBack` | server/src/services/googleCalendarService.js:134-139 | On 410 the token is cleared and the fetch is retried once with `fullSync`, whose request carries `fullSync` and no token. Afterwards the stored token is the retry's, or none. |
| `GoogleSync.AsWrittenExpiredTokenSticks` | server/src/services/googleCalendarService.js:135-137 | As written, a 410 ends in a ReferenceError and leaves the expired token stored |
| `GoogleSync.ExpiredTokenCounterexample` | server/src/services/googleCalendarService.js:135-138 | A concrete stale calendar: as written it fails with "calendarRecord is not defined" and keeps "stale"; the intended fetch succeeds and stores "fresh" |
| `GoogleSync.OrganizerLine` | server/src/services/googleCalendarService.js:173 | The trimmed organizer line always ends with the address in angle brackets, `<undefined>` when the email is missing |
| `GoogleSync.OrganizerLineShape` | server/src/services/googleCalendarService.js:173 | The organizer line is the name with its leading blanks dropped, then `" <email>"`, or just `<email>` when there is no name |
| `GoogleSync.AttendeeLabel` | server/src/services/googleCalendarService.js:198-200 | Gives `email`, else `displayName`, else `Unknown`, and never the empty string |
| `GoogleSync.GoogleAttendees` | server/src/services/googleCalendarService.js:197-201 | The field is present exactly when the list is non-empty; one label per attendee, in order |
| `GoogleSync.GoogleRecurrence` | server/src/services/googleCalendarService.js:180 | A recurrence is stored exactly when the item has the list; an empty list, being truthy, is stored as the empty string, and a single rule as itself |
| `GoogleSync.RecurrenceRoundTrip` | server/src/services/googleCalendarService.js:180 | Splitting the stored recurrence on newlines gives back the rules |
| `GoogleSync.GoogleEventData` | server/src/services/googleCalendarService.js:167-194 | The row has key `(calendarId, item.id)`, start and end taken from `dateTime` or else `date`, and `isAllDay` iff `start.dateTime` is absent. The organizer's three columns are null without an organizer. Attendees, recurrence, status, colour and `lastUpdated = now` are as mapped. |
| `GoogleSync.GoogleChange` | server/src/services/googleCalendarService.js:150-164 | Targets `(calendarId, item.id)`. It is a tombstone exactly for `'cancelled'`; otherwise it is the upsert of the flattened item. |
| `GoogleSync.GoogleChanges` | server/src/services/googleCalendarService.js:148 | One change per item, in order, all aimed at this calendar |
| `GoogleSync.SyncOutcome` | server/src/services/googleCalendarService.js:217-226 | Fetch then store. A fetch error is returned as is. On success the count is the number of fetched items, cancelled ones included. Only this calendar's sync columns change. |
| `GoogleSync.AttemptKeepsValid` | server/src/services/googleCalendarService.js:119-125 | Saving the token keeps the schema's guarantees |
| `GoogleSync.SyncKeepsValid` | server/src/services/googleCalendarService.js:217-226 | A whole Google sync keeps the schema's guarantees |
| `GoogleSync.CursorAdvancesBeforeStoring` | server/src/services/googleCalendarService.js:219-220 | When the fetch brings a token, the calendar holds it afterwards even if storing an item fails |
| `GoogleSync.FetchNeverTouchesEvents` | server/src/services/googleCalendarService.js:76-143 | Neither version of the fetch changes the `Events` table |
| `GoogleSync.LastItemWins` | server/src/services/googleCalendarService.js:148-204 | After a completed store, the row for an id comes from the last item with that id. It is absent if that item was cancelled. |
| `GoogleSync.StoreKeepsOtherRows` | server/src/services/googleCalendarService.js:148-209 | Rows of other calendars, and of ids not in the batch, are unchanged |
| `GoogleSync.StoreReplayIsIdempotent` | server/src/services/googleCalendarService.js:146-214 | Storing the same items again later gives the same as storing them once at the later time |
| `GoogleSync.FetchOnce` | server/src/services/googleCalendarService.js:78-130 | The method's new state, result and `timeMax` are those of `Attempt` |
| `GoogleSync.FetchEvents` | server/src/services/googleCalendarService.js:76-143 | The method's new state, result and `timeMax` are those of `FetchOutcome` |
| `GoogleSync.ProcessAndStoreEvents` | server/src/services/googleCalendarService.js:146-214 | The loop's new state and error are those of `ApplyChanges` on the item changes |
| `GoogleSync.SyncCalendarEvents` | server/src/services/googleCalendarService.js:217-226 | The method's new state, result and `timeMax` are those of `SyncOutcome` |
| `IcalSync.MailtoFrom` | server/src/services/icalService.js:75 | The leftmost position at or after `from` where the expression matches |
| `IcalSync.Capture` | server/src/services/icalService.js:75 | The capture is the longest non-empty run of non-`>` characters after `mailto:` |
| `IcalSync.MailtoAddress` | server/src/services/icalService.js:75-78 | None iff `mailto:` (any case) followed by a non-`>` character occurs nowhere; otherwise the capture at a match |
| `IcalSync.MailtoPrefixed` | server/src/services/icalService.js:75-78 | A `mailto:`-prefixed address (any case), up to a `>` or the end, is extracted whole |
| `IcalSync.MailtoEmpty` | server/src/services/icalService.js:98-103 | `mailto:>` does not match, so the raw string is kept |
| `IcalSync.IcalOrganizer` | server/src/services/icalService.js:66-84 | A string is kept verbatim, with its `mailto:` address as email and no name. An object gives `val` as email and `CN` as name, with a line of `CN <val>` when CN is present, else `val`. An absent organizer gives all three as null. |
| `IcalSync.AttendeeAddress` | server/src/services/icalService.js:96-106 | A string's `mailto:` capture, or the string itself. An object's `val` without its first literal `mailto:`. |
| `IcalSync.AttendeeValues` | server/src/services/icalService.js:88-93 | A single value is wrapped into a one-element list; an absent field gives none |
| `IcalSync.IcalAttendees` | server/src/services/icalService.js:87-108 | One address per value, in input order |
| `IcalSync.CollectAttendees` | server/src/services/icalService.js:87-108 | The pushing loop computes `IcalAttendees` |
| `IcalSync.IcalEventData` | server/src/services/icalService.js:110-135 | Key `(calendarId, uid)`; the end defaults to start + 3600000 ms; `isAllDay` iff the start has no own `dateTime`; status defaults to `confirmed`; the organizer and attendees as normalised |
| `IcalSync.IcalChange` | server/src/services/icalService.js:38-138 | Non-`VEVENT` entries are skipped and `CANCELLED` ones are tombstones. A missing start is the TypeError. Anything else is the upsert of its row. |
| `IcalSync.IcalChanges` | server/src/services/icalService.js:38 | One change per entry, in order, all aimed at this calendar |
| `IcalSync.IcalStoreOutcome` | server/src/services/icalService.js:28-156 | A missing calendar is an error. On success the count is the number of upserts and `lastSynced` is set, once, after the loop. Only this calendar's sync columns change. |
| `IcalSync.IcalSyncOutcome` | server/src/services/icalService.js:159-185 | Errors for a missing calendar and for a non-`ical` provider, with the state unchanged; the feed error; otherwise the store outcome |
| `IcalSync.KeptCount` | server/src/services/icalService.js:139 | At most the number of entries |
| `IcalSync.UpsertsAreKept` | server/src/services/icalService.js:137-139 | The upserts are exactly the `VEVENT`s that are not cancelled |
| `IcalSync.IcalCountIsKept` | server/src/services/icalService.js:139-151 | A successful sync reports the non-cancelled `VEVENT`s and sets `lastSynced` to now |
| `IcalSync.NoDeletionByAbsence` | server/src/services/icalService.js:45-59 | A stored event whose uid the feed does not mention is left as it was |
| `IcalSync.CancelledLeavesNoRow` | server/src/services/icalService.js:45-59 | A cancelled `VEVENT` that is the last for its uid leaves no row |
| `IcalSync.IcalStoreKeepsValid` | server/src/services/icalService.js:28-156 | The iCal store keeps the schema's guarantees |
| `IcalSync.IcalSyncKeepsValid` | server/src/services/icalService.js:159-185 | The iCal sync keeps the schema's guarantees |
| `IcalSync.ProcessAndStoreIcalEvents` | server/src/services/icalService.js:28-156 | The loop with `continue` computes `IcalStoreOutcome` |
| `IcalSync.SyncIcalCalendar` | server/src/services/icalService.js:159-185 | The method computes `IcalSyncOutcome` |
| `CalendarService.SyncOne` | server/src/services/calendarService.js:74-100 | A missing calendar is "not found" and an unknown provider is "Unsupported calendar provider", both with the state unchanged. Any sync changes only that calendar's sync columns. |
| `CalendarService.SyncOneKeepsValid` | server/src/services/calendarService.js:84-93 | Any dispatched sync keeps the schema's guarantees |
| `CalendarService.GoogleSyncIsLocal` | server/src/services/googleCalendarService.js:217-226 | A Google sync's result and `timeMax` depend only on the calendar's own row |
| `CalendarService.IcalSyncIsLocal` | server/src/services/icalService.js:159-185 | An iCal sync's result depends only on the calendar's own row |
| `CalendarService.SyncOneIsLocal` | server/src/services/calendarService.js:84-93 | A dispatched sync's result depends only on the calendar's own row |
| `CalendarService.OutcomeOf` | server/src/services/calendarService.js:112-128 | Success with the count iff the sync succeeded; otherwise failure with the error's message |
| `CalendarService.SyncAllFrom` | server/src/services/calendarService.js:109-131 | Exactly one entry per calendar of the listing |
| `CalendarService.SyncAllEntriesInOrder` | server/src/services/calendarService.js:111-127 | Entry i carries the id and provider of the i-th calendar, so the entries follow the listing's order |
| `CalendarService.SyncAllKeepsValid` | server/src/services/calendarService.js:111-129 | Syncing a whole listing keeps the schema's guarantees |
| `CalendarService.SyncAllIsolatedFrom` | server/src/services/calendarService.js:111-129 | Each entry equals what syncing that calendar alone reports, however earlier calendars fared |
| `CalendarService.SyncAllIsolation` | server/src/services/calendarService.js:111-129 | For an active listing, entry i is `{id, provider, outcome of syncing it alone}` |
| `CalendarService.SyncAllStep` | server/src/services/calendarService.js:112-128 | One turn of the loop gives one entry, then the rest of the listing from the new state |
| `CalendarService.NormalizeFeedUrl` | server/src/services/calendarService.js:236 | A leading `webcal://` in any case becomes `https://`; other URLs are unchanged |
| `CalendarService.NormalizeIdempotent` | server/src/services/calendarService.js:236 | Normalising twice is normalising once |
| `CalendarService.AcceptedUrlIsHttp` | server/src/services/calendarService.js:231-236 | An accepted URL is stored as an `http://` or `https://` URL |
| `CalendarService.CreateThenSync` | server/src/services/calendarService.js:239-248 | A create error is returned with nothing changed. Otherwise the new row stays whatever the sync does. The connect fails iff the sync fails, and returns the created row on success. |
| `CalendarService.IcalCalendarData` | server/src/services/calendarService.js:239-243 | A feed is created with provider `ical`, the normalised URL and `displayName || 'iCal Calendar'`; no account, OAuth or sync columns are set and `isActive` is left to its default |
| `CalendarService.ConnectIcalOutcome` | server/src/services/calendarService.js:228-253 | A URL outside `http://`, `https://`, `webcal://` (case-sensitive) is rejected before anything is created. A success is an `ical` calendar under the normalised URL, named `iCal Calendar` by default. |
| `CalendarService.IcalFeedIsStored` | server/src/services/calendarService.js:239-246 | After a successful create, the stored row is active and has the normalised URL and display name, even when the first sync fails |
| `CalendarService.GoogleCalendarData` | server/src/services/calendarService.js:207-215 | An account is created with provider `google`, the user's email, identifier `primary` for every user, the name `${name}'s Calendar` (`undefined's Calendar` without a name) and the OAuth tokens; no sync columns are set |
| `CalendarService.ConnectGoogleOutcome` | server/src/services/calendarService.js:198-225 | A success is a `google` calendar with the user's email, identifier `primary` and the name `<name>'s Calendar` |
| `CalendarService.SecondGoogleAccountRejected` | server/src/services/calendarService.js:207-215 | With a Google calendar already stored, a second account fails on the unique index and creates nothing |
| `CalendarService.DeleteOutcome` | server/src/services/calendarService.js:58-71 | A missing calendar is "not found"; otherwise the cascade delete |
| `CalendarService.InsertBy` | server/src/services/calendarService.js:155 | Inserting into a sorted listing keeps it sorted and adds exactly the element |
| `CalendarService.OrderBy` | server/src/services/calendarService.js:155 | A listing of the set, sorted by the key, and a permutation of it |
| `CalendarService.Page` | server/src/services/calendarService.js:156-157 | `OFFSET start LIMIT size`: the length and the elements of the window |
| `CalendarService.PageOfSorted` | server/src/services/calendarService.js:153-158 | A page of a sorted listing is sorted |
| `CalendarService.PageSize` | server/src/services/calendarService.js:156 | The limit, or 100 when absent or zero; never zero |
| `CalendarService.StartOrderedPage` | server/src/services/calendarService.js:153-158 | Members match the filters and are ordered by start, with at most the limit returned. The result is the requested page of a sorted listing of all matches, and the whole set when it fits in the first page. |
| `CalendarService.GetCalendarEvents` | server/src/services/calendarService.js:139-165 | Only the calendar's events in the range, ascending start, at most the limit |
| `CalendarService.CalendarEventsMatch` | server/src/services/calendarService.js:143-151 | Each returned event is stored, belongs to the calendar and lies in the range |
| `CalendarService.GetAllEvents` | server/src/services/calendarService.js:168-195 | Only events of active calendars in the range, ascending start, at most the limit |
| `CalendarService.AllEventsAreOfActiveCalendars` | server/src/services/calendarService.js:182-188 | Each returned event's calendar exists and is active |
| `CalendarService.GetAllCalendars` | server/src/services/calendarService.js:17-28 | Exactly the active calendars, newest `createdAt` first |
| `CalendarService.AllCalendarsAreActive` | server/src/services/calendarService.js:19-22 | A calendar is listed iff it is stored and active |
| `CalendarService.SyncCalendarEvents` | server/src/services/calendarService.js:74-100 | The dispatching method computes `SyncOne` |
| `CalendarService.SyncAllCalendars` | server/src/services/calendarService.js:103-136 | The returned entries and the new state are those of `SyncAllFrom` over an active listing of the old state |
| `CalendarService.SyncEach` | server/src/services/calendarService.js:109-131 | The loop computes `SyncAllFrom` over the listing |
| `CalendarService.SyncNext` | server/src/services/calendarService.js:112-128 | One turn of the loop: its entry and the rest of the listing from the new state |
| `CalendarService.ConnectIcalFeed` | server/src/services/calendarService.js:228-253 | The method computes `ConnectIcalOutcome` |
| `CalendarService.ConnectGoogleCalendar` | server/src/services/calendarService.js:198-225 | The method computes `ConnectGoogleOutcome` |
| `CalendarService.CreateAndSync` | server/src/services/calendarService.js:239-248 | The method computes `CreateThenSync` |
| `CalendarService.DeleteCalendar` | server/src/services/calendarService.js:58-71 | The method computes `DeleteOutcome` |

## Findings

| source | as written | input that shows it | evidently intended | confidence | as-written member | corrected member |
|---|---|---|---|---|---|---|
| server/src/services/googleCalendarService.js:137 | The `catch` block calls `calendarRecord.update(...)`, but `calendarRecord` is a `const` of the `try` block (line 78). An HTTP 410 therefore raises "calendarRecord is not defined". The expired token is never cleared, so every later sync of that calendar fails the same way. | A Google calendar holding the token "stale", and an API that answers every token with 410 and a windowed request with the token "fresh" (`ExpiredTokenCounterexample`) | Clear the token and retry once with `fullSync: true` | not executed | `GoogleSync.FetchOutcomeAsWritten`, `GoogleSync.AsWrittenExpiredTokenSticks`, `GoogleSync.ExpiredTokenCounterexample` | `GoogleSync.FetchOutcome`, `GoogleSync.ExpiredTokenFallsBack` |

The rest of the model uses the corrected `FetchOutcome`.

Other behaviour the model keeps as written:
- The Google token and `lastSynced` are saved before any item is stored (`CursorAdvancesBeforeStoring`).
- A supplied `options.timeMax` is still moved three months forward by `setMonth`. Because the caller's object is mutated, each later calendar in `syncAllCalendars` sees the moved value, so the model threads `timeMax` through the loop.
- An iCal feed never deletes by absence (`NoDeletionByAbsence`).
- An iCal object organizer keeps any `mailto:` in its email, while an object attendee loses the first one.
- The scheme check of `connectIcalFeed` is case-sensitive, but the `webcal://` rewrite ignores case.

## Left out

- OAuth (`createOAuth2Client`, `getAuthUrl`, `getTokensFromCode`, `getUserInfo`, `listCalendars`), the `events.list` call itself, the feed download (axios) and `parseIcalFeed` (node-ical): these are foreign library and network calls. Their results are parameters.
- Date arithmetic: `setMonth(getMonth() + 3)` is the abstract `addMonths`, and instants are integers. `toISOString` of an invalid date, and `new Date(undefined)` as `tokenExpiry`, are not modelled.
- Options arriving as JSON strings rather than `Date` objects are not modelled; the model takes them as instants.
- Each sync reads one `now`, where the source calls `new Date()` several times.
- `Event.upsert` is modelled as a replacement of the whole row under its natural key. Sequelize updates only the keys it marks as changed, and a key whose value is `undefined` is not marked. So an old `attendees`, `title`, `description`, `location`, `organizerName` or `organizerEmail` survives an update whose item lacks it. The model does not capture that.
- GoogleSync.FetchOutcome: a second 410 on the retry is returned as an error, where the source would recurse again.
- CalendarService.SyncAllIsolation: proved only for a call without `options.timeMax`. With a supplied `timeMax`, each later calendar sees the value earlier ones moved; `SyncAllFrom` models that, but isolation does not hold.
- Option keys other than `maxResults`, `timeMin`, `timeMax` and `fullSync` that the spread copies into the request are not modelled. An absent `fullSync` key and `fullSync: false` are the same request in the model.
- Models.CreateCalendar: a failed create leaves `nextId` as it was, where a Postgres `SERIAL` spends a value on an insert the unique index rejects. Only the ids handed out later differ.
- `metadata`, `updatedAt`, the surrogate `Events.id` and `EventAttendee` are not modelled: the sync never reads them back, and the source leaves attendee detail out.
- Google response paging (`nextPageToken`) is not modelled; the source does not follow it either.
- The order of `Object.entries` over the parsed feed is taken from the input sequence.
- `updateCalendar` is not modelled. `getCalendarById` is `Store.Database.FindCalendar`.
- The `$gte`/`$lte` operators are taken as the comparisons they name; whether the installed Sequelize version honours these aliases is not modelled.
- The queries order events with equal start times in an order the database is free to choose. The model names some sorted listing, not a particular one.
- Concurrency and `async` sequencing: every call is awaited in turn, so the model is sequential.
- The HTTP layer, controllers, UI, scripts and database configuration are not part of this model.
