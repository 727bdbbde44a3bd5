/** iCal feed sync: the parsed feed (the entries `node-ical` returns, in `Object.entries`
    order) goes through one loop that skips everything but `VEVENT`s, deletes `CANCELLED`
    ones, normalises the organizer and the attendees, and upserts the rest; the calendar's
    `lastSynced` is set once the loop is done. Fetching and parsing the feed are a function
    parameter. */
module IcalSync {
  import opened Base
  import opened Models
  import opened Reconcile
  import opened Store

  /** A property as `node-ical` gives it: a plain string, or an object with the value in `val`
      and the `CN` parameter. */
  datatype IcalValue = Text(text: string) | Param(val: string, cn: Option<string>)

  /** `ATTENDEE`: one value, or an array when the property repeats. */
  datatype AttendeeField = Single(value: IcalValue) | List(values: seq<IcalValue>)

  /** `DTSTART`: the instant, and whether the value object has an own property `dateTime`. */
  datatype IcalStart = IcalStart(instant: Instant, hasOwnDateTime: bool)

  /** The fields of a parsed component the sync reads; `rrule` is its `toString()` form. */
  datatype IcalComponent = IcalComponent(
    componentType: string,
    status: Option<string>,
    start: Option<IcalStart>,
    end: Option<Instant>,
    summary: Option<string>,
    description: Option<string>,
    location: Option<string>,
    organizer: Option<IcalValue>,
    attendee: Option<AttendeeField>,
    rrule: Option<string>)

  datatype IcalEntry = IcalEntry(uid: string, component: IcalComponent)

  type FeedReader = string -> Result<seq<IcalEntry>, string>

  // ---- The regular expression /mailto:([^>]+)/i ----

  /** The expression matches at `i`: `mailto:` in any letter case, then at least one
      character other than `>`. */
  predicate MailtoAt(s: string, i: int) {
    0 <= i && i + 7 < |s| && IgnoreCasePrefix(s[i..], "mailto:") && s[i + 7] != '>'
  }

  /** The leftmost match at or after `from`. */
  function MailtoFrom(s: string, from: nat): (r: Option<nat>)
    ensures r.Some? ==> from <= r.value && MailtoAt(s, r.value)
    ensures forall i :: from <= i && (r.None? || i < r.value) ==> !MailtoAt(s, i)
    decreases |s| - from
  {
    if from + 7 >= |s| then None
    else if MailtoAt(s, from) then Some(from)
    else MailtoFrom(s, from + 1)
  }

  /** The first capture group of a match at `i`: the longest run of non-`>` characters. */
  function Capture(s: string, i: nat): (c: string)
    requires MailtoAt(s, i)
    ensures |c| >= 1 && StartsWith(s[i + 7..], c)
    ensures forall j :: 0 <= j < |c| ==> c[j] != '>'
    ensures i + 7 + |c| == |s| || s[i + 7 + |c|] == '>'
  {
    var rest := s[i + 7..];
    var n := IndexOfChar(rest, '>');
    rest[..n]
  }

  /** `s.match(/mailto:([^>]+)/i)?.[1]`. */
  function MailtoAddress(s: string): (r: Option<string>)
    ensures r.None? <==> forall i :: 0 <= i < |s| ==> !MailtoAt(s, i)
    ensures r.Some? ==> exists i :: MailtoAt(s, i) && r.value == Capture(s, i)
  {
    var m := MailtoFrom(s, 0);
    if m.Some? then Some(Capture(s, m.value)) else None
  }

  /** A string that starts with `mailto:` in any letter case yields everything after it up to
      the first `>` or the end. */
  lemma MailtoPrefixed(p: string, a: string, tail: string)
    requires |p| == 7 && IgnoreCasePrefix(p, "mailto:")
    requires a != [] && forall j :: 0 <= j < |a| ==> a[j] != '>'
    requires tail == [] || tail[0] == '>'
    ensures MailtoAddress(p + a + tail) == Some(a)
  {
    var s := p + a + tail;
    assert s[0..] == s;
    assert forall j :: 0 <= j < 7 ==> s[j] == p[j];
    assert s[7] == a[0];
    assert MailtoAt(s, 0);
    var rest := s[7..];
    assert rest == a + tail;
    assert forall j :: 0 <= j < |a| ==> rest[j] == a[j];
    if tail == [] {
      assert rest == a;
      IndexOfCharAbsent(rest, '>');
    } else {
      assert rest[|a|] == '>';
    }
    assert rest[..|a|] == a;
  }

  /** An empty address is no match. */
  lemma MailtoEmpty()
    ensures MailtoAddress("mailto:>") == None
  {
  }

  // ---- Organizer ----

  datatype Organizer = Organizer(line: Option<string>, email: Option<string>, name: Option<string>)

  /** The three organizer columns. A string keeps the text as the line and extracts the
      address with the expression; an object gives its `val` as the address (not stripped of
      `mailto:`) and its `CN` as the name, the line being `CN <val>` when there is a name and
      `val` otherwise. An absent or empty organizer gives three nulls. */
  function IcalOrganizer(v: Option<IcalValue>): (o: Organizer)
    ensures (v.None? || v == Some(Text(""))) ==> o == Organizer(None, None, None)
    ensures v.Some? && v.value.Text? && v.value.text != "" ==>
      o == Organizer(Some(v.value.text), MailtoAddress(v.value.text), None)
    ensures v.Some? && v.value.Param? ==>
      && o.email == Some(v.value.val) && o.name == v.value.cn
      && o.line == Some(if Truthy(v.value.cn) then v.value.cn.value + " <" + v.value.val + ">" else v.value.val)
  {
    var organizer: Option<string> := None;
    var email: Option<string> := None;
    var name: Option<string> := None;
    match v
    case None => Organizer(organizer, email, name)
    case Some(Text(s)) =>
      if s == "" then Organizer(organizer, email, name)
      else Organizer(Some(s), MailtoAddress(s), name)
    case Some(Param(val, cn)) =>
      Organizer(if Truthy(cn) then Some(cn.value + " <" + val + ">") else Some(val), Some(val), cn)
  }

  // ---- Attendees ----

  /** One attendee: a string contributes its `mailto:` address, or itself when there is none;
      an object contributes `val` without its first literal `mailto:`. */
  function AttendeeAddress(v: IcalValue): (a: string)
    ensures v.Text? && MailtoAddress(v.text).Some? ==> a == MailtoAddress(v.text).value
    ensures v.Text? && MailtoAddress(v.text).None? ==> a == v.text
    ensures v.Param? && IndexOf(v.val, "mailto:") < 0 ==> a == v.val
    ensures v.Param? && IndexOf(v.val, "mailto:") >= 0 ==>
      var k := IndexOf(v.val, "mailto:"); a == v.val[..k] + v.val[k + 7..]
  {
    match v
    case Text(s) => MailtoAddress(s).GetOr(s)
    case Param(val, _) => RemoveFirst(val, "mailto:")
  }

  /** The attendee values the loop walks: none when the field is absent or an empty string,
      a single value wrapped into a list. */
  function AttendeeValues(f: Option<AttendeeField>): (vs: seq<IcalValue>)
    ensures f.Some? && f.value.Single? && f.value.value != Text("") ==> vs == [f.value.value]
    ensures f.Some? && f.value.List? ==> vs == f.value.values
    ensures f.None? || f == Some(Single(Text(""))) ==> vs == []
  {
    match f
    case None => []
    case Some(Single(v)) => if v == Text("") then [] else [v]
    case Some(List(values)) => values
  }

  /** The attendee list, in input order. */
  function IcalAttendees(f: Option<AttendeeField>): (r: seq<string>)
    ensures |r| == |AttendeeValues(f)|
    ensures forall i :: 0 <= i < |r| ==> r[i] == AttendeeAddress(AttendeeValues(f)[i])
  {
    var vs := AttendeeValues(f);
    seq(|vs|, i requires 0 <= i < |vs| => AttendeeAddress(vs[i]))
  }

  /** The attendee loop of `processAndStoreIcalEvents`, pushing one address per value. */
  method CollectAttendees(f: Option<AttendeeField>) returns (attendees: seq<string>)
    ensures attendees == IcalAttendees(f)
  {
    attendees := [];
    var values := AttendeeValues(f);
    var i := 0;
    while i < |values|
      invariant 0 <= i <= |values|
      invariant attendees == IcalAttendees(f)[..i]
    {
      attendees := attendees + [AttendeeAddress(values[i])];
      i := i + 1;
    }
  }

  // ---- One entry ----

  const DefaultDuration := 3600000

  const StartMissingNoEnd := "Cannot read properties of undefined (reading 'getTime')"
  const StartMissingWithEnd := "Cannot read properties of undefined (reading 'hasOwnProperty')"

  /** The values handed to `Event.upsert` for an entry with a start. */
  function IcalEventData(calendarId: nat, uid: string, ev: IcalComponent, attendees: seq<string>, now: Instant): (d: EventData)
    requires ev.start.Some?
    ensures d.Key() == EventKey(calendarId, uid)
    ensures d.startTime == Some(ev.start.value.instant)
    ensures d.endTime == Some(if ev.end.Some? then ev.end.value else ev.start.value.instant + DefaultDuration)
    ensures d.isAllDay == Some(!ev.start.value.hasOwnDateTime)
    ensures d.status == Some(if Truthy(ev.status) then ev.status.value else "confirmed")
    ensures var o := IcalOrganizer(ev.organizer);
      d.organizer == o.line && d.organizerEmail == o.email && d.organizerName == o.name
    ensures d.attendees == Some(attendees) && d.recurrence == ev.rrule && d.color.None?
    ensures d.lastUpdated == Some(now)
  {
    var start := ev.start.value.instant;
    var end := if ev.end.Some? then ev.end.value else start + DefaultDuration;
    var o := IcalOrganizer(ev.organizer);
    EventData(calendarId, uid, ev.summary, ev.description, ev.location, o.line, o.email, o.name,
              Some(start), Some(end), Some(!ev.start.value.hasOwnDateTime),
              Some(attendees), Some(if Truthy(ev.status) then ev.status.value else "confirmed"),
              ev.rrule, None, Some(now))
  }

  predicate IsVevent(e: IcalEntry) {
    e.component.componentType == "VEVENT"
  }

  predicate IsCancelled(e: IcalEntry) {
    e.component.status == Some("CANCELLED")
  }

  /** What the loop does with one entry: anything but a `VEVENT` is skipped, a cancelled one is
      a tombstone, one without a start raises the `TypeError` of the first statement that reads
      it, and every other one is upserted. */
  function IcalChange(calendarId: nat, e: IcalEntry, now: Instant): (c: Change)
    ensures !IsVevent(e) <==> c.Skip?
    ensures IsVevent(e) && IsCancelled(e) <==> c.Tombstone?
    ensures c.Tombstone? ==> c.key == EventKey(calendarId, e.uid)
    ensures c.Upsert? ==> c.data.Key() == EventKey(calendarId, e.uid)
    ensures IsVevent(e) && !IsCancelled(e) && e.component.start.None? ==>
      c == Fail(TypeError(if e.component.end.None? then StartMissingNoEnd else StartMissingWithEnd))
    ensures IsVevent(e) && !IsCancelled(e) && e.component.start.Some? ==>
      c == Upsert(IcalEventData(calendarId, e.uid, e.component, IcalAttendees(e.component.attendee), now))
  {
    var ev := e.component;
    if !IsVevent(e) then Skip
    else if IsCancelled(e) then Tombstone(EventKey(calendarId, e.uid))
    else if ev.start.None? then
      Fail(TypeError(if ev.end.None? then StartMissingNoEnd else StartMissingWithEnd))
    else Upsert(IcalEventData(calendarId, e.uid, ev, IcalAttendees(ev.attendee), now))
  }

  function IcalChanges(calendarId: nat, entries: seq<IcalEntry>, now: Instant): (cs: seq<Change>)
    ensures |cs| == |entries|
    ensures forall i :: 0 <= i < |entries| ==> cs[i] == IcalChange(calendarId, entries[i], now)
    ensures forall i :: 0 <= i < |cs| && cs[i].Upsert? ==> cs[i].data.calendarId == calendarId
  {
    seq(|entries|, i requires 0 <= i < |entries| => IcalChange(calendarId, entries[i], now))
  }

  /** The state after `update({ lastSynced })` of one calendar. */
  function TouchLastSynced(db: Db, id: nat, now: Instant): Db
    requires id in db.calendars
  {
    UpdateSyncState(db, id, db.calendars[id].syncToken, Some(now))
  }

  /** `processAndStoreIcalEvents`: the calendar must exist; the count is the number of upserts;
      `lastSynced` moves only when the loop ran to the end. */
  function IcalStoreOutcome(db: Db, id: nat, entries: seq<IcalEntry>, now: Instant): (s: Synced)
    ensures s.db.nextId == db.nextId && s.db.calendars.Keys == db.calendars.Keys
    ensures forall other :: other in db.calendars && other != id ==> s.db.calendars[other] == db.calendars[other]
    ensures id in db.calendars ==> SyncColumnsOnly(db.calendars[id], s.db.calendars[id])
    ensures id !in db.calendars ==> s == Synced(db, Err(CalendarNotFound(id)))
    ensures s.result.Err? ==> s.db.calendars == db.calendars
    ensures s.result.Ok? ==> (id in db.calendars
      && s.db.calendars[id] == db.calendars[id].(lastSynced := Some(now)))
  {
    if id !in db.calendars then Synced(db, Err(CalendarNotFound(id)))
    else
      var run := ApplyChanges(db, IcalChanges(id, entries, now), now);
      if run.failure.Some? then Synced(run.db, Err(run.failure.value))
      else Synced(TouchLastSynced(run.db, id, now), Ok(run.upserted))
  }

  /** `syncIcalCalendar`: the calendar must exist and be an iCal one, then its feed is read
      from the stored URL and stored. */
  function IcalSyncOutcome(db: Db, id: nat, now: Instant, feed: FeedReader): (s: Synced)
    ensures s.db.nextId == db.nextId && s.db.calendars.Keys == db.calendars.Keys
    ensures forall other :: other in db.calendars && other != id ==> s.db.calendars[other] == db.calendars[other]
    ensures id in db.calendars ==> SyncColumnsOnly(db.calendars[id], s.db.calendars[id])
    ensures id !in db.calendars ==> s == Synced(db, Err(CalendarNotFound(id)))
    ensures id in db.calendars && db.calendars[id].provider != "ical" ==> s == Synced(db, Err(NotAnIcalCalendar(id)))
  {
    if id !in db.calendars then Synced(db, Err(CalendarNotFound(id)))
    else if db.calendars[id].provider != "ical" then Synced(db, Err(NotAnIcalCalendar(id)))
    else
      match feed(db.calendars[id].calendarIdentifier)
      case Err(m) => Synced(db, Err(FeedError(m)))
      case Ok(entries) => IcalStoreOutcome(db, id, entries, now)
  }

  // ---- Properties ----

  /** The number of entries that are neither skipped nor cancelled. */
  function KeptCount(entries: seq<IcalEntry>): (n: nat)
    ensures n <= |entries|
  {
    if entries == [] then 0
    else (if IsVevent(entries[0]) && !IsCancelled(entries[0]) then 1 else 0) + KeptCount(entries[1..])
  }

  lemma {:induction false} UpsertsAreKept(calendarId: nat, entries: seq<IcalEntry>, now: Instant)
    requires forall i :: 0 <= i < |entries| ==> !IcalChange(calendarId, entries[i], now).Fail?
    ensures UpsertCount(IcalChanges(calendarId, entries, now)) == KeptCount(entries)
    decreases |entries|
  {
    if entries != [] {
      var cs := IcalChanges(calendarId, entries, now);
      assert cs[1..] == IcalChanges(calendarId, entries[1..], now);
      assert forall i :: 1 <= i < |entries| ==> entries[i] == entries[1..][i - 1];
      UpsertsAreKept(calendarId, entries[1..], now);
    }
  }

  /** A successful run reports the entries that are `VEVENT`s and not cancelled, and sets
      `lastSynced` to the time of the run. */
  lemma IcalCountIsKept(db: Db, id: nat, entries: seq<IcalEntry>, now: Instant)
    requires IcalStoreOutcome(db, id, entries, now).result.Ok?
    ensures IcalStoreOutcome(db, id, entries, now).result.value == KeptCount(entries)
    ensures IcalStoreOutcome(db, id, entries, now).db.calendars[id].lastSynced == Some(now)
  {
    var cs := IcalChanges(id, entries, now);
    ApplySucceedsIff(db, cs, now);
    ApplyCountsUpserts(db, cs, now);
    assert forall i :: 0 <= i < |entries| ==> !IcalChange(id, entries[i], now).Fail? by {
      forall i | 0 <= i < |entries| ensures !IcalChange(id, entries[i], now).Fail? {
        assert Applicable(db.calendars, cs[i], now);
      }
    }
    UpsertsAreKept(id, entries, now);
  }

  /** There is no deletion by absence: a stored event whose uid the feed does not mention
      survives the sync unchanged, whatever the outcome. */
  lemma NoDeletionByAbsence(db: Db, id: nat, entries: seq<IcalEntry>, now: Instant, k: EventKey)
    requires forall i :: 0 <= i < |entries| ==> entries[i].uid != k.sourceEventId
    ensures Lookup(IcalStoreOutcome(db, id, entries, now).db.events, k) == Lookup(db.events, k)
  {
    if id in db.calendars {
      var cs := IcalChanges(id, entries, now);
      assert forall i :: 0 <= i < |cs| ==> cs[i].Target() != Some(k) by {
        forall i | 0 <= i < |cs| ensures cs[i].Target() != Some(k) {
          assert cs[i] == IcalChange(id, entries[i], now);
        }
      }
      UntouchedRowsKept(db, cs, now, k);
    }
  }

  /** A cancelled `VEVENT` that is the last entry for its uid leaves no row, and is neither
      upserted nor counted. */
  lemma CancelledLeavesNoRow(db: Db, id: nat, entries: seq<IcalEntry>, now: Instant, j: nat)
    requires IcalStoreOutcome(db, id, entries, now).result.Ok?
    requires j < |entries| && IsVevent(entries[j]) && IsCancelled(entries[j])
    requires forall i :: j < i < |entries| ==> entries[i].uid != entries[j].uid || !IsVevent(entries[i])
    ensures EventKey(id, entries[j].uid) !in IcalStoreOutcome(db, id, entries, now).db.events
  {
    var cs := IcalChanges(id, entries, now);
    var k := EventKey(id, entries[j].uid);
    assert cs[j].Target() == Some(k);
    var last := LastFor(cs, k);
    assert last >= j;
    assert last <= j;
    LastWriteWins(db, cs, now, k);
  }

  lemma IcalStoreKeepsValid(db: Db, id: nat, entries: seq<IcalEntry>, now: Instant)
    requires Valid(db)
    ensures Valid(IcalStoreOutcome(db, id, entries, now).db)
  {
    if id in db.calendars {
      var run := ApplyChanges(db, IcalChanges(id, entries, now), now);
      ApplyKeepsValid(db, IcalChanges(id, entries, now), now);
      if run.failure.None? {
        UpdateSyncStateKeepsValid(run.db, id, run.db.calendars[id].syncToken, Some(now));
      }
    }
  }

  lemma IcalSyncKeepsValid(db: Db, id: nat, now: Instant, feed: FeedReader)
    requires Valid(db)
    ensures Valid(IcalSyncOutcome(db, id, now, feed).db)
  {
    if id in db.calendars && db.calendars[id].provider == "ical" {
      if feed(db.calendars[id].calendarIdentifier).Ok? {
        IcalStoreKeepsValid(db, id, feed(db.calendars[id].calendarIdentifier).value, now);
      }
    }
  }

  // ---- The service, statement by statement ----

  /** `processAndStoreIcalEvents`. */
  method ProcessAndStoreIcalEvents(db: Database, id: nat, entries: seq<IcalEntry>, now: Instant)
    returns (r: Result<nat, SyncError>)
    requires Valid(db.State())
    modifies db
    ensures Synced(db.State(), r) == IcalStoreOutcome(old(db.State()), id, entries, now)
  {
    var found := db.FindCalendar(id);
    if found.None? {
      return Err(CalendarNotFound(id));
    }
    ghost var cs := IcalChanges(id, entries, now);
    ghost var goal := ApplyChanges(db.State(), cs, now);
    var processed := 0;
    var i := 0;
    while i < |entries|
      invariant 0 <= i <= |entries|
      invariant id in db.calendars
      invariant ApplyChanges(db.State(), cs[i..], now).db == goal.db
      invariant ApplyChanges(db.State(), cs[i..], now).failure == goal.failure
      invariant goal.upserted == processed + ApplyChanges(db.State(), cs[i..], now).upserted
    {
      assert cs[i..][0] == cs[i] && cs[i..][1..] == cs[i + 1..];
      var uid := entries[i].uid;
      var event := entries[i].component;
      if event.componentType != "VEVENT" {
        i := i + 1;
        continue;
      }
      if event.status == Some("CANCELLED") {
        db.DestroyEvent(EventKey(id, uid));
        i := i + 1;
        continue;
      }
      if event.start.None? {
        return Err(TypeError(if event.end.None? then StartMissingNoEnd else StartMissingWithEnd));
      }
      var attendees := CollectAttendees(event.attendee);
      var err := db.UpsertEvent(IcalEventData(id, uid, event, attendees, now), now);
      if err.Some? {
        return Err(err.value);
      }
      processed := processed + 1;
      i := i + 1;
    }
    db.UpdateSyncState(id, db.calendars[id].syncToken, Some(now));
    r := Ok(processed);
  }

  /** `syncIcalCalendar`. */
  method SyncIcalCalendar(db: Database, id: nat, now: Instant, feed: FeedReader)
    returns (r: Result<nat, SyncError>)
    requires Valid(db.State())
    modifies db
    ensures Synced(db.State(), r) == IcalSyncOutcome(old(db.State()), id, now, feed)
  {
    var found := db.FindCalendar(id);
    if found.None? {
      return Err(CalendarNotFound(id));
    }
    if found.value.provider != "ical" {
      return Err(NotAnIcalCalendar(id));
    }
    var parsed := feed(found.value.calendarIdentifier);
    if parsed.Err? {
      return Err(FeedError(parsed.error));
    }
    r := ProcessAndStoreIcalEvents(db, id, parsed.value, now);
  }
}
