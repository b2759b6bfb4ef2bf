/** Staging a Calendar event and turning the staged payload into the request
    that creates it (app/integrations/calendar.py). */
module Calendar {
  import opened Wrappers
  import opened Text

  const MAX_TITLE: nat := 300
  const MAX_LOCATION: nat := 500
  const MAX_DESCRIPTION: nat := 4000
  const MAX_ATTENDEES: nat := 20
  const MAX_CALENDAR_ID: nat := 256
  const MAX_EMAIL: nat := 320

  datatype Error =
    | BadTitle | BadLocation | BadDescription | BadEmail | TooManyAttendees
    | BadBounds | BadTimezone | BadCalendarId

  /** Explicit start and end texts and whether they are whole days. */
  datatype Bounds = Bounds(start: string, end: string, allDay: bool)

  /** The libraries consulted: which zone names exist, and how start and end
      texts resolve in a zone at the contact's current time. */
  datatype Library = Library(knownZone: string -> bool, resolve: (string, string, string) -> Option<Bounds>)

  datatype Payload = Payload(
    calendarId: string, title: string, start: string, end: string, timezone: string, allDay: bool,
    attendees: seq<string>, location: string, description: string)

  /** The model's tool arguments; an absent text or list reads as empty. */
  datatype Draft = Draft(
    calendarId: string, title: string, start: string, end: string, timezone: string,
    attendees: seq<string>, location: string, description: string)

  datatype When = Date(day: string) | DateTime(at: string, zone: string)

  datatype Body = Body(
    summary: string, start: When, end: When,
    location: Option<string>, description: Option<string>, attendees: Option<seq<string>>)

  /** The endpoint is determined by the calendar id, percent-encoded. */
  datatype Request = Request(calendarId: string, body: Body, notifyAll: bool)

  // ------------------------------------------------------------- validators

  function ValidateCalendarId(value: string): Result<string, Error> {
    var clean := Strip(value);
    if clean == "" || |clean| > MAX_CALENDAR_ID || (exists i :: 0 <= i < |clean| && IsSpace(clean[i])) then
      Err(BadCalendarId)
    else Ok(clean)
  }

  function ValidateTimezone(lib: Library, name: string): Result<string, Error> {
    var clean := Strip(name);
    if clean == "" || !lib.knownZone(clean) then Err(BadTimezone) else Ok(clean)
  }

  predicate Plain(c: char) { !IsSpace(c) && c != '@' && c != '<' && c != '>' }

  predicate AllPlain(s: string) { forall i :: 0 <= i < |s| ==> Plain(s[i]) }

  /** Something, an at sign, and something with a dot strictly inside. */
  predicate IsEmail(s: string) {
    var at := IndexOf(s, '@');
    && 0 < at < |s| && AllPlain(s[..at]) && AllPlain(s[at + 1..])
    && exists dot :: at + 2 <= dot < |s| - 1 && s[dot] == '.'
  }

  function ValidateEmail(value: string): Result<string, Error> {
    var address := Strip(value);
    if |address| > MAX_EMAIL || !IsEmail(address) then Err(BadEmail) else Ok(address)
  }

  predicate ValidEmail(value: string) { ValidateEmail(value).Ok? }

  /** Every address validated in order, or the first error. */
  function ValidateEmails(values: seq<string>): Result<seq<string>, Error> {
    if forall i :: 0 <= i < |values| ==> ValidEmail(values[i]) then
      Ok(seq(|values|, i requires 0 <= i < |values| => Strip(values[i])))
    else Err(BadEmail)
  }

  // ------------------------------------------------------------ specification

  function ValidateCreate(lib: Library, d: Draft): Result<Payload, Error> {
    var title := Compact(d.title, MAX_TITLE + 1);
    var location := Compact(d.location, MAX_LOCATION + 1);
    var description := Strip(d.description);
    var emails := ValidateEmails(d.attendees);
    var zone := ValidateTimezone(lib, d.timezone);
    var calendar := ValidateCalendarId(d.calendarId);
    if title == "" || |title| > MAX_TITLE then Err(BadTitle)
    else if |location| > MAX_LOCATION then Err(BadLocation)
    else if |description| > MAX_DESCRIPTION then Err(BadDescription)
    else if emails.Err? then Err(emails.error)
    else if |emails.value| > MAX_ATTENDEES then Err(TooManyAttendees)
    else if zone.Err? then Err(zone.error)
    else
      var bounds := lib.resolve(d.start, d.end, zone.value);
      if bounds.None? then Err(BadBounds)
      else if calendar.Err? then Err(calendar.error)
      else Ok(Payload(calendar.value, title, bounds.value.start, bounds.value.end, zone.value, bounds.value.allDay,
                      emails.value, location, description))
  }

  function NonEmpty(s: string): Option<string> { if s == "" then None else Some(s) }

  function Instants(p: Payload, zone: string): (When, When) {
    if p.allDay then (Date(p.start), Date(p.end)) else (DateTime(p.start, zone), DateTime(p.end, zone))
  }

  function Cut(s: string, limit: nat): string { if |s| <= limit then s else s[..limit] }

  function CreateRequest(lib: Library, p: Payload): Result<Request, Error> {
    var calendar := ValidateCalendarId(p.calendarId);
    var title := Compact(p.title, MAX_TITLE);
    var zone := ValidateTimezone(lib, p.timezone);
    var emails := ValidateEmails(p.attendees);
    if calendar.Err? then Err(calendar.error)
    else if title == "" then Err(BadTitle)
    else if zone.Err? then Err(zone.error)
    else if emails.Err? then Err(emails.error)
    else
      var (start, end) := Instants(p, zone.value);
      var body := Body(title, start, end,
                       NonEmpty(Compact(p.location, MAX_LOCATION)),
                       NonEmpty(Cut(Strip(p.description), MAX_DESCRIPTION)),
                       if emails.value == [] then None else Some(emails.value));
      Ok(Request(calendar.value, body, emails.value != []))
  }

  // ------------------------------------------------------------- step by step

  method CollectEmails(values: seq<string>) returns (emails: Result<seq<string>, Error>)
    ensures emails == ValidateEmails(values)
  {
    var collected: seq<string> := [];
    for i := 0 to |values|
      invariant forall k :: 0 <= k < i ==> ValidEmail(values[k])
      invariant collected == seq(i, k requires 0 <= k < i => Strip(values[k]))
    {
      var address := ValidateEmail(values[i]);
      if address.Err? {
        assert !ValidEmail(values[i]);
        return Err(address.error);
      }
      collected := collected + [address.value];
    }
    return Ok(collected);
  }

  method ValidateCreatePayload(lib: Library, d: Draft) returns (r: Result<Payload, Error>)
    ensures r == ValidateCreate(lib, d)
  {
    var title := Compact(d.title, MAX_TITLE + 1);
    if title == "" || |title| > MAX_TITLE {
      return Err(BadTitle);
    }
    var location := Compact(d.location, MAX_LOCATION + 1);
    if |location| > MAX_LOCATION {
      return Err(BadLocation);
    }
    var description := Strip(d.description);
    if |description| > MAX_DESCRIPTION {
      return Err(BadDescription);
    }
    var emails := CollectEmails(d.attendees);
    if emails.Err? {
      return Err(emails.error);
    }
    if |emails.value| > MAX_ATTENDEES {
      return Err(TooManyAttendees);
    }
    var zone := ValidateTimezone(lib, d.timezone);
    if zone.Err? {
      return Err(zone.error);
    }
    var bounds := lib.resolve(d.start, d.end, zone.value);
    if bounds.None? {
      return Err(BadBounds);
    }
    var calendar := ValidateCalendarId(d.calendarId);
    if calendar.Err? {
      return Err(calendar.error);
    }
    var Bounds(start, end, allDay) := bounds.value;
    return Ok(Payload(calendar.value, title, start, end, zone.value, allDay, emails.value, location, description));
  }

  method CreateEventRequest(lib: Library, p: Payload) returns (r: Result<Request, Error>)
    ensures r == CreateRequest(lib, p)
  {
    var calendar := ValidateCalendarId(p.calendarId);
    if calendar.Err? {
      return Err(calendar.error);
    }
    var title := Compact(p.title, MAX_TITLE);
    if title == "" {
      return Err(BadTitle);
    }
    var zone := ValidateTimezone(lib, p.timezone);
    if zone.Err? {
      return Err(zone.error);
    }
    var start, end := DateTime(p.start, zone.value), DateTime(p.end, zone.value);
    if p.allDay {
      start, end := Date(p.start), Date(p.end);
    }
    var body := Body(title, start, end, None, None, None);
    var location := Compact(p.location, MAX_LOCATION);
    if location != "" {
      body := body.(location := Some(location));
    }
    if Strip(p.description) != "" {
      body := body.(description := Some(Cut(Strip(p.description), MAX_DESCRIPTION)));
    }
    var emails := CollectEmails(p.attendees);
    if emails.Err? {
      return Err(emails.error);
    }
    if emails.value != [] {
      body := body.(attendees := Some(emails.value));
    }
    return Ok(Request(calendar.value, body, emails.value != []));
  }

  // ------------------------------------------------------------------ theorems

  /** The request says exactly what was staged, no more and no less. */
  predicate Carries(r: Request, p: Payload) {
    && r.calendarId == p.calendarId && r.body.summary == p.title
    && r.body.start == (if p.allDay then Date(p.start) else DateTime(p.start, p.timezone))
    && r.body.end == (if p.allDay then Date(p.end) else DateTime(p.end, p.timezone))
    && (r.body.location.None? <==> p.location == "") && (r.body.location.Some? ==> r.body.location.value == p.location)
    && (r.body.description.None? <==> p.description == "")
    && (r.body.description.Some? ==> r.body.description.value == p.description)
    && (r.body.attendees.None? <==> p.attendees == [])
    && (r.body.attendees.Some? ==> r.body.attendees.value == p.attendees)
    && (r.notifyAll <==> p.attendees != [])
  }

  lemma ValidatedOnceMore(lib: Library, value: string)
    ensures var clean := ValidateCalendarId(value);
            clean.Ok? ==> ValidateCalendarId(clean.value) == clean
    ensures ValidateTimezone(lib, value).Ok? ==>
              ValidateTimezone(lib, ValidateTimezone(lib, value).value) == ValidateTimezone(lib, value)
    ensures ValidateEmail(value).Ok? ==> ValidateEmail(ValidateEmail(value).value) == ValidateEmail(value)
  {
    StripFacts(value);
    StripIdempotent(Strip(value));
  }

  lemma EmailsOnceMore(lib: Library, values: seq<string>)
    requires ValidateEmails(values).Ok?
    ensures ValidateEmails(ValidateEmails(values).value) == ValidateEmails(values)
  {
    var emails := ValidateEmails(values).value;
    forall i | 0 <= i < |values| ensures ValidEmail(emails[i]) && Strip(emails[i]) == emails[i] {
      assert ValidEmail(values[i]);
      ValidatedOnceMore(lib, values[i]);
    }
    assert ValidateEmails(emails).value == emails;
  }

  /** Accepted titles, locations and descriptions are fixpoints of the cleaning
      that the request applies to them once more. */
  lemma AcceptedTextsAreFixpoints(lib: Library, d: Draft)
    requires ValidateCreate(lib, d).Ok?
    ensures var p := ValidateCreate(lib, d).value;
            && Compact(p.title, MAX_TITLE) == p.title == Compact(d.title, MAX_TITLE + 1)
            && Compact(p.location, MAX_LOCATION) == p.location == Compact(d.location, MAX_LOCATION + 1)
            && Strip(p.description) == p.description == Strip(d.description)
  {
    UncutIsFixpoint(d.title, MAX_TITLE + 1, MAX_TITLE);
    UncutIsFixpoint(d.location, MAX_LOCATION + 1, MAX_LOCATION);
    StripFacts(d.description);
    StripIdempotent(Strip(d.description));
  }

  /** A name, an at sign and a host with a dot inside, of plain characters only. */
  ghost predicate IsAddress(s: string) {
    exists local: string, host: string, tail: string ::
      s == local + ['@'] + host + ['.'] + tail && local != "" && host != "" && tail != ""
      && PlainText(local) && PlainText(host) && PlainText(tail)
  }

  predicate PlainText(s: string) {
    forall i :: 0 <= i < |s| ==> !IsSpace(s[i]) && s[i] != '@' && s[i] != '<' && s[i] != '>'
  }

  lemma PlainPiece(s: string, i: nat, j: nat)
    requires AllPlain(s) && i <= j <= |s|
    ensures PlainText(s[i..j])
  {
    forall k | 0 <= k < j - i ensures Plain(s[i..j][k]) { assert s[i..j][k] == s[i + k]; }
  }

  lemma IsAddressOf(s: string, local: string, host: string, tail: string)
    requires s == local + ['@'] + host + ['.'] + tail && local != "" && host != "" && tail != ""
    requires PlainText(local) && PlainText(host) && PlainText(tail)
    ensures IsAddress(s)
  {}

  lemma SplitAddress(local: string, rest: string, dot: nat)
    requires local != "" && AllPlain(local) && AllPlain(rest) && 1 <= dot < |rest| - 1 && rest[dot] == '.'
    ensures IsAddress(local + ['@'] + rest)
  {
    var host, tail := rest[..dot], rest[dot + 1..];
    PlainPiece(rest, 0, dot);
    PlainPiece(rest, dot + 1, |rest|);
    PlainPiece(local, 0, |local|);
    assert rest == host + ['.'] + tail && local[0..|local|] == local;
    assert rest[0..dot] == host && rest[dot + 1..|rest|] == tail;
    assert local + ['@'] + rest == local + ['@'] + host + ['.'] + tail;
    IsAddressOf(local + ['@'] + rest, local, host, tail);
  }

  lemma JoinedAddress(local: string, host: string, tail: string)
    requires local != "" && host != "" && tail != "" && PlainText(local) && PlainText(host) && PlainText(tail)
    ensures IsEmail(local + ['@'] + host + ['.'] + tail)
  {
    var rest := host + ['.'] + tail;
    var s := local + ['@'] + rest;
    assert local + ['@'] + host + ['.'] + tail == s;
    IndexAfterPrefix(local, '@', rest);
    assert s[..|local|] == local && s[|local| + 1..] == rest;
    assert forall i :: 0 <= i < |rest| ==> Plain(rest[i]);
    var dot := |local| + 1 + |host|;
    assert s[dot] == '.';
  }

  /** WHICH ADDRESSES ARE VALID. */
  lemma EmailExactly(s: string)
    ensures IsEmail(s) <==> IsAddress(s)
  {
    if IsEmail(s) {
      var at := IndexOf(s, '@');
      var dot :| at + 2 <= dot < |s| - 1 && s[dot] == '.';
      assert s == s[..at] + ['@'] + s[at + 1..] && s[at + 1..][dot - at - 1] == '.';
      SplitAddress(s[..at], s[at + 1..], dot - at - 1);
    }
    if IsAddress(s) {
      var local: string, host: string, tail: string :|
        s == local + ['@'] + host + ['.'] + tail && local != "" && host != "" && tail != ""
        && PlainText(local) && PlainText(host) && PlainText(tail);
      JoinedAddress(local, host, tail);
    }
  }

  /** What staging accepts, whatever the order of its checks. */
  ghost predicate Acceptable(lib: Library, d: Draft) {
    && 1 <= |Compact(d.title, 301)| <= 300 && |Compact(d.location, 501)| <= 500 && |Strip(d.description)| <= 4000
    && |d.attendees| <= 20
    && (forall i :: 0 <= i < |d.attendees| ==> |Strip(d.attendees[i])| <= 320 && IsAddress(Strip(d.attendees[i])))
    && Strip(d.timezone) != "" && lib.knownZone(Strip(d.timezone))
    && lib.resolve(d.start, d.end, Strip(d.timezone)).Some?
    && 1 <= |Strip(d.calendarId)| <= 256
    && (forall i :: 0 <= i < |Strip(d.calendarId)| ==> !IsSpace(Strip(d.calendarId)[i]))
  }

  /** Staging accepts exactly the acceptable drafts, keeps every field in its
      place and takes both bounds as resolved. */
  lemma StagedExactly(lib: Library, d: Draft)
    ensures ValidateCreate(lib, d).Ok? <==> Acceptable(lib, d)
    ensures Acceptable(lib, d) ==>
              var p := ValidateCreate(lib, d).value;
              && p.calendarId == Strip(d.calendarId) && p.timezone == Strip(d.timezone)
              && p.title == Compact(d.title, 301) && p.location == Compact(d.location, 501)
              && p.description == Strip(d.description)
              && lib.resolve(d.start, d.end, p.timezone) == Some(Bounds(p.start, p.end, p.allDay))
              && |p.attendees| == |d.attendees|
              && forall i :: 0 <= i < |p.attendees| ==> p.attendees[i] == Strip(d.attendees[i])
  {
    forall i | 0 <= i < |d.attendees|
      ensures ValidEmail(d.attendees[i]) <==>
                |Strip(d.attendees[i])| <= 320 && IsAddress(Strip(d.attendees[i]))
    {
      EmailExactly(Strip(d.attendees[i]));
    }
  }

  ghost predicate BadAttendee(address: string) { !(|Strip(address)| <= 320 && IsAddress(Strip(address))) }

  ghost predicate BadZone(lib: Library, name: string) { Strip(name) == "" || !lib.knownZone(Strip(name)) }

  ghost predicate BadCalendar(id: string) {
    !(1 <= |Strip(id)| <= 256) || exists i :: 0 <= i < |Strip(id)| && IsSpace(Strip(id)[i])
  }

  /** The first thing wrong with a draft, as its arguments are checked. */
  ghost predicate FirstFault(lib: Library, d: Draft, e: Error) {
    var untitled := !(1 <= |Compact(d.title, 301)| <= 300);
    var texts := !untitled && |Compact(d.location, 501)| <= 500;
    var described := texts && |Strip(d.description)| <= 4000;
    var addressed := described && forall i :: 0 <= i < |d.attendees| ==> !BadAttendee(d.attendees[i]);
    var zoned := addressed && |d.attendees| <= 20 && !BadZone(lib, d.timezone);
    match e
    case BadTitle => untitled
    case BadLocation => !untitled && !texts
    case BadDescription => texts && !described
    case BadEmail => described && !addressed
    case TooManyAttendees => addressed && |d.attendees| > 20
    case BadTimezone => addressed && |d.attendees| <= 20 && BadZone(lib, d.timezone)
    case BadBounds => zoned && lib.resolve(d.start, d.end, Strip(d.timezone)).None?
    case BadCalendarId =>
      zoned && lib.resolve(d.start, d.end, Strip(d.timezone)).Some? && BadCalendar(d.calendarId)
  }

  lemma EmailsExactly(values: seq<string>)
    ensures ValidateEmails(values) == Err(BadEmail) <==> exists i :: 0 <= i < |values| && BadAttendee(values[i])
    ensures ValidateEmails(values).Ok? ==>
              && |ValidateEmails(values).value| == |values|
              && forall i :: 0 <= i < |values| ==> ValidateEmails(values).value[i] == Strip(values[i])
  {
    forall i | 0 <= i < |values| ensures ValidEmail(values[i]) <==> !BadAttendee(values[i]) {
      EmailExactly(Strip(values[i]));
    }
  }

  /** WHY A DRAFT IS REFUSED: for the first thing wrong with it. */
  lemma RefusedExactly(lib: Library, d: Draft)
    ensures ValidateCreate(lib, d).Err? ==> FirstFault(lib, d, ValidateCreate(lib, d).error)
  {
    EmailsExactly(d.attendees);
  }

  /** WHICH PAYLOADS BUILD A REQUEST, staged or not, and what is wrong with the others. */
  lemma RequestExactly(lib: Library, p: Payload)
    ensures var r := CreateRequest(lib, p);
            if BadCalendar(p.calendarId) then r == Err(BadCalendarId)
            else if Compact(p.title, 300) == "" then r == Err(BadTitle)
            else if BadZone(lib, p.timezone) then r == Err(BadTimezone)
            else if exists i :: 0 <= i < |p.attendees| && BadAttendee(p.attendees[i]) then r == Err(BadEmail)
            else r.Ok? && r.value.calendarId == Strip(p.calendarId) && r.value.body.summary == Compact(p.title, 300)
  {
    EmailsExactly(p.attendees);
  }

  /** STAGED EVENTS ARE EXECUTABLE: every payload that staging accepts is
      accepted by the request builder, whose body carries exactly that payload. */
  lemma StagedIsExecutable(lib: Library, d: Draft)
    requires ValidateCreate(lib, d).Ok?
    ensures var p := ValidateCreate(lib, d).value;
            CreateRequest(lib, p).Ok? && Carries(CreateRequest(lib, p).value, p)
  {
    AcceptedTextsAreFixpoints(lib, d);
    ValidatedOnceMore(lib, d.calendarId);
    ValidatedOnceMore(lib, d.timezone);
    EmailsOnceMore(lib, d.attendees);
  }

  lemma CompactIsNotIdempotent()
    ensures Compact(Compact("a b", 2), 2) == "a" && Compact("a b", 2) == "a "
  {
    assert Squeeze("b") == "b";
    assert TrimLeft(" b"[1..]) == "b";
    assert Squeeze(" b") == " b";
    assert Squeeze("a b") == "a" + Squeeze(" b");
    assert Squeeze(" ") == " " + Squeeze("");
    assert Squeeze("a ") == "a" + Squeeze(" ");
    assert TrimRight("a ") == TrimRight("a");
  }
}
