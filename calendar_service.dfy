/** The calendar service: turns a parsed chat request into Google Calendar
    API calls (`createEvent`, `updateEvent`, the empty `deleteEvent`) and
    reports the outcome as a `{success, action | error}` value
    (`handleCalendarOperation`). The calendar API client is an object that
    records every call it receives and answers from two fixed oracles. */
module CalendarService {
  import opened Wrappers
  import opened JsDate
  import TokenStore

  const CALENDAR_ID := "primary"
  const TIME_ZONE := "Asia/Tokyo"
  const MEET_LINK := "Google Meet"
  const MEET_SOLUTION := "hangoutsMeet"
  const TOMORROW := "tomorrow"
  const DEFAULT_DURATION_MINUTES := 60
  const ORDER_BY_START := "startTime"
  const NOTIFY_ALL := "all"
  const NOTIFY_NONE := "none"

  const CREATE_LABEL := "登録"
  const UPDATE_LABEL := "更新"
  const DELETE_LABEL := "削除"

  const NEED_AUTH := "Googleカレンダーとの連携が必要です。\"/auth\"と送信して認証を行ってください。"
  const FAILURE_PREFIX := "カレンダー操作に失敗しました: "
  const UNKNOWN_ACTION := "不正な操作です"
  const NOT_FOUND := "指定された予定が見つかりませんでした"
  /** The message of the RangeError that `toISOString()` throws on an Invalid Date. */
  const INVALID_TIME_VALUE := "Invalid time value"
  /** The message of the TypeError that `undefined.split(':')` throws. */
  const SPLIT_OF_UNDEFINED := "Cannot read properties of undefined (reading 'split')"

  /** A JavaScript string-or-undefined used as a condition. */
  predicate Truthy(s: Option<string>) { s.Some? && s.value != "" }

  /** The request record produced by the message analyzer; an absent JSON
      field is `None`. */
  datatype Request = Request(
    action: Option<string>,
    date: Option<string>,
    time: Option<string>,
    duration: Option<int>,
    eventName: Option<string>,
    location: Option<string>,
    attendees: Option<seq<string>>,
    link: Option<string>)

  /** What `new Date()` and `new Date(dateStr)` see: the current instant and
      the engine's date-string parser. */
  datatype Clock = Clock(now: int, parseDate: string -> TimeValue)

  // ---------------------------------------------------------------- dates

  /** The date a request's date token denotes, at some time of that day:
      'tomorrow' is the current instant one day on, anything else goes to
      the date parser, and a missing token is an Invalid Date. */
  function DateFromToken(token: Option<string>, clock: Clock): TimeValue
  {
    if token == Some(TOMORROW) then AddDays(Some(clock.now), 1)
    else if token.None? then None
    else clock.parseDate(token.value)
  }

  /** The instant `parseDateTime(date, time)` returns, in closed form: the
      start of the token's day plus the parsed hours and minutes. A missing
      time string throws; an unparsable part gives an Invalid Date. */
  function StartOf(date: Option<string>, time: Option<string>, clock: Clock): Result<TimeValue, string>
  {
    if time.None? then Err(SPLIT_OF_UNDEFINED)
    else
      var (hours, minutes) := SplitTime(time.value);
      var day := DateFromToken(date, clock);
      var h := ParseInt(hours);
      var m := if minutes.Some? then ParseInt(minutes.value) else None;
      if day.Some? && h.Some? && m.Some? then
        Ok(Some(DayIndex(day.value) * MS_PER_DAY + h.value * MS_PER_HOUR + m.value * MS_PER_MINUTE))
      else Ok(None)
  }

  /** `parseDateTime`: builds the start instant by mutating one `Date` step
      by step, exactly as the source does. */
  method ParseDateTime(dateStr: Option<string>, timeStr: Option<string>, clock: Clock)
    returns (r: Result<TimeValue, string>)
    ensures r == StartOf(dateStr, timeStr, clock)
  {
    var date: TimeValue;
    if dateStr == Some(TOMORROW) {
      date := Some(clock.now);
      date := AddDays(date, 1);
    } else {
      date := if dateStr.Some? then clock.parseDate(dateStr.value) else None;
    }
    ghost var day := date;
    if timeStr.None? {
      return Err(SPLIT_OF_UNDEFINED);
    }
    var (hours, minutes) := SplitTime(timeStr.value);
    var h := ParseInt(hours);
    var m := if minutes.Some? then ParseInt(minutes.value) else None;
    date := SetHours(date, h);
    date := SetMinutes(date, m);
    date := SetSeconds(date, Some(0));
    date := SetMilliseconds(date, Some(0));
    assert day == DateFromToken(dateStr, clock);
    if day.Some? && h.Some? && m.Some? {
      SettersCompose(day.value, h.value, m.value);
    }
    return Ok(date);
  }

  /** Setting hours, minutes, then seconds and milliseconds to zero lands on
      the start of the day plus the given hours and minutes. */
  lemma SettersCompose(t: int, h: int, m: int)
    ensures SetMilliseconds(SetSeconds(SetMinutes(SetHours(Some(t), Some(h)), Some(m)), Some(0)), Some(0))
            == Some(DayIndex(t) * MS_PER_DAY + h * MS_PER_HOUR + m * MS_PER_MINUTE)
  {
    var hourShift := h - HourOfDay(t);
    var t1 := t + hourShift * MS_PER_HOUR;
    ShiftKeepsLowerFields(t, hourShift, 0, 0);
    var minuteShift := m - MinuteOfHour(t);
    var t2 := t1 + minuteShift * MS_PER_MINUTE;
    ShiftKeepsLowerFields(t, hourShift, minuteShift, 0);
    var secondShift := 0 - SecondOfMinute(t);
    var t3 := t2 + secondShift * MS_PER_SECOND;
    ShiftKeepsLowerFields(t, hourShift, minuteShift, secondShift);
    Decompose(t);
  }

  /** For a well-formed "HH:mm" inside the day, the start instant falls on
      the token's day at exactly HH:mm:00.000; it is an Invalid Date only
      when the date token is. */
  lemma StartOfClockTime(date: Option<string>, time: string, clock: Clock)
    requires IsClockTime(time) && ClockHours(time) < 24 && ClockMinutes(time) < 60
    ensures StartOf(date, Some(time), clock).Ok?
    ensures var r := StartOf(date, Some(time), clock).value;
      var day := DateFromToken(date, clock);
      (r.Some? <==> day.Some?)
      && (r.Some? ==>
            DayIndex(r.value) == DayIndex(day.value)
            && HourOfDay(r.value) == ClockHours(time) && MinuteOfHour(r.value) == ClockMinutes(time)
            && SecondOfMinute(r.value) == 0 && MillisecondOfSecond(r.value) == 0)
  {
    ParseClockTime(time);
    var day := DateFromToken(date, clock);
    if day.Some? {
      ComponentsOf(DayIndex(day.value), ClockHours(time), ClockMinutes(time), 0, 0);
    }
  }

  /** 'tomorrow' is the day after the current one; every other token is
      handed to the date parser as an absolute date. */
  lemma DateTokens(token: string, clock: Clock)
    ensures token == TOMORROW ==>
      DateFromToken(Some(token), clock).Some?
      && DayIndex(DateFromToken(Some(token), clock).value) == DayIndex(clock.now) + 1
      && HourOfDay(DateFromToken(Some(token), clock).value) == HourOfDay(clock.now)
      && MinuteOfHour(DateFromToken(Some(token), clock).value) == MinuteOfHour(clock.now)
      && SecondOfMinute(DateFromToken(Some(token), clock).value) == SecondOfMinute(clock.now)
      && MillisecondOfSecond(DateFromToken(Some(token), clock).value) == MillisecondOfSecond(clock.now)
    ensures token != TOMORROW ==> DateFromToken(Some(token), clock) == clock.parseDate(token)
  {
    ShiftByDays(clock.now, 1);
  }

  // -------------------------------------------------------------- payload

  datatype EventTime = EventTime(dateTime: int, timeZone: string)

  datatype Attendee = Attendee(email: string)

  /** A request that the provider create a Meet conference. */
  datatype ConferenceRequest = ConferenceRequest(requestId: string, solutionType: string)

  /** The `requestBody` of an insert or update; `None` is an absent field. */
  datatype EventBody = EventBody(
    summary: Option<string>,
    start: EventTime,
    end: EventTime,
    location: Option<string>,
    attendees: Option<seq<Attendee>>,
    conferenceData: Option<ConferenceRequest>)

  datatype ListQuery = ListQuery(
    calendarId: string, timeMin: int, timeMax: int, q: Option<string>, singleEvents: bool, orderBy: string)

  /** A call received by the calendar API client. */
  datatype ApiCall =
    | List(query: ListQuery)
    | Insert(calendarId: string, body: EventBody, conferenceDataVersion: int, sendUpdates: string)
    | Update(calendarId: string, eventId: string, body: EventBody, conferenceDataVersion: int, sendUpdates: string)

  /** An event returned by a search: its id, and whether it already carries
      conference data. */
  datatype ListedEvent = ListedEvent(id: string, hasConference: bool)

  /** `emails.map(email => ({ email }))`. */
  function ToAttendees(emails: seq<string>): (r: seq<Attendee>)
    ensures |r| == |emails|
    ensures forall i :: 0 <= i < |r| ==> r[i].email == emails[i]
  {
    if emails == [] then [] else [Attendee(emails[0])] + ToAttendees(emails[1..])
  }

  /** `request.duration || 60`. */
  function DurationMinutes(duration: Option<int>): int
  {
    if duration.None? || duration.value == 0 then DEFAULT_DURATION_MINUTES else duration.value
  }

  predicate MeetRequested(request: Request) { request.link == Some(MEET_LINK) }

  /** `eventData`, built as the source builds it: the required fields first,
      then each optional field added under its own condition. */
  function EventData(request: Request, start: int, end: int, meet: bool, requestId: string): (body: EventBody)
    ensures body.summary == request.eventName
    ensures body.start == EventTime(start, TIME_ZONE) && body.end == EventTime(end, TIME_ZONE)
    ensures body.location.Some? <==> Truthy(request.location)
    ensures body.location.Some? ==> body.location == request.location
    ensures body.attendees.Some? <==> request.attendees.Some? && request.attendees.value != []
    ensures body.attendees.Some? ==>
      |body.attendees.value| == |request.attendees.value|
      && forall i :: 0 <= i < |body.attendees.value| ==> body.attendees.value[i].email == request.attendees.value[i]
    ensures body.conferenceData.Some? <==> meet
    ensures body.conferenceData.Some? ==> body.conferenceData.value == ConferenceRequest(requestId, MEET_SOLUTION)
  {
    var required := EventBody(request.eventName, EventTime(start, TIME_ZONE), EventTime(end, TIME_ZONE), None, None, None);
    var located := if Truthy(request.location) then required.(location := request.location) else required;
    var invited :=
      if request.attendees.Some? && |request.attendees.value| > 0
      then located.(attendees := Some(ToAttendees(request.attendees.value)))
      else located;
    if meet then invited.(conferenceData := Some(ConferenceRequest(requestId, MEET_SOLUTION))) else invited
  }

  // --------------------------------------------------------------- client

  /** The Google Calendar client for one user: it records every call, answers
      searches from `listing`, and fails an insert or update with the message
      `writeFailure` gives for it. */
  class CalendarClient {
    var log: seq<ApiCall>
    const listing: ListQuery -> Result<seq<ListedEvent>, string>
    const writeFailure: ApiCall -> Option<string>

    constructor (listing: ListQuery -> Result<seq<ListedEvent>, string>, writeFailure: ApiCall -> Option<string>)
      ensures log == [] && this.listing == listing && this.writeFailure == writeFailure
    {
      this.listing := listing;
      this.writeFailure := writeFailure;
      log := [];
    }

    /** `calendar.events.list(query)`. */
    method List(query: ListQuery) returns (r: Result<seq<ListedEvent>, string>)
      modifies this
      ensures log == old(log) + [ApiCall.List(query)] && r == listing(query)
    {
      log := log + [ApiCall.List(query)];
      r := listing(query);
    }

    /** `calendar.events.insert(...)`; `Some(message)` when it throws. */
    method Insert(calendarId: string, body: EventBody, conferenceDataVersion: int, sendUpdates: string)
      returns (failure: Option<string>)
      modifies this
      ensures log == old(log) + [ApiCall.Insert(calendarId, body, conferenceDataVersion, sendUpdates)]
      ensures failure == writeFailure(ApiCall.Insert(calendarId, body, conferenceDataVersion, sendUpdates))
    {
      var call := ApiCall.Insert(calendarId, body, conferenceDataVersion, sendUpdates);
      log := log + [call];
      failure := writeFailure(call);
    }

    /** `calendar.events.update(...)`; `Some(message)` when it throws. */
    method Update(calendarId: string, eventId: string, body: EventBody, conferenceDataVersion: int, sendUpdates: string)
      returns (failure: Option<string>)
      modifies this
      ensures log == old(log) + [ApiCall.Update(calendarId, eventId, body, conferenceDataVersion, sendUpdates)]
      ensures failure == writeFailure(ApiCall.Update(calendarId, eventId, body, conferenceDataVersion, sendUpdates))
    {
      var call := ApiCall.Update(calendarId, eventId, body, conferenceDataVersion, sendUpdates);
      log := log + [call];
      failure := writeFailure(call);
    }
  }

  // ----------------------------------------------------------- operations

  /** The calls an operation sends, and the message of the exception it
      ends with (`None` when it returns normally). */
  datatype Run = Run(calls: seq<ApiCall>, thrown: Option<string>)

  function ConferenceVersion(request: Request): int { if MeetRequested(request) then 1 else 0 }

  function SendUpdates(request: Request): string { if request.attendees.Some? then NOTIFY_ALL else NOTIFY_NONE }

  /** What `createEvent` does. */
  function CreateRun(request: Request, clock: Clock, requestId: string, writeFailure: ApiCall -> Option<string>): Run
  {
    match StartOf(request.date, request.time, clock)
    case Err(message) => Run([], Some(message))
    case Ok(start) =>
      if start.None? then Run([], Some(INVALID_TIME_VALUE))
      else
        var s := start.value;
        var body := EventData(request, s, s + DurationMinutes(request.duration) * MS_PER_MINUTE, MeetRequested(request), requestId);
        var call := ApiCall.Insert(CALENDAR_ID, body, ConferenceVersion(request), SendUpdates(request));
        Run([call], writeFailure(call))
  }

  /** The search `updateEvent` sends for a request starting at `start`. */
  function SearchQuery(request: Request, start: int): ListQuery
  {
    ListQuery(CALENDAR_ID, start, start + MS_PER_HOUR, request.eventName, true, ORDER_BY_START)
  }

  /** What `updateEvent` does. */
  function UpdateRun(request: Request, clock: Clock, requestId: string,
                     listing: ListQuery -> Result<seq<ListedEvent>, string>,
                     writeFailure: ApiCall -> Option<string>): Run
  {
    match StartOf(request.date, request.time, clock)
    case Err(message) => Run([], Some(message))
    case Ok(start) =>
      if start.None? then Run([], Some(INVALID_TIME_VALUE))
      else UpdateFrom(request, start.value, requestId, listing, writeFailure)
  }

  /** What `updateEvent` does once its start instant `s` is valid: search,
      then overwrite the first hit. */
  function UpdateFrom(request: Request, s: int, requestId: string,
                      listing: ListQuery -> Result<seq<ListedEvent>, string>,
                      writeFailure: ApiCall -> Option<string>): Run
  {
    var search := ApiCall.List(SearchQuery(request, s));
    match listing(SearchQuery(request, s))
    case Err(message) => Run([search], Some(message))
    case Ok(items) =>
      if items == [] then Run([search], Some(NOT_FOUND))
      else
        var call := UpdateCall(request, s, items[0], requestId);
        Run([search, call], writeFailure(call))
  }

  /** The overwrite `updateEvent` sends for the first hit `target` of its
      search, for a request starting at `s`. */
  function UpdateCall(request: Request, s: int, target: ListedEvent, requestId: string): ApiCall
  {
    var body := EventData(request, s, s + DurationMinutes(request.duration) * MS_PER_MINUTE,
                          MeetRequested(request) && !target.hasConference, requestId);
    ApiCall.Update(CALENDAR_ID, target.id, body, ConferenceVersion(request), SendUpdates(request))
  }

  /** `createEvent(calendar, request)`. */
  method CreateEvent(client: CalendarClient, request: Request, clock: Clock, requestId: string)
    returns (thrown: Option<string>)
    modifies client
    ensures client.log == old(client.log) + CreateRun(request, clock, requestId, client.writeFailure).calls
    ensures thrown == CreateRun(request, clock, requestId, client.writeFailure).thrown
  {
    var parsed := ParseDateTime(request.date, request.time, clock);
    if parsed.Err? {
      return Some(parsed.error);
    }
    var startDateTime := parsed.value;
    var durationInMinutes := DurationMinutes(request.duration);
    var endDateTime := startDateTime;
    endDateTime := SetMinutes(endDateTime, if endDateTime.Some? then Some(MinuteOfHour(endDateTime.value) + durationInMinutes) else None);
    if startDateTime.None? || endDateTime.None? {
      return Some(INVALID_TIME_VALUE);
    }
    SetMinutesBy(startDateTime.value, durationInMinutes);
    var eventData := EventData(request, startDateTime.value, endDateTime.value, MeetRequested(request), requestId);
    thrown := client.Insert(CALENDAR_ID, eventData, ConferenceVersion(request), SendUpdates(request));
  }

  /** `updateEvent(calendar, request)`. */
  method UpdateEvent(client: CalendarClient, request: Request, clock: Clock, requestId: string)
    returns (thrown: Option<string>)
    modifies client
    ensures client.log == old(client.log) + UpdateRun(request, clock, requestId, client.listing, client.writeFailure).calls
    ensures thrown == UpdateRun(request, clock, requestId, client.listing, client.writeFailure).thrown
  {
    ghost var run := UpdateRun(request, clock, requestId, client.listing, client.writeFailure);
    var parsed := ParseDateTime(request.date, request.time, clock);
    if parsed.Err? {
      return Some(parsed.error);
    }
    var startDateTime := parsed.value;
    var endDateTime := startDateTime;
    endDateTime := SetHours(endDateTime, if endDateTime.Some? then Some(HourOfDay(endDateTime.value) + 1) else None);
    if startDateTime.None? || endDateTime.None? {
      return Some(INVALID_TIME_VALUE);
    }
    ghost var start := startDateTime.value;
    assert run == UpdateFrom(request, start, requestId, client.listing, client.writeFailure);
    SetHoursBy(start, 1);
    var query := ListQuery(CALENDAR_ID, startDateTime.value, endDateTime.value, request.eventName, true, ORDER_BY_START);
    assert query == SearchQuery(request, start);
    ghost var listed := client.listing(query);
    var events := client.List(query);
    if events.Err? {
      assert run == Run([ApiCall.List(query)], Some(listed.error));
      return Some(events.error);
    }
    if |events.value| == 0 {
      assert run == Run([ApiCall.List(query)], Some(NOT_FOUND));
      return Some(NOT_FOUND);
    }
    var event := events.value[0];
    var reparsed := ParseDateTime(request.date, request.time, clock);
    assert reparsed == parsed;
    var newStartDateTime := reparsed.value;
    ghost var call := UpdateCall(request, start, event, requestId);
    assert run == Run([ApiCall.List(query), call], client.writeFailure(call));
    thrown := Overwrite(client, request, event, newStartDateTime.value, requestId);
  }

  /** The second half of `updateEvent`: the new end instant, the payload,
      and the update of the event found. */
  method Overwrite(client: CalendarClient, request: Request, event: ListedEvent, newStart: int, requestId: string)
    returns (thrown: Option<string>)
    modifies client
    ensures client.log == old(client.log) + [UpdateCall(request, newStart, event, requestId)]
    ensures thrown == client.writeFailure(UpdateCall(request, newStart, event, requestId))
  {
    var newStartDateTime := Some(newStart);
    var newEndDateTime := SetMinutes(newStartDateTime, Some(MinuteOfHour(newStart) + DurationMinutes(request.duration)));
    SetMinutesBy(newStart, DurationMinutes(request.duration));
    var eventData := EventData(request, newStart, newEndDateTime.value, MeetRequested(request) && !event.hasConference, requestId);
    thrown := client.Update(CALENDAR_ID, event.id, eventData, ConferenceVersion(request), SendUpdates(request));
  }

  /** `deleteEvent(calendar, request)`: its body is empty, so it sends
      nothing and returns normally. */
  method DeleteEvent(client: CalendarClient, request: Request) returns (thrown: Option<string>)
    ensures thrown.None?
  {
    thrown := None;
  }

  // ------------------------------------------------------------- dispatch

  /** The value `handleCalendarOperation` resolves to. */
  datatype OpResult = OpResult(success: bool, action: Option<string>, error: Option<string>)

  function Succeeded(actionText: string): OpResult { OpResult(true, Some(actionText), None) }

  function Failed(message: string): OpResult { OpResult(false, None, Some(message)) }

  /** The label of each known action; `None` for any other. */
  function ActionLabel(action: Option<string>): Option<string>
  {
    if action == Some("create") then Some(CREATE_LABEL)
    else if action == Some("update") then Some(UPDATE_LABEL)
    else if action == Some("delete") then Some(DELETE_LABEL)
    else None
  }

  /** The calls and the result of one `handleCalendarOperation`. */
  datatype Operation = Operation(calls: seq<ApiCall>, result: OpResult)

  function OperationRun(store: TokenStore.Store, userId: string, request: Request, clock: Clock, requestId: string,
                        listing: ListQuery -> Result<seq<ListedEvent>, string>,
                        writeFailure: ApiCall -> Option<string>): Operation
  {
    match TokenStore.GetTokens(store, userId)
    case Err(message) => Operation([], Failed(FAILURE_PREFIX + message))
    case Ok(tokens) =>
      if tokens.None? then Operation([], Failed(NEED_AUTH))
      else
        match ActionLabel(request.action)
        case None => Operation([], Failed(FAILURE_PREFIX + UNKNOWN_ACTION))
        case Some(actionText) =>
          var run :=
            if request.action == Some("create") then CreateRun(request, clock, requestId, writeFailure)
            else if request.action == Some("update") then UpdateRun(request, clock, requestId, listing, writeFailure)
            else Run([], None);
          Operation(run.calls, if run.thrown.None? then Succeeded(actionText) else Failed(FAILURE_PREFIX + run.thrown.value))
  }

  /** `handleCalendarOperation(userId, request)`: every exception inside it
      is turned into a failed result. */
  method HandleCalendarOperation(store: TokenStore.Store, userId: string, request: Request,
                                 client: CalendarClient, clock: Clock, requestId: string)
    returns (result: OpResult)
    modifies client
    ensures client.log == old(client.log)
      + OperationRun(store, userId, request, clock, requestId, client.listing, client.writeFailure).calls
    ensures result == OperationRun(store, userId, request, clock, requestId, client.listing, client.writeFailure).result
  {
    var tokens := TokenStore.GetTokens(store, userId);
    if tokens.Err? {
      return Failed(FAILURE_PREFIX + tokens.error);
    }
    if tokens.value.None? {
      return Failed(NEED_AUTH);
    }
    var thrown: Option<string>;
    var actionText: string;
    if request.action == Some("create") {
      thrown := CreateEvent(client, request, clock, requestId);
      actionText := CREATE_LABEL;
    } else if request.action == Some("update") {
      thrown := UpdateEvent(client, request, clock, requestId);
      actionText := UPDATE_LABEL;
    } else if request.action == Some("delete") {
      thrown := DeleteEvent(client, request);
      actionText := DELETE_LABEL;
    } else {
      return Failed(FAILURE_PREFIX + UNKNOWN_ACTION);
    }
    result := if thrown.None? then Succeeded(actionText) else Failed(FAILURE_PREFIX + thrown.value);
  }

  // ----------------------------------------------------------- properties

  /** Holds when the request's date and time give a valid start instant. */
  predicate HasStart(request: Request, clock: Clock)
  {
    StartOf(request.date, request.time, clock).Ok? && StartOf(request.date, request.time, clock).value.Some?
  }

  function Start(request: Request, clock: Clock): int
    requires HasStart(request, clock)
  {
    StartOf(request.date, request.time, clock).value.value
  }

  /** `createEvent` sends one insert into the primary calendar; the event
      starts at the request's start and lasts the requested number of
      minutes, or 60 when the duration is absent or 0. */
  lemma CreateTiming(request: Request, clock: Clock, requestId: string, writeFailure: ApiCall -> Option<string>)
    requires HasStart(request, clock)
    ensures var run := CreateRun(request, clock, requestId, writeFailure);
      var s := Start(request, clock);
      |run.calls| == 1 && run.calls[0].Insert? && run.calls[0].calendarId == CALENDAR_ID
      && run.calls[0].body.start == EventTime(s, TIME_ZONE)
      && run.calls[0].body.end.timeZone == TIME_ZONE
      && run.calls[0].body.end.dateTime - s
         == (if request.duration.None? || request.duration == Some(0) then 60 else request.duration.value) * MS_PER_MINUTE
      && run.calls[0].body.summary == request.eventName
      && run.thrown == writeFailure(run.calls[0])
  {
  }

  /** The optional parts of the insert: a location only when the request's
      location is a non-empty string; attendees only for a non-empty list,
      one per address in order; notification of guests whenever the request
      has an attendee list, even an empty one; a Meet request and conference
      data version 1 exactly when the link asked for is Google Meet. */
  lemma CreateOptionalFields(request: Request, clock: Clock, requestId: string, writeFailure: ApiCall -> Option<string>)
    requires HasStart(request, clock)
    ensures var c := CreateRun(request, clock, requestId, writeFailure).calls[0];
      c.Insert?
      && (c.body.location.Some? <==> Truthy(request.location))
      && (c.body.location.Some? ==> c.body.location == request.location)
      && (c.body.attendees.Some? <==> request.attendees.Some? && request.attendees.value != [])
      && (c.body.attendees.Some? ==>
            |c.body.attendees.value| == |request.attendees.value|
            && forall i :: 0 <= i < |c.body.attendees.value| ==> c.body.attendees.value[i].email == request.attendees.value[i])
      && (c.sendUpdates == NOTIFY_ALL <==> request.attendees.Some?)
      && (c.sendUpdates == NOTIFY_ALL || c.sendUpdates == NOTIFY_NONE)
      && (c.body.conferenceData.Some? <==> request.link == Some(MEET_LINK))
      && (c.body.conferenceData.Some? ==> c.body.conferenceData.value.solutionType == MEET_SOLUTION)
      && (c.conferenceDataVersion == 1 <==> request.link == Some(MEET_LINK))
      && (c.conferenceDataVersion == 0 || c.conferenceDataVersion == 1)
  {
  }

  /** An empty attendee list adds no attendees but still asks for guest
      notification. */
  lemma EmptyGuestListStillNotifies(request: Request, clock: Clock, requestId: string, writeFailure: ApiCall -> Option<string>)
    requires HasStart(request, clock) && request.attendees == Some([])
    ensures var c := CreateRun(request, clock, requestId, writeFailure).calls[0];
      c.body.attendees.None? && c.sendUpdates == NOTIFY_ALL
  {
  }

  /** Without a valid start, `createEvent` throws before sending anything:
      the TypeError of a missing time, or the RangeError of an Invalid Date. */
  lemma CreateNeedsStart(request: Request, clock: Clock, requestId: string, writeFailure: ApiCall -> Option<string>)
    requires !HasStart(request, clock)
    ensures var run := CreateRun(request, clock, requestId, writeFailure);
      run.calls == [] && run.thrown.Some?
      && (request.time.None? ==> run.thrown == Some(SPLIT_OF_UNDEFINED))
      && (request.time.Some? ==> run.thrown == Some(INVALID_TIME_VALUE))
  {
  }

  /** `updateEvent` first searches the hour starting at the requested start
      by event name; a failing search or an empty result ends it before any
      write, the latter with the not-found error. */
  lemma UpdateSearch(request: Request, clock: Clock, requestId: string,
                     listing: ListQuery -> Result<seq<ListedEvent>, string>, writeFailure: ApiCall -> Option<string>)
    requires HasStart(request, clock)
    ensures var run := UpdateRun(request, clock, requestId, listing, writeFailure);
      var s := Start(request, clock);
      var query := ListQuery(CALENDAR_ID, s, s + MS_PER_HOUR, request.eventName, true, ORDER_BY_START);
      run.calls != [] && run.calls[0] == ApiCall.List(query)
      && (listing(query).Err? ==> run.calls == [ApiCall.List(query)] && run.thrown == Some(listing(query).error))
      && (listing(query) == Ok([]) ==> run.calls == [ApiCall.List(query)] && run.thrown == Some(NOT_FOUND))
      && (|run.calls| == 2 <==> listing(query).Ok? && listing(query).value != [])
  {
  }

  /** When the search finds events, `updateEvent` overwrites the first one:
      its id is the target, start and end come from the request alone, and a
      Meet request is added only if that event has no conference yet (the
      conference data version still follows the request). */
  lemma UpdateTargetsFirstHit(request: Request, clock: Clock, requestId: string,
                              listing: ListQuery -> Result<seq<ListedEvent>, string>,
                              writeFailure: ApiCall -> Option<string>)
    requires HasStart(request, clock)
    requires listing(SearchQuery(request, Start(request, clock))).Ok?
    requires listing(SearchQuery(request, Start(request, clock))).value != []
    ensures var run := UpdateRun(request, clock, requestId, listing, writeFailure);
      var s := Start(request, clock);
      var first := listing(SearchQuery(request, s)).value[0];
      |run.calls| == 2 && run.calls[1].Update?
      && run.calls[1].calendarId == CALENDAR_ID && run.calls[1].eventId == first.id
      && run.calls[1].body.summary == request.eventName
      && run.calls[1].body.start == EventTime(s, TIME_ZONE)
      && run.calls[1].body.end == EventTime(s + DurationMinutes(request.duration) * MS_PER_MINUTE, TIME_ZONE)
      && (run.calls[1].body.conferenceData.Some? <==> request.link == Some(MEET_LINK) && !first.hasConference)
      && (run.calls[1].conferenceDataVersion == 1 <==> request.link == Some(MEET_LINK))
      && (run.calls[1].sendUpdates == NOTIFY_ALL <==> request.attendees.Some?)
      && run.thrown == writeFailure(run.calls[1])
  {
  }

  /** With no stored tokens the operation fails with the link-your-calendar
      message and sends no calendar call; a failing token read fails with
      the read error. */
  lemma NoTokensNoCalls(store: TokenStore.Store, userId: string, request: Request, clock: Clock, requestId: string,
                        listing: ListQuery -> Result<seq<ListedEvent>, string>, writeFailure: ApiCall -> Option<string>)
    requires !TokenStore.GetTokens(store, userId).Ok? || TokenStore.GetTokens(store, userId).value.None?
    ensures var op := OperationRun(store, userId, request, clock, requestId, listing, writeFailure);
      op.calls == [] && !op.result.success
      && (TokenStore.GetTokens(store, userId).Ok? ==> op.result == Failed(NEED_AUTH))
      && (TokenStore.GetTokens(store, userId).Err? ==> op.result == Failed(FAILURE_PREFIX + TokenStore.READ_FAILED))
  {
  }

  /** Every outcome is a value: a success carries the action's label and no
      error; a failure carries a non-empty error message (the link prompt,
      or the failure prefix before the exception's message) and no label. */
  lemma OperationNeverThrows(store: TokenStore.Store, userId: string, request: Request, clock: Clock, requestId: string,
                             listing: ListQuery -> Result<seq<ListedEvent>, string>, writeFailure: ApiCall -> Option<string>)
    ensures var r := OperationRun(store, userId, request, clock, requestId, listing, writeFailure).result;
      (r.success ==> ActionLabel(request.action).Some? && r == Succeeded(ActionLabel(request.action).value))
      && (!r.success ==>
            r.action.None? && Truthy(r.error) && (r.error == Some(NEED_AUTH) || FAILURE_PREFIX <= r.error.value))
  {
  }

  /** With tokens stored: an unknown action fails without any call; `delete`
      reports success although nothing is sent; `create` and `update` send
      exactly the calls of their runs and succeed iff those runs return
      normally. */
  lemma Dispatch(store: TokenStore.Store, userId: string, request: Request, clock: Clock, requestId: string,
                 listing: ListQuery -> Result<seq<ListedEvent>, string>, writeFailure: ApiCall -> Option<string>)
    requires TokenStore.GetTokens(store, userId).Ok? && TokenStore.GetTokens(store, userId).value.Some?
    ensures var op := OperationRun(store, userId, request, clock, requestId, listing, writeFailure);
      (ActionLabel(request.action).None? ==> op.calls == [] && op.result == Failed(FAILURE_PREFIX + UNKNOWN_ACTION))
      && (request.action == Some("delete") ==> op.calls == [] && op.result == Succeeded(DELETE_LABEL))
      && (request.action == Some("create") ==>
            var run := CreateRun(request, clock, requestId, writeFailure);
            op.calls == run.calls && (op.result.success <==> run.thrown.None?)
            && (run.thrown.Some? ==> op.result.error == Some(FAILURE_PREFIX + run.thrown.value)))
      && (request.action == Some("update") ==>
            var run := UpdateRun(request, clock, requestId, listing, writeFailure);
            op.calls == run.calls && (op.result.success <==> run.thrown.None?)
            && (run.thrown.Some? ==> op.result.error == Some(FAILURE_PREFIX + run.thrown.value)))
  {
  }

  /** Only `create` and `update`, for a user with tokens, reach the calendar. */
  lemma CallsNeedTokensAndWriteAction(store: TokenStore.Store, userId: string, request: Request, clock: Clock, requestId: string,
                                      listing: ListQuery -> Result<seq<ListedEvent>, string>, writeFailure: ApiCall -> Option<string>)
    requires OperationRun(store, userId, request, clock, requestId, listing, writeFailure).calls != []
    ensures TokenStore.GetTokens(store, userId).Ok? && TokenStore.GetTokens(store, userId).value.Some?
    ensures request.action == Some("create") || request.action == Some("update")
    ensures HasStart(request, clock)
  {
  }
}
