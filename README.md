# line-google-cal: the chat-to-calendar core in Dafny

A model of the core of a LINE chat bot that manages a user's Google Calendar.
The bot receives a webhook batch of chat events. For each text message it
does the following:

- It looks up the sender's stored OAuth tokens.
- If the sender has not linked a calendar, it asks them to.
- It answers the `/auth` command with an authorisation link.
- For any other message, it has the message turned into a structured request
  `{action, date, time, duration, eventName, location, attendees, link}`
  and checks that the date, the time and the event name are present.
- It runs the request against the calendar: `create` inserts an event,
  `update` searches for one and overwrites the first hit, `delete` does
  nothing.
- It replies with the outcome.

The project has five modules:

- `Wrappers`: `Option` and `Result`.
- `TokenStore`: `getTokens` and `saveTokens` over a map from user id to
  tokens. It is a value, and the store can be unreachable.
- `JsDate`: the parts of JavaScript's `Date`, `parseInt` and `split` that
  the calendar code uses. A `Date` is its time value in milliseconds of
  local time, or `None` for an Invalid Date (NaN). The setters are written
  out as ECMAScript defines them, carry into the next field included.
- `CalendarService`:
  - `parseDateTime` is a method that mutates the date step by step, as the
    source does. It is proved equal to a closed form (`StartOf`), and the
    lemmas about that closed form say what it means.
  - The Google Calendar API client is a class. It records every
    `list`/`insert`/`update` call in a `log` field and answers from two
    fixed oracles.
  - `createEvent`, `updateEvent`, `deleteEvent` and
    `handleCalendarOperation` are methods that take that client.
  - Each method is proved to append exactly the calls of a specification
    function (`CreateRun`, `UpdateRun`, `OperationRun`) and to return its
    result. The lemmas state what those runs do.
  - JavaScript exceptions are values: the message the operation would
    throw, caught by `handleCalendarOperation` and turned into
    `{success: false, error}`.
- `LineHandler`:
  - `handleLineWebhook` is a loop over the events. Each pass
    (`HandleEvent`) is proved equal to the per-event specification
    `EventCalls`, and the whole loop to the batch specification `Batch`.
  - The effect of a batch is the sequence of calls it makes, each tagged
    with the index of its event: the token lookup, the auth-link fetch, the
    analysis, the calendar operation and the replies.
  - The collaborators are oracles in `Services`: the token store, the
    auth-link service, the analyser, the calendar operation, and whether a
    reply is delivered.

Four behaviours of the code worth knowing:

- **The batch can fail.** An exception outside the per-message `try` aborts
  the whole batch with status 500 and skips the remaining events. Such an
  exception comes from a failing token read, a failing auth-link call, or an
  undelivered prompt, link or guidance reply. The batch does not always
  answer 200.
- **Guest notification.** Guests are notified (`sendUpdates: 'all'`)
  whenever the request has an attendee list, even an empty one that adds no
  attendees.
- **`update` does not merge.** It takes the first event that the
  name-and-one-hour search returns and overwrites it with the request's
  fields. No fields from the matched event are merged in, and there is no
  conversation memory.
- **`delete` is a stub.** It sends nothing and still reports success.

## Model

| member | source | states |
|---|---|---|
| JsDate.SetHours | src/services/calendarService.js:17 | `setHours(h)` gives an Invalid Date exactly when the date or `h` is NaN; otherwise it moves the instant by whole hours up to hour `h`, keeping the smaller fields and carrying out-of-range values into the day |
| JsDate.SetMinutes | src/services/calendarService.js:18 | `setMinutes(m)` gives an Invalid Date exactly when the date or `m` is NaN; otherwise it moves the instant by whole minutes up to minute `m`, carrying into the hour |
| JsDate.SetSeconds | src/services/calendarService.js:19 | `setSeconds(s)` gives an Invalid Date exactly when either input is NaN; otherwise it moves the instant by whole seconds up to second `s` |
| JsDate.SetMilliseconds | src/services/calendarService.js:20 | `setMilliseconds(ms)` gives an Invalid Date exactly when either input is NaN. Otherwise it moves the instant to millisecond `ms` of its second; for `ms` in 0..999 the millisecond field becomes `ms` and the instant's second is kept |
| JsDate.AddDays | src/services/calendarService.js:9-10 | `setDate(getDate() + k)` keeps an Invalid Date invalid. A valid date lands `k` days on, with its hour, minute, second and millisecond kept |
| JsDate.ShiftByDays | src/services/calendarService.js:10 | moving an instant by whole days changes its day by that many and keeps its hour, minute, second and millisecond |
| JsDate.SplitTime | src/services/calendarService.js:16 | `split(':')` gives a first field that is a colon-free prefix of the string. The first field is the whole string and the second is `undefined` iff the string has no colon. Otherwise the first field ends at the first colon, and the second is the text after it up to the next colon or the end |
| JsDate.SetHoursBy | src/services/calendarService.js:121 | `setHours(getHours() + k)` moves a valid instant by exactly `k` hours |
| JsDate.SetMinutesBy | src/services/calendarService.js:75 | `setMinutes(getMinutes() + k)` moves a valid instant by exactly `k` minutes |
| JsDate.ParseInt | src/services/calendarService.js:17-18 | `parseInt(s, 10)` skips leading white space and a sign and reads the digits that follow; it is NaN when there are none. `ParseIntOfNumeral` proves that a numeral gives its value |
| JsDate.BeforeColon | src/services/calendarService.js:16 | the first `split(':')` field is a prefix of the string with no colon, followed by a colon unless it is the whole string |
| JsDate.ParseIntOfNumeral | src/services/calendarService.js:17-18 | `parseInt(s, 10)` of a string of decimal digits is its numeric value |
| JsDate.ParseClockTime | src/services/calendarService.js:16-18 | for an "HH:mm" string, splitting on ':' and parsing each part yields its hour and its minute |
| CalendarService.DateFromToken | src/services/calendarService.js:8-14 | the date a token denotes: 'tomorrow' is the current instant one day on, a missing token is an Invalid Date, and any other token goes to the date parser. `DateTokens` proves that 'tomorrow' is the next day at the current time of day |
| CalendarService.StartOf | src/services/calendarService.js:4-23 | the closed form of `parseDateTime`. `ParseDateTime` is proved equal to it, and `StartOfClockTime` proves that a valid "HH:mm" puts it on the token's day at that time |
| CalendarService.ParseDateTime | src/services/calendarService.js:4-23 | the step-by-step mutation of the `Date` ends at the closed form `StartOf`: the date token's day plus the parsed hours and minutes. A missing time string throws the `split` TypeError, and an unparsable part gives an Invalid Date |
| CalendarService.SettersCompose | src/services/calendarService.js:17-20 | setting hours then minutes, and seconds and milliseconds to 0, lands on the start of the day plus those hours and minutes, for any hour and minute values |
| CalendarService.StartOfClockTime | src/services/calendarService.js:4-23 | for a valid "HH:mm", the start is an Invalid Date iff the date token is; otherwise it is on the token's day at exactly HH:mm:00.000 |
| CalendarService.DateTokens | src/services/calendarService.js:8-14 | 'tomorrow' is the current day plus one, at the current time of day; any other token is handed to the engine's date parser |
| CalendarService.ToAttendees | src/services/calendarService.js:96 | `emails.map(email => ({ email }))` keeps the length and maps each address, in order |
| CalendarService.EventData | src/services/calendarService.js:77-107 | the request body carries the request's name and the Tokyo-zoned start and end. The location is set iff it is a non-empty string, and the attendees iff the list is non-empty, one per address in order. A Meet conference request is added iff asked for |
| CalendarService.DurationMinutes | src/services/calendarService.js:74 | the duration, or 60 when it is absent or 0. `CreateTiming` proves that an absent or zero duration gives a 60-minute event and any other duration that many minutes |
| CalendarService.MeetRequested | src/services/calendarService.js:100 | a Meet conference is asked for iff the link is "Google Meet". `CreateOptionalFields` and `UpdateTargetsFirstHit` prove that it gates the conference request |
| CalendarService.SearchQuery | src/services/calendarService.js:123-130 | the `events.list` arguments: `primary`, from the start to one hour later, by event name, single events ordered by start time. `UpdateSearch` proves that `updateEvent` sends exactly this search first |
| CalendarService.ConferenceVersion | src/services/calendarService.js:112 | `conferenceDataVersion` is 1 iff the link is "Google Meet", else 0, as `CreateOptionalFields` and `UpdateTargetsFirstHit` prove |
| CalendarService.SendUpdates | src/services/calendarService.js:113 | `sendUpdates` is 'all' iff the request carries an attendee list, else 'none', as `CreateOptionalFields` and `EmptyGuestListStillNotifies` prove |
| CalendarService.CalendarClient.constructor | src/services/calendarService.js:35 | a fresh client has recorded no call |
| CalendarService.CalendarClient.List | src/services/calendarService.js:123-130 | `events.list` records the query and returns the listing for it |
| CalendarService.CalendarClient.Insert | src/services/calendarService.js:109-114 | `events.insert` records the call and fails as the oracle says for it |
| CalendarService.CalendarClient.Update | src/services/calendarService.js:175-181 | `events.update` records the call and fails as the oracle says for it |
| CalendarService.CreateRun | src/services/calendarService.js:69-115 | what `createEvent` does: no call and the parser's exception, no call and the RangeError for an Invalid Date, or one insert that fails as the client says. `CreateTiming`, `CreateOptionalFields` and `CreateNeedsStart` prove its properties |
| CalendarService.UpdateRun | src/services/calendarService.js:117-182 | what `updateEvent` does: the same start checks as `createEvent`, then `UpdateFrom`. `UpdateSearch` and `UpdateTargetsFirstHit` prove its properties |
| CalendarService.UpdateFrom | src/services/calendarService.js:123-181 | the search and then either the failure, the "not found" error, or the update of the first hit, as `UpdateSearch` proves |
| CalendarService.UpdateCall | src/services/calendarService.js:136-181 | the update of the first hit, with the payload built from the request. `UpdateTargetsFirstHit` proves its target, times, conference data, version and notification |
| CalendarService.CreateEvent | src/services/calendarService.js:69-115 | the calls sent and the exception raised are exactly those of `CreateRun` |
| CalendarService.UpdateEvent | src/services/calendarService.js:117-182 | the calls sent and the exception raised are exactly those of `UpdateRun`, including the second `parseDateTime` |
| CalendarService.Overwrite | src/services/calendarService.js:138-181 | the second half of `updateEvent` appends exactly the `UpdateCall` for the new start and the event found, and fails as the client says for it |
| CalendarService.DeleteEvent | src/services/calendarService.js:184-186 | the empty `deleteEvent` returns normally and sends nothing, since its frame is empty |
| CalendarService.ActionLabel | src/services/calendarService.js:37-48 | the label of `create`, `update` and `delete`, and none for any other action. `Dispatch` and `OperationNeverThrows` prove how it routes and labels the result |
| CalendarService.OperationRun | src/services/calendarService.js:25-57 | what `handleCalendarOperation` does. `NoTokensNoCalls`, `Dispatch`, `OperationNeverThrows` and `CallsNeedTokensAndWriteAction` prove its properties |
| CalendarService.HandleCalendarOperation | src/services/calendarService.js:25-57 | the calls sent and the result are exactly those of `OperationRun` |
| CalendarService.CreateTiming | src/services/calendarService.js:69-115 | with a valid start, `createEvent` sends one insert into `primary` that starts at the request's start and ends `duration` minutes later, or 60 minutes later when the duration is absent or 0. The insert's outcome is the call's |
| CalendarService.CreateOptionalFields | src/services/calendarService.js:89-114 | location iff non-empty; attendees iff a non-empty list, mapped in order; notification 'all' iff any attendee list is given, else 'none'; a Meet request and conference version 1 iff the link is "Google Meet" |
| CalendarService.EmptyGuestListStillNotifies | src/services/calendarService.js:95-113 | an empty attendee list adds no attendees but still sends `sendUpdates: 'all'` |
| CalendarService.CreateNeedsStart | src/services/calendarService.js:69-87 | without a valid start nothing is sent. A missing time throws the `split` TypeError; an Invalid Date throws the `toISOString` RangeError |
| CalendarService.UpdateSearch | src/services/calendarService.js:119-134 | `updateEvent` first lists `primary` over `[start, start + 1h)` by event name, single events ordered by start. A failing or empty search ends it, the empty one with "not found". It writes iff the search finds an event |
| CalendarService.UpdateTargetsFirstHit | src/services/calendarService.js:136-181 | the update targets the first event found, with start and end from the request. Conference data is added iff Meet is asked for and the event has none; the version and the notification follow the request |
| CalendarService.NoTokensNoCalls | src/services/calendarService.js:27-33 | without stored tokens there is no calendar call: the result is the link prompt failure, or the prefixed read error when the store fails |
| CalendarService.OperationNeverThrows | src/services/calendarService.js:25-57 | every outcome is a value. A success carries the action's label; a failure carries a non-empty error (the link prompt, or the failure prefix and the exception's message) and no label |
| CalendarService.Dispatch | src/services/calendarService.js:37-49 | an unknown action fails with "不正な操作です" and sends nothing. `delete` succeeds and sends nothing. `create`/`update` send exactly their runs' calls and succeed iff those runs return normally |
| CalendarService.CallsNeedTokensAndWriteAction | src/services/calendarService.js:27-49 | a calendar call is made only for a user with tokens, a `create` or `update` action, and a valid start |
| TokenStore.GetTokens | src/services/firestoreService.js:28-39 | reading fails with the read error iff the id is empty or the store is unreachable; otherwise it gives the stored tokens iff there are some |
| TokenStore.SaveTokens | src/services/firestoreService.js:13-26 | writing fails with the write error iff the id is empty or the store is unreachable; otherwise the user's document exists afterwards |
| TokenStore.SaveThenGet | src/services/firestoreService.js:13-39 | after a successful save the user reads back exactly those tokens, and every other user reads what they read before |
| LineHandler.IsTextMessage | src/handlers/lineHandler.js:15-17 | the skip condition: an event is handled only if it is a message of type text. `NonTextSkipped` proves that any other event makes no call and does not stop the batch |
| LineHandler.IsComplete | src/handlers/lineHandler.js:49-51 | the validation: date, time and event name are all non-empty. `OperateOnlyWhenReady` proves that the calendar is called only when it holds |
| LineHandler.ReplyActionText | src/handlers/lineHandler.js:55-59 | the action's label, or "undefined" as a template literal renders a missing one. `SuccessReplyMentions` and `FailureReplyExplains` prove that it appears in the reply |
| LineHandler.ResultText | src/handlers/lineHandler.js:61-66 | the outcome reply. `SuccessReplyMentions` and `FailureReplyExplains` prove what it contains |
| LineHandler.AuthLink | src/handlers/lineHandler.js:36-43 | the `/auth` branch: fetch the link, then reply with it. `AuthCommandAnswered` and `AuthLinkReplies` prove its calls and replies |
| LineHandler.Attempt | src/handlers/lineHandler.js:45-66 | the inner `try`. `UnusableRequestGuided`, `ReadyRequestOperated` and `AttemptReplies` prove its calls and when it throws |
| LineHandler.EventCalls | src/handlers/lineHandler.js:14-73 | one pass of the loop. The per-event lemmas from `NonTextSkipped` to `OneReplyPerEvent` prove what it does, and `HandleEvent` is proved equal to it |
| LineHandler.BatchPrefix | src/handlers/lineHandler.js:12-79 | the calls after the first `n` events and whether the handler has stopped. `AbortedStays`, `BatchCallsOfEvent`, `BatchInInputOrder`, `AbortedIffSomeEventAborted` and `StopsAtAbort` prove its properties |
| LineHandler.Batch | src/handlers/lineHandler.js:11-80 | the whole batch. `BatchPerEvent`, `ErrorStatusIffAbort` and `CompletedBatchReachedAll` prove its properties, and `HandleLineWebhook` is proved equal to it |
| LineHandler.HandleLineWebhook | src/handlers/lineHandler.js:11-80 | the calls made, in order and tagged with their event, are those of the batch specification; the status is 500 iff the batch aborted, else 200 |
| LineHandler.HandleEvent | src/handlers/lineHandler.js:14-73 | the pass of the loop over the `i`-th event makes exactly the calls of `EventCalls` for that event, and lets an exception escape exactly when `EventCalls` says so |
| LineHandler.NonTextSkipped | src/handlers/lineHandler.js:15-17 | an event that is not a text message makes no call and does not stop the batch |
| LineHandler.TokensLookedUpFirst | src/handlers/lineHandler.js:19-26 | every text message first looks up the sender's tokens; a failing lookup is the only call and aborts |
| LineHandler.UnlinkedUserPrompted | src/handlers/lineHandler.js:28-34 | a sender without tokens who sends anything but `/auth` gets only the link-your-calendar prompt: no analysis, no calendar operation |
| LineHandler.AuthCommandAnswered | src/handlers/lineHandler.js:36-43 | `/auth` fetches the sender's link and replies with the intro and the link, whether or not tokens exist. A failing fetch aborts without a reply |
| LineHandler.UnusableRequestGuided | src/handlers/lineHandler.js:45-72 | an analyser failure, or a request missing its date, time or event name, never reaches the calendar; the reply is the usage guidance |
| LineHandler.OperateOnlyWhenReady | src/handlers/lineHandler.js:28-53 | the calendar operation is called iff the message is from a linked sender, is not `/auth`, and analyses to a complete request; it is called with that request |
| LineHandler.ReadyRequestOperated | src/handlers/lineHandler.js:53-73 | a complete request is operated on and its outcome is replied; the guidance follows only if that reply is not delivered |
| LineHandler.SuccessReplyMentions | src/handlers/lineHandler.js:55-64 | the success reply contains the event name, the date, the time and the action's label |
| LineHandler.FailureReplyExplains | src/handlers/lineHandler.js:55-65 | the failure reply contains the action's label and the error message, or the retry advice when there is none |
| LineHandler.AuthLinkReplies | src/handlers/lineHandler.js:36-43 | the `/auth` branch makes at most one reply, which may or may not be delivered |
| LineHandler.AttemptReplies | src/handlers/lineHandler.js:45-66 | the inner `try` always calls the analyser first and makes at most one reply, as its last call. It throws exactly when that reply is missing or not delivered, and returns normally only after one delivered reply |
| LineHandler.OneReplyPerEvent | src/handlers/lineHandler.js:28-73 | each event gets at most one delivered reply and at most two attempts; a second attempt is the guidance, after an undelivered first reply |
| LineHandler.AbortedStays | src/handlers/lineHandler.js:76-79 | once the batch has aborted, later events change nothing |
| LineHandler.BatchCallsOfEvent | src/handlers/lineHandler.js:14-74 | each event reached contributes exactly its own calls to the batch; events after the abort contribute none |
| LineHandler.BatchPerEvent | src/handlers/lineHandler.js:14-74 | over a whole batch, each reached event shows its own calls and gets at most one delivered reply |
| LineHandler.BatchInInputOrder | src/handlers/lineHandler.js:14 | the calls are grouped event by event in arrival order, and tag only events already seen |
| LineHandler.AbortedIffSomeEventAborted | src/handlers/lineHandler.js:12-79 | a batch prefix has aborted iff some event it reached aborted |
| LineHandler.ErrorStatusIffAbort | src/handlers/lineHandler.js:75-79 | the handler answers 500 iff some reached event aborted |
| LineHandler.StopsAtAbort | src/handlers/lineHandler.js:76-79 | an aborting event ends the batch: the run is fixed there and no later event is reached |
| LineHandler.CompletedBatchReachedAll | src/handlers/lineHandler.js:14-75 | a batch answered with 200 went through every event |

## Left out

- Time zones, daylight saving time, `toISOString` formatting and ECMAScript's TimeClip range limit. Instants are integer milliseconds of one fixed local time, and event times carry the instant itself with the constant zone "Asia/Tokyo".
- `new Date(dateStr)` for strings other than 'tomorrow'. The engine's date parser is the oracle `Clock.parseDate`. Both `new Date()` calls of an operation read the same `Clock.now`.
- A date or time that is a value other than a string. Request fields are strings or absent, and the duration is an integer; `request.duration || 60` on a non-number is not modelled.
- JavaScript `parseInt`'s white-space set is limited to the ASCII white space characters.
- `Date.now()` and `Math.random()` in the conference request id. The id is a parameter of the operations.
- `createAuthClient`, the OAuth client and the credential values. A client exists for the user once tokens are found.
- `events.data.items` being undefined. The listing oracle returns a sequence, and an empty one takes the not-found path.
- `src/services/authService.js` is not part of this model. `getAuthUrl` is the oracle `Services.authUrl`.
- `analyzeMessage` (src/services/openaiService.js) is the oracle `Services.analyze`. A thrown error is an `Err`, and a null or non-object result is treated the same way.
- The handler takes `handleCalendarOperation` as the oracle `Services.operate`; `CalendarService.HandleCalendarOperation` is its model.
- The message of the exception raised for an incomplete request. It is only logged, so it does not appear in the model.
- A request body without `events`, and event fields missing from the chat platform's payload. Events are records with string fields, and a missing user id is the empty string.
- Logging (`console.log`, `console.error`), `src/index.js`, `src/handlers/authHandler.js` and the chat platform client's configuration.
- Concurrency: the `await`s are sequential and each completes before the next call, as the source awaits them.
- JavaScript object prototype keys in the action label lookup. An action such as "toString" would find an inherited property; the model treats every action other than create, update and delete as having no label.
