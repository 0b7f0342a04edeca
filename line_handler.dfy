/** The LINE webhook handler (`handleLineWebhook`): walks a batch of chat
    events in order and, for each text message, checks the sender's tokens,
    answers the `/auth` command with a link, or has the message analysed,
    validated and run against the calendar, replying with the outcome.
    The token store is a value; the auth-link service, the analyser, the
    calendar operation and reply delivery are oracles. The handler's effect
    is the sequence of calls it makes, each tagged with the index of the
    event it was made for. */
module LineHandler {
  import opened Wrappers
  import TokenStore
  import opened CalendarService

  const AUTH_COMMAND := "/auth"
  const AUTH_PROMPT := "Googleカレンダーとの連携が必要です。以下のコマンドを送信してください：\n/auth"
  const AUTH_LINK_INTRO := "Googleカレンダーと連携するには以下のURLをクリックしてください：\n"
  const GUIDANCE := "申し訳ありません。予定の処理中にエラーが発生しました。\n例：「明日の15時から2時間、打ち合わせ」のように入力してください。"
  const RETRY_LATER := "時間を置いて再度お試しください。"
  /** How a template literal renders the label of an unknown action. */
  const UNDEFINED_TEXT := "undefined"
  const STATUS_OK := 200
  const STATUS_ERROR := 500

  /** One webhook event: its type, its message's type and text, the sender's
      user id (empty when the source has none) and the reply token. */
  datatype WebhookEvent = WebhookEvent(eventType: string, messageType: string, text: string, userId: string, replyToken: string)

  /** The collaborators: the token store, `getAuthUrl`, `analyzeMessage`
      (a request or an exception), `handleCalendarOperation`, and whether
      `replyMessage` delivers a given text for a given token (it throws
      otherwise). */
  datatype Services = Services(
    store: TokenStore.Store,
    authUrl: string -> Result<string, string>,
    analyze: string -> Result<Request, string>,
    operate: (string, Request) -> OpResult,
    delivers: (string, string) -> bool)

  datatype Call =
    | LookupTokens(userId: string)
    | FetchAuthUrl(userId: string)
    | Analyze(text: string)
    | Operate(userId: string, request: Request)
    | Reply(replyToken: string, text: string)

  /** A call made while handling the event at index `event`. */
  datatype Step = Step(event: nat, call: Call)

  /** The calls made for one event, and whether an exception escaped to the
      handler's outer `try` (or, for `Attempt`, out of the inner one). */
  datatype EventRun = EventRun(calls: seq<Call>, aborted: bool)

  predicate IsTextMessage(event: WebhookEvent) { event.eventType == "message" && event.messageType == "text" }

  /** The validation: date, time and event name are all non-empty. */
  predicate IsComplete(request: Request) { Truthy(request.date) && Truthy(request.time) && Truthy(request.eventName) }

  /** `{ create: ..., update: ..., delete: ... }[action]`, as a template
      literal renders it. */
  function ReplyActionText(action: Option<string>): string
  {
    match ActionLabel(action)
    case Some(text) => text
    case None => UNDEFINED_TEXT
  }

  /** The reply for the outcome of a calendar operation. */
  function ResultText(request: Request, result: OpResult): string
    requires IsComplete(request)
  {
    var actionText := ReplyActionText(request.action);
    if result.success then
      "✅ 「" + request.eventName.value + "」を" + request.date.value + " " + request.time.value
      + "からGoogleカレンダーに" + actionText + "しました！"
    else
      "❌ 予定の" + actionText + "に失敗しました。\n" + (if Truthy(result.error) then result.error.value else RETRY_LATER)
  }

  /** The `/auth` branch: fetch the sender's link and reply with it. */
  function AuthLink(event: WebhookEvent, services: Services): EventRun
  {
    match services.authUrl(event.userId)
    case Err(_) => EventRun([FetchAuthUrl(event.userId)], true)
    case Ok(url) =>
      var text := AUTH_LINK_INTRO + url;
      EventRun([FetchAuthUrl(event.userId), Reply(event.replyToken, text)], !services.delivers(event.replyToken, text))
  }

  /** The inner `try`: analysis, validation, the calendar operation and the
      result reply; `aborted` says that it threw. */
  function Attempt(event: WebhookEvent, services: Services): EventRun
  {
    var analyzed := services.analyze(event.text);
    if analyzed.Err? || !IsComplete(analyzed.value) then EventRun([Analyze(event.text)], true)
    else
      var request := analyzed.value;
      var text := ResultText(request, services.operate(event.userId, request));
      EventRun([Analyze(event.text), Operate(event.userId, request), Reply(event.replyToken, text)],
               !services.delivers(event.replyToken, text))
  }

  /** One iteration of the handler's loop. */
  function EventCalls(event: WebhookEvent, services: Services): EventRun
  {
    if !IsTextMessage(event) then EventRun([], false)
    else
      var lookup := LookupTokens(event.userId);
      match TokenStore.GetTokens(services.store, event.userId)
      case Err(_) => EventRun([lookup], true)
      case Ok(tokens) =>
        if tokens.None? && event.text != AUTH_COMMAND then
          EventRun([lookup, Reply(event.replyToken, AUTH_PROMPT)], !services.delivers(event.replyToken, AUTH_PROMPT))
        else if event.text == AUTH_COMMAND then
          var link := AuthLink(event, services);
          EventRun([lookup] + link.calls, link.aborted)
        else
          var attempt := Attempt(event, services);
          if !attempt.aborted then EventRun([lookup] + attempt.calls, false)
          else EventRun([lookup] + attempt.calls + [Reply(event.replyToken, GUIDANCE)],
                        !services.delivers(event.replyToken, GUIDANCE))
  }

  function Tagged(index: nat, calls: seq<Call>): (steps: seq<Step>)
    ensures |steps| == |calls|
    ensures forall k :: 0 <= k < |steps| ==> steps[k] == Step(index, calls[k])
  {
    seq(|calls|, k requires 0 <= k < |calls| => Step(index, calls[k]))
  }

  datatype BatchRun = BatchRun(steps: seq<Step>, aborted: bool)

  /** What each event would do if the handler got to it. */
  function Runs(events: seq<WebhookEvent>, services: Services): (runs: seq<EventRun>)
    ensures |runs| == |events|
  {
    seq(|events|, i requires 0 <= i < |events| => EventCalls(events[i], services))
  }

  /** The handler's calls after the first `n` events, and whether it has
      stopped: once an event aborts, later events are never looked at. */
  function BatchPrefix(runs: seq<EventRun>, n: nat): BatchRun
    requires n <= |runs|
  {
    if n == 0 then BatchRun([], false)
    else
      var before := BatchPrefix(runs, n - 1);
      if before.aborted then before
      else BatchRun(before.steps + Tagged(n - 1, runs[n - 1].calls), runs[n - 1].aborted)
  }

  function Batch(events: seq<WebhookEvent>, services: Services): BatchRun
  {
    var runs := Runs(events, services);
    BatchPrefix(runs, |runs|)
  }

  /** `handleLineWebhook(req, res)`: the calls made, in order, and the
      response status. */
  method HandleLineWebhook(events: seq<WebhookEvent>, services: Services) returns (log: seq<Step>, status: int)
    ensures log == Batch(events, services).steps
    ensures status == if Batch(events, services).aborted then STATUS_ERROR else STATUS_OK
  {
    log := [];
    var i := 0;
    ghost var runs := Runs(events, services);
    while i < |events|
      invariant 0 <= i <= |events|
      invariant BatchPrefix(runs, i) == BatchRun(log, false)
    {
      var calls, aborted := HandleEvent(events, i, services);
      NextEvent(runs, i);
      log := log + Tagged(i, calls);
      if aborted {
        AbortedStays(runs, i + 1, |events|);
        return log, STATUS_ERROR;
      }
      i := i + 1;
    }
    status := STATUS_OK;
  }

  /** One pass of the handler's loop body, for `events[i]`: the calls made
      for it, as `EventCalls` describes them, and whether an exception
      reached the outer `catch`. */
  method HandleEvent(events: seq<WebhookEvent>, i: nat, services: Services) returns (calls: seq<Call>, aborted: bool)
    requires i < |events|
    ensures EventRun(calls, aborted) == Runs(events, services)[i]
  {
    assert Runs(events, services)[i] == EventCalls(events[i], services);
    var event := events[i];
    calls := [];
    aborted := false;
    if event.eventType != "message" || event.messageType != "text" {
      return;
    }
    var userId := event.userId;
    var text := event.text;
    calls := calls + [LookupTokens(userId)];
    var tokens := TokenStore.GetTokens(services.store, userId);
    if tokens.Err? {
      aborted := true;
      return;
    }
    if tokens.value.None? && text != AUTH_COMMAND {
      calls := calls + [Reply(event.replyToken, AUTH_PROMPT)];
      aborted := !services.delivers(event.replyToken, AUTH_PROMPT);
      return;
    }
    if text == AUTH_COMMAND {
      calls := calls + [FetchAuthUrl(userId)];
      var authUrl := services.authUrl(userId);
      if authUrl.Err? {
        aborted := true;
        return;
      }
      var reply := AUTH_LINK_INTRO + authUrl.value;
      calls := calls + [Reply(event.replyToken, reply)];
      aborted := !services.delivers(event.replyToken, reply);
      return;
    }
    // The inner try.
    var threw := false;
    calls := calls + [Analyze(text)];
    var parsed := services.analyze(text);
    if parsed.Err? || !IsComplete(parsed.value) {
      threw := true;
    } else {
      var request := parsed.value;
      calls := calls + [Operate(userId, request)];
      var result := services.operate(userId, request);
      var reply := ResultText(request, result);
      calls := calls + [Reply(event.replyToken, reply)];
      threw := !services.delivers(event.replyToken, reply);
    }
    if threw {
      calls := calls + [Reply(event.replyToken, GUIDANCE)];
      aborted := !services.delivers(event.replyToken, GUIDANCE);
    }
  }

  // ---------------------------------------------------------------------
  // What one event does

  /** The token store answers and holds tokens for `userId`. */
  predicate Linked(services: Services, userId: string)
  {
    var tokens := TokenStore.GetTokens(services.store, userId);
    tokens.Ok? && tokens.value.Some?
  }

  /** Events other than text messages cause no call and never stop the batch. */
  lemma NonTextSkipped(event: WebhookEvent, services: Services)
    requires !IsTextMessage(event)
    ensures EventCalls(event, services) == EventRun([], false)
  {
  }

  /** Every text message starts with a token lookup, and a failing lookup
      stops the batch. */
  lemma TokensLookedUpFirst(event: WebhookEvent, services: Services)
    requires IsTextMessage(event)
    ensures var run := EventCalls(event, services);
      |run.calls| >= 1 && run.calls[0] == LookupTokens(event.userId)
    ensures TokenStore.GetTokens(services.store, event.userId).Err? ==>
      EventCalls(event, services) == EventRun([LookupTokens(event.userId)], true)
  {
  }

  /** A user without tokens who sends anything but `/auth` gets only the
      prompt to link the calendar. */
  lemma UnlinkedUserPrompted(event: WebhookEvent, services: Services)
    requires IsTextMessage(event) && event.text != AUTH_COMMAND
    requires TokenStore.GetTokens(services.store, event.userId) == Ok(None)
    ensures EventCalls(event, services).calls == [LookupTokens(event.userId), Reply(event.replyToken, AUTH_PROMPT)]
  {
  }

  /** `/auth` is answered with the link, whether or not the user already has
      tokens, and never reaches the analyser. */
  lemma AuthCommandAnswered(event: WebhookEvent, services: Services)
    requires IsTextMessage(event) && event.text == AUTH_COMMAND
    requires TokenStore.GetTokens(services.store, event.userId).Ok?
    ensures var run := EventCalls(event, services);
      match services.authUrl(event.userId)
      case Ok(url) =>
        run.calls == [LookupTokens(event.userId), FetchAuthUrl(event.userId), Reply(event.replyToken, AUTH_LINK_INTRO + url)]
      case Err(_) =>
        run == EventRun([LookupTokens(event.userId), FetchAuthUrl(event.userId)], true)
  {
  }

  /** A request the analyser cannot produce, or one without a date, a time or
      an event name, never reaches the calendar: the user gets the guidance
      reply instead. */
  lemma UnusableRequestGuided(event: WebhookEvent, services: Services)
    requires IsTextMessage(event) && event.text != AUTH_COMMAND
    requires Linked(services, event.userId)
    requires services.analyze(event.text).Err? || !IsComplete(services.analyze(event.text).value)
    ensures EventCalls(event, services) ==
      EventRun([LookupTokens(event.userId), Analyze(event.text), Reply(event.replyToken, GUIDANCE)],
               !services.delivers(event.replyToken, GUIDANCE))
  {
  }

  /** The calendar is operated on exactly for a linked user's complete
      request, as the analyser produced it. */
  lemma OperateOnlyWhenReady(event: WebhookEvent, services: Services, userId: string, request: Request)
    ensures Operate(userId, request) in EventCalls(event, services).calls <==>
      IsTextMessage(event) && event.text != AUTH_COMMAND && userId == event.userId && Linked(services, event.userId)
      && services.analyze(event.text) == Ok(request) && IsComplete(request)
  {
  }

  /** A complete request of a linked user is operated on, and the result is
      replied; the guidance follows only if that reply is not delivered. */
  lemma ReadyRequestOperated(event: WebhookEvent, services: Services)
    requires IsTextMessage(event) && event.text != AUTH_COMMAND
    requires Linked(services, event.userId)
    requires services.analyze(event.text).Ok? && IsComplete(services.analyze(event.text).value)
    ensures var request := services.analyze(event.text).value;
      var text := ResultText(request, services.operate(event.userId, request));
      var head := [LookupTokens(event.userId), Analyze(event.text), Operate(event.userId, request), Reply(event.replyToken, text)];
      EventCalls(event, services) ==
        if services.delivers(event.replyToken, text) then EventRun(head, false)
        else EventRun(head + [Reply(event.replyToken, GUIDANCE)], !services.delivers(event.replyToken, GUIDANCE))
  {
  }

  // ---------------------------------------------------------------------
  // Reply texts

  /** `part` occurs in `whole` at `at`. */
  predicate OccursAt(part: string, whole: string, at: nat)
  {
    at + |part| <= |whole| && whole[at..at + |part|] == part
  }

  ghost predicate Occurs(part: string, whole: string)
  {
    exists at: nat :: OccursAt(part, whole, at)
  }

  lemma OccursSelf(part: string)
    ensures Occurs(part, part)
  {
    assert OccursAt(part, part, 0) by { assert part[0..|part|] == part; }
  }

  lemma OccursLeft(part: string, x: string, y: string)
    requires Occurs(part, x)
    ensures Occurs(part, x + y)
  {
    var at: nat :| OccursAt(part, x, at);
    assert (x + y)[at..at + |part|] == x[at..at + |part|];
    assert OccursAt(part, x + y, at);
  }

  lemma OccursRight(part: string, x: string, y: string)
    requires Occurs(part, y)
    ensures Occurs(part, x + y)
  {
    var at: nat :| OccursAt(part, y, at);
    assert (x + y)[|x| + at..|x| + at + |part|] == y[at..at + |part|];
    assert OccursAt(part, x + y, |x| + at);
  }

  /** The success reply names the event, its date and time, and the action. */
  lemma {:induction false} SuccessReplyMentions(request: Request, result: OpResult)
    requires IsComplete(request) && result.success
    ensures var text := ResultText(request, result);
      Occurs(request.eventName.value, text) && Occurs(request.date.value, text)
      && Occurs(request.time.value, text) && Occurs(ReplyActionText(request.action), text)
  {
    var name, date, time, act := request.eventName.value, request.date.value, request.time.value, ReplyActionText(request.action);
    var t1 := "✅ 「" + name;
    var t2 := t1 + "」を";
    var t3 := t2 + date;
    var t4 := t3 + " ";
    var t5 := t4 + time;
    var t6 := t5 + "からGoogleカレンダーに";
    var t7 := t6 + act;
    var text := t7 + "しました！";
    assert ResultText(request, result) == text;
    OccursSelf(name);
    OccursRight(name, "✅ 「", name);
    OccursLeft(name, t1, "」を");
    OccursLeft(name, t2, date);
    OccursLeft(name, t3, " ");
    OccursLeft(name, t4, time);
    OccursLeft(name, t5, "からGoogleカレンダーに");
    OccursLeft(name, t6, act);
    OccursLeft(name, t7, "しました！");
    OccursSelf(date);
    OccursRight(date, t2, date);
    OccursLeft(date, t3, " ");
    OccursLeft(date, t4, time);
    OccursLeft(date, t5, "からGoogleカレンダーに");
    OccursLeft(date, t6, act);
    OccursLeft(date, t7, "しました！");
    OccursSelf(time);
    OccursRight(time, t4, time);
    OccursLeft(time, t5, "からGoogleカレンダーに");
    OccursLeft(time, t6, act);
    OccursLeft(time, t7, "しました！");
    OccursSelf(act);
    OccursRight(act, t6, act);
    OccursLeft(act, t7, "しました！");
  }

  /** The failure reply names the action and carries the error message, or
      the advice to retry when there is none. */
  lemma {:induction false} FailureReplyExplains(request: Request, result: OpResult)
    requires IsComplete(request) && !result.success
    ensures var text := ResultText(request, result);
      Occurs(ReplyActionText(request.action), text)
      && Occurs(if Truthy(result.error) then result.error.value else RETRY_LATER, text)
  {
    var act := ReplyActionText(request.action);
    var detail := if Truthy(result.error) then result.error.value else RETRY_LATER;
    var t1 := "❌ 予定の" + act;
    var t2 := t1 + "に失敗しました。\n";
    var text := t2 + detail;
    assert ResultText(request, result) == text;
    OccursSelf(act);
    OccursRight(act, "❌ 予定の", act);
    OccursLeft(act, t1, "に失敗しました。\n");
    OccursLeft(act, t2, detail);
    OccursSelf(detail);
    OccursRight(detail, t2, detail);
  }

  // ---------------------------------------------------------------------
  // Replies per event

  function Replies(calls: seq<Call>): nat
  {
    if calls == [] then 0 else (if calls[0].Reply? then 1 else 0) + Replies(calls[1..])
  }

  /** Replies that `delivers` accepts. */
  function Delivered(calls: seq<Call>, services: Services): nat
  {
    if calls == [] then 0
    else
      var first := if calls[0].Reply? && services.delivers(calls[0].replyToken, calls[0].text) then 1 else 0;
      first + Delivered(calls[1..], services)
  }

  lemma {:induction false} CountsAppend(a: seq<Call>, b: seq<Call>, services: Services)
    ensures Replies(a + b) == Replies(a) + Replies(b)
    ensures Delivered(a + b, services) == Delivered(a, services) + Delivered(b, services)
  {
    if a == [] {
      assert a + b == b;
    } else {
      assert (a + b)[0] == a[0];
      assert (a + b)[1..] == a[1..] + b;
      CountsAppend(a[1..], b, services);
    }
  }

  /** The `/auth` branch makes at most one reply, the link. */
  lemma {:induction false} AuthLinkReplies(event: WebhookEvent, services: Services)
    ensures var calls := AuthLink(event, services).calls;
      Replies(calls) <= 1 && Delivered(calls, services) <= 1
  {
    var s := services;
    var fetch := [FetchAuthUrl(event.userId)];
    assert Replies(fetch) == 0 && Delivered(fetch, s) == 0 by { assert fetch[1..] == []; }
    match services.authUrl(event.userId)
    case Err(_) =>
    case Ok(url) =>
      var reply := [Reply(event.replyToken, AUTH_LINK_INTRO + url)];
      assert Replies(reply) == 1 && Delivered(reply, s) <= 1 by { assert reply[1..] == []; }
      assert AuthLink(event, services).calls == fetch + reply;
      CountsAppend(fetch, reply, s);
  }

  /** The inner `try` makes at most one reply, as its last call; it throws
      exactly when that reply is missing or not delivered. */
  lemma {:induction false} AttemptReplies(event: WebhookEvent, services: Services)
    ensures var attempt := Attempt(event, services);
      var calls := attempt.calls;
      calls != [] && calls[0] == Analyze(event.text) && Replies(calls) <= 1
      && Delivered(calls, services) == (if attempt.aborted then 0 else 1)
      && (Replies(calls) == 1 ==> calls[|calls| - 1].Reply?
                                  && (attempt.aborted <==> !services.delivers(calls[|calls| - 1].replyToken, calls[|calls| - 1].text)))
      && (!attempt.aborted ==> Replies(calls) == 1)
  {
    var s := services;
    var analyze := [Analyze(event.text)];
    assert Replies(analyze) == 0 && Delivered(analyze, s) == 0 by { assert analyze[1..] == []; }
    var analyzed := services.analyze(event.text);
    if analyzed.Ok? && IsComplete(analyzed.value) {
      var request := analyzed.value;
      var text := ResultText(request, services.operate(event.userId, request));
      var operate := [Operate(event.userId, request)];
      var reply := [Reply(event.replyToken, text)];
      assert Replies(operate) == 0 && Delivered(operate, s) == 0 by { assert operate[1..] == []; }
      assert Replies(reply) == 1 by { assert reply[1..] == []; }
      assert Delivered(reply, s) == if s.delivers(event.replyToken, text) then 1 else 0 by { assert reply[1..] == []; }
      CountsAppend(analyze, operate, s);
      CountsAppend(analyze + operate, reply, s);
      assert Attempt(event, services).calls == analyze + operate + reply;
    }
  }

  /** Each event gets at most one delivered reply; a second reply is made
      only after the first was not delivered, and it is the guidance. */
  lemma {:induction false} OneReplyPerEvent(event: WebhookEvent, services: Services)
    ensures var calls := EventCalls(event, services).calls;
      Delivered(calls, services) <= 1 && Replies(calls) <= 2
      && (Replies(calls) == 2 ==>
            |calls| >= 2 && calls[|calls| - 1] == Reply(event.replyToken, GUIDANCE)
            && calls[|calls| - 2].Reply? && !services.delivers(calls[|calls| - 2].replyToken, calls[|calls| - 2].text))
  {
    assert Replies([]) == 0 && Delivered([], services) == 0;
    var s := services;
    var run := EventCalls(event, services);
    if IsTextMessage(event) {
      var tokens := TokenStore.GetTokens(services.store, event.userId);
      var lookup := [LookupTokens(event.userId)];
      assert Replies(lookup) == 0 && Delivered(lookup, s) == 0 by { assert lookup[1..] == []; }
      if tokens.Err? {
      } else if tokens.value.None? && event.text != AUTH_COMMAND {
        var reply := [Reply(event.replyToken, AUTH_PROMPT)];
        assert Replies(reply) == 1 && Delivered(reply, s) <= 1 by { assert reply[1..] == []; }
        assert run.calls == lookup + reply;
        CountsAppend(lookup, reply, s);
      } else if event.text == AUTH_COMMAND {
        var link := AuthLink(event, services);
        AuthLinkReplies(event, services);
        CountsAppend(lookup, link.calls, s);
        assert run.calls == lookup + link.calls;
      } else {
        var attempt := Attempt(event, services);
        AttemptReplies(event, services);
        CountsAppend(lookup, attempt.calls, s);
        if attempt.aborted {
          var guidance := [Reply(event.replyToken, GUIDANCE)];
          assert Replies(guidance) == 1 && Delivered(guidance, s) <= 1 by { assert guidance[1..] == []; }
          assert run.calls == lookup + attempt.calls + guidance;
          CountsAppend(lookup + attempt.calls, guidance, s);
          assert run.calls[|run.calls| - 2] == attempt.calls[|attempt.calls| - 1];
        } else {
          assert run.calls == lookup + attempt.calls;
        }
      }
    }
  }

  // ---------------------------------------------------------------------
  // The batch

  /** A batch that has not stopped goes on with the next event. */
  lemma NextEvent(runs: seq<EventRun>, i: nat)
    requires i < |runs| && !BatchPrefix(runs, i).aborted
    ensures BatchPrefix(runs, i + 1) == BatchRun(BatchPrefix(runs, i).steps + Tagged(i, runs[i].calls), runs[i].aborted)
  {
  }

  /** Once stopped, the run no longer changes. */
  lemma {:induction false} AbortedStays(runs: seq<EventRun>, k: nat, n: nat)
    requires k <= n <= |runs|
    requires BatchPrefix(runs, k).aborted
    ensures BatchPrefix(runs, n) == BatchPrefix(runs, k)
    decreases n
  {
    if n > k {
      AbortedStays(runs, k, n - 1);
    }
  }

  /** The handler got as far as event `i` without stopping. */
  predicate Reached(runs: seq<EventRun>, i: nat)
    requires i <= |runs|
  {
    !BatchPrefix(runs, i).aborted
  }

  /** The calls made for event `i`, in order. */
  function CallsOf(steps: seq<Step>, i: nat): seq<Call>
  {
    if steps == [] then []
    else (if steps[0].event == i then [steps[0].call] else []) + CallsOf(steps[1..], i)
  }

  lemma {:induction false} CallsOfAppend(a: seq<Step>, b: seq<Step>, i: nat)
    ensures CallsOf(a + b, i) == CallsOf(a, i) + CallsOf(b, i)
  {
    if a == [] {
      assert a + b == b;
    } else {
      var head := if a[0].event == i then [a[0].call] else [];
      assert (a + b)[0] == a[0];
      assert (a + b)[1..] == a[1..] + b;
      assert CallsOf(a + b, i) == head + CallsOf(a[1..] + b, i);
      CallsOfAppend(a[1..], b, i);
      assert head + (CallsOf(a[1..], i) + CallsOf(b, i)) == (head + CallsOf(a[1..], i)) + CallsOf(b, i);
    }
  }

  lemma {:induction false} CallsOfTagged(j: nat, calls: seq<Call>, i: nat)
    ensures CallsOf(Tagged(j, calls), i) == if i == j then calls else []
  {
    if calls != [] {
      assert Tagged(j, calls)[1..] == Tagged(j, calls[1..]);
      CallsOfTagged(j, calls[1..], i);
      assert calls == [calls[0]] + calls[1..];
    }
  }

  /** Appending an event's tagged calls adds them to that event alone. */
  lemma AppendTagged(a: seq<Step>, j: nat, calls: seq<Call>, i: nat)
    ensures CallsOf(a + Tagged(j, calls), i) == if i == j then CallsOf(a, i) + calls else CallsOf(a, i)
  {
    CallsOfAppend(a, Tagged(j, calls), i);
    CallsOfTagged(j, calls, i);
    if i != j {
      assert CallsOf(a, i) + [] == CallsOf(a, i);
    }
  }

  /** An event the handler reached contributes exactly its own calls. */
  lemma {:induction false} ReachedEventCalls(runs: seq<EventRun>, n: nat, i: nat)
    requires i < n <= |runs| && Reached(runs, i)
    ensures CallsOf(BatchPrefix(runs, n).steps, i) == runs[i].calls
    decreases n
  {
    var before := BatchPrefix(runs, n - 1);
    if before.aborted {
      assert i < n - 1;
      ReachedEventCalls(runs, n - 1, i);
    } else {
      NextEvent(runs, n - 1);
      AppendTagged(before.steps, n - 1, runs[n - 1].calls, i);
      if i == n - 1 {
        UnreachedEventCalls(runs, n - 1, i);
        assert [] + runs[i].calls == runs[i].calls;
      } else {
        ReachedEventCalls(runs, n - 1, i);
      }
    }
  }

  /** An event not reached (yet, or ever) contributes no call. */
  lemma {:induction false} UnreachedEventCalls(runs: seq<EventRun>, n: nat, i: nat)
    requires n <= |runs| && !(i < n && Reached(runs, i))
    ensures CallsOf(BatchPrefix(runs, n).steps, i) == []
    decreases n
  {
    if n > 0 {
      var before := BatchPrefix(runs, n - 1);
      if before.aborted {
        assert BatchPrefix(runs, n) == before;
        UnreachedEventCalls(runs, n - 1, i);
      } else {
        assert Reached(runs, n - 1);
        NextEvent(runs, n - 1);
        AppendTagged(before.steps, n - 1, runs[n - 1].calls, i);
        UnreachedEventCalls(runs, n - 1, i);
      }
    }
  }

  /** Each event reached contributes exactly its own calls, and events after
      the handler stopped contribute none. */
  lemma BatchCallsOfEvent(runs: seq<EventRun>, n: nat, i: nat)
    requires n <= |runs|
    ensures CallsOf(BatchPrefix(runs, n).steps, i) ==
      if i < n && Reached(runs, i) then runs[i].calls else []
  {
    if i < n && Reached(runs, i) {
      ReachedEventCalls(runs, n, i);
    } else {
      UnreachedEventCalls(runs, n, i);
    }
  }

  /** Over the whole batch, each event the handler reached shows exactly the
      calls its own handling makes, and gets at most one delivered reply. */
  lemma BatchPerEvent(events: seq<WebhookEvent>, services: Services, i: nat)
    ensures var runs := Runs(events, services);
      CallsOf(Batch(events, services).steps, i) ==
        if i < |events| && Reached(runs, i) then EventCalls(events[i], services).calls else []
    ensures Delivered(CallsOf(Batch(events, services).steps, i), services) <= 1
  {
    var runs := Runs(events, services);
    BatchCallsOfEvent(runs, |runs|, i);
    if i < |events| && Reached(runs, i) {
      OneReplyPerEvent(events[i], services);
    }
  }

  predicate InInputOrder(steps: seq<Step>)
  {
    forall a, b :: 0 <= a < b < |steps| ==> steps[a].event <= steps[b].event
  }

  /** Calls are made event by event, in the order the events arrived. */
  lemma {:induction false} BatchInInputOrder(runs: seq<EventRun>, n: nat)
    requires n <= |runs|
    ensures var steps := BatchPrefix(runs, n).steps;
      InInputOrder(steps) && forall k :: 0 <= k < |steps| ==> steps[k].event < n
  {
    if n > 0 {
      BatchInInputOrder(runs, n - 1);
    }
  }

  /** The batch stops exactly when some event it reached aborted. */
  lemma {:induction false} AbortedIffSomeEventAborted(runs: seq<EventRun>, n: nat)
    requires n <= |runs|
    ensures BatchPrefix(runs, n).aborted <==> exists i :: 0 <= i < n && Reached(runs, i) && runs[i].aborted
  {
    if n > 0 {
      AbortedIffSomeEventAborted(runs, n - 1);
      if BatchPrefix(runs, n - 1).aborted {
        var i :| 0 <= i < n - 1 && Reached(runs, i) && runs[i].aborted;
        assert 0 <= i < n;
      } else if runs[n - 1].aborted {
        assert Reached(runs, n - 1);
      } else {
        forall i | 0 <= i < n && Reached(runs, i)
          ensures !runs[i].aborted
        {
        }
      }
    }
  }

  /** The response is 500 exactly when some event the handler reached
      aborted. */
  lemma ErrorStatusIffAbort(events: seq<WebhookEvent>, services: Services)
    ensures Batch(events, services).aborted <==>
      exists i :: 0 <= i < |events| && Reached(Runs(events, services), i) && EventCalls(events[i], services).aborted
  {
    var runs := Runs(events, services);
    AbortedIffSomeEventAborted(runs, |runs|);
  }

  /** An aborting event ends the batch: nothing after it is looked at. */
  lemma StopsAtAbort(runs: seq<EventRun>, i: nat)
    requires i < |runs| && Reached(runs, i) && runs[i].aborted
    ensures BatchPrefix(runs, |runs|) == BatchPrefix(runs, i + 1)
    ensures BatchPrefix(runs, |runs|).aborted
    ensures forall j :: i < j <= |runs| ==> !Reached(runs, j)
  {
    AbortedStays(runs, i + 1, |runs|);
    forall j | i < j <= |runs|
      ensures !Reached(runs, j)
    {
      AbortedStays(runs, i + 1, j);
    }
  }

  /** A batch answered with 200 went through every event. */
  lemma CompletedBatchReachedAll(runs: seq<EventRun>)
    requires !BatchPrefix(runs, |runs|).aborted
    ensures forall i :: 0 <= i <= |runs| ==> Reached(runs, i)
  {
    forall i | 0 <= i <= |runs|
      ensures Reached(runs, i)
    {
      if !Reached(runs, i) {
        AbortedStays(runs, i, |runs|);
      }
    }
  }
}
