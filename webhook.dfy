/** The webhook receiver (`POST /webhook/calendar`): acknowledge every event type but
    "tool-calls"; for a tool-calls message, answer each entry of `toolCallList` in order, booking
    the `book_appointment` ones through the calendar client and naming every other tool as
    unknown.

    An exception raised outside the handler's try block (a body, message, entry or `function`
    field that is not a dict, a `toolCallList` that cannot be iterated) is not caught: the
    request ends with an internal server error, and whatever earlier entries did to the disk
    and the calendar stays done. */
module Webhook {
  import opened Wrappers
  import opened Json
  import opened CalendarUtils

  const ToolCallsType: string := "tool-calls"
  const BookTool: string := "book_appointment"

  const ApologyPrefix: string := "Sorry, I couldn't book the appointment. Error: "
  const SuccessPrefix: string := "Appointment booked successfully! Event: "

  /** The text of a failed booking; `error` is the exception's `str()`. */
  function Apology(error: string): string {
    ApologyPrefix + error
  }

  function UnknownTool(name: Json, show: Json -> string): string {
    "Unknown tool: " + Str(name, show)
  }

  /** `d.get("arguments", d.get("parameters", fallback))`. */
  function ParamsOf(fields: map<string, Json>, fallback: Json): Json {
    Get(fields, "arguments", Get(fields, "parameters", fallback))
  }

  /** One entry of `toolCallList` as the handler reads it. */
  datatype ToolCall = ToolCall(id: Json, name: Json, params: Json)

  /** The id, name and parameters of one entry: the top-level `name` and
      `arguments`/`parameters`; when that name is falsy, the legacy `function.name` and
      `function.arguments`/`function.parameters`, the latter falling back to what the top level
      gave. `None` is the AttributeError raised when the entry, or its `function` field, is not
      a dict. */
  function ParseToolCall(tc: Json): (r: Option<ToolCall>)
    ensures r.Some? <==>
      tc.JObj? &&
      (Truthy(Get(tc.fields, "name", JStr(""))) || Get(tc.fields, "function", JObj(map[])).JObj?)
    ensures r.Some? ==> r.value.id == Get(tc.fields, "id", JStr(""))
    ensures r.Some? && Truthy(Get(tc.fields, "name", JStr(""))) ==>
      r.value.name == tc.fields["name"]
  {
    match tc
    case JObj(fields) =>
      var id := Get(fields, "id", JStr(""));
      var name := Get(fields, "name", JStr(""));
      var params := ParamsOf(fields, JObj(map[]));
      if Truthy(name) then Some(ToolCall(id, name, params))
      else
        (match Get(fields, "function", JObj(map[]))
         case JObj(func) => Some(ToolCall(id, Get(func, "name", JStr("")), ParamsOf(func, params)))
         case _ => None)
    case _ => None
  }

  /** With a truthy top-level name, `arguments` is used whenever the key is present, whatever
      it holds, and `parameters` is then ignored; without `arguments`, `parameters`; without
      either, an empty dict. */
  lemma ArgumentsShadowParameters(fields: map<string, Json>)
    requires Truthy(Get(fields, "name", JStr("")))
    ensures ParseToolCall(JObj(fields)).Some?
    ensures "arguments" in fields ==> ParseToolCall(JObj(fields)).value.params == fields["arguments"]
    ensures "arguments" !in fields && "parameters" in fields ==>
      ParseToolCall(JObj(fields)).value.params == fields["parameters"]
    ensures "arguments" !in fields && "parameters" !in fields ==>
      ParseToolCall(JObj(fields)).value.params == JObj(map[])
  {
  }

  /** The legacy `function` shape is consulted only when the top-level name is falsy (absent,
      null, "" and so on); its parameters fall back to the top-level ones. */
  lemma LegacyShape(fields: map<string, Json>, func: map<string, Json>)
    requires !Truthy(Get(fields, "name", JStr("")))
    requires Get(fields, "function", JObj(map[])) == JObj(func)
    ensures ParseToolCall(JObj(fields)) ==
      Some(ToolCall(Get(fields, "id", JStr("")), Get(func, "name", JStr("")),
                    ParamsOf(func, ParamsOf(fields, JObj(map[])))))
  {
  }

  /** An entry with neither shape gets the name "" and the parameters of the top level. */
  lemma NeitherShape(fields: map<string, Json>)
    requires "name" !in fields && "function" !in fields
    ensures ParseToolCall(JObj(fields)) ==
      Some(ToolCall(Get(fields, "id", JStr("")), JStr(""), ParamsOf(fields, JObj(map[]))))
  {
  }

  /** The current shape and the legacy one give the same call for the same id, name and
      arguments. */
  lemma EquivalentShapes(id: Json, name: string, arguments: Json)
    requires name != ""
    ensures ParseToolCall(JObj(map["id" := id, "name" := JStr(name), "arguments" := arguments])) ==
      ParseToolCall(JObj(map["id" := id,
                             "function" := JObj(map["name" := JStr(name), "arguments" := arguments])]))
  {
    var current := map["id" := id, "name" := JStr(name), "arguments" := arguments];
    var func := map["name" := JStr(name), "arguments" := arguments];
    var legacy := map["id" := id, "function" := JObj(func)];
    assert Get(current, "name", JStr("")) == JStr(name);
    assert "name" !in legacy;
  }

  /** The keyword arguments of the `create_event` call: `name` defaults to "Unknown"; the
      others are passed as found, None when absent. A `params` that is not a dict raises an
      AttributeError inside the try block. */
  function BookingFrom(params: Json): (r: Result<BookingRequest, string>)
    ensures r.Success? <==> params.JObj?
    ensures r.Failure? ==> r.error == NoGetMessage(params)
    ensures r.Success? ==>
      r.value.name == Get(params.fields, "name", JStr("Unknown")) &&
      r.value.startTime == Get(params.fields, "start_time", JNull) &&
      r.value.endTime == Get(params.fields, "end_time", JNull) &&
      r.value.title == Get(params.fields, "title", JNull)
  {
    match params
    case JObj(p) =>
      Success(BookingRequest(Get(p, "name", JStr("Unknown")), Get(p, "start_time", JNull),
                             Get(p, "end_time", JNull), Get(p, "title", JNull)))
    case _ => Failure(NoGetMessage(params))
  }

  /** "Unknown" replaces only a missing name: a name present as null or "" is passed on. */
  lemma NameDefaultsOnlyWhenAbsent(params: map<string, Json>)
    ensures "name" !in params ==> BookingFrom(JObj(params)).value.name == JStr("Unknown")
    ensures "name" in params ==> BookingFrom(JObj(params)).value.name == params["name"]
  {
  }

  /** The message of the TypeError raised by `v[key]` on a value that is not a dict. */
  function NotSubscriptable(j: Json): string {
    match j
    case JStr(_) => "string indices must be integers, not 'str'"
    case JArr(_) => "list indices must be integers or slices, not str"
    case _ => "'" + TypeName(j) + "' object is not subscriptable"
  }

  /** The success text for the event the insert returned. Reading it can itself raise: `.get`
      on a non-dict, or `event['start']['dateTime']` with a key missing (the KeyError's text is
      the quoted key) or on a non-dict. */
  function SuccessText(event: Json, show: Json -> string): (r: Result<string, string>)
    ensures r.Success? <==>
      event.JObj? && "start" in event.fields && event.fields["start"].JObj? &&
      "dateTime" in event.fields["start"].fields
    ensures r.Success? ==>
      r.value == SuccessPrefix + Str(Get(event.fields, "summary", JNull), show) +
                 " on " + Str(event.fields["start"].fields["dateTime"], show) +
                 ". Calendar link: " + Str(Get(event.fields, "htmlLink", JNull), show)
  {
    match event
    case JObj(e) =>
      if "start" !in e then Failure("'start'")
      else
        (match e["start"]
         case JObj(s) =>
           if "dateTime" !in s then Failure("'dateTime'")
           else Success(SuccessPrefix + Str(Get(e, "summary", JNull), show) +
                        " on " + Str(s["dateTime"], show) +
                        ". Calendar link: " + Str(Get(e, "htmlLink", JNull), show))
         case other => Failure(NotSubscriptable(other)))
    case _ => Failure(NoGetMessage(event))
  }

  /** The text a booking answers with: the success text, or the apology for whatever was raised
      by `create_event` or by reading its result. */
  function BookingText(outcome: Result<Json, string>, show: Json -> string): (text: string)
    ensures outcome.Success? && SuccessText(outcome.value, show).Success? ==>
      text == SuccessText(outcome.value, show).value
    ensures !(outcome.Success? && SuccessText(outcome.value, show).Success?) ==>
      ApologyPrefix <= text
    ensures SuccessPrefix <= text || ApologyPrefix <= text
  {
    match outcome
    case Failure(e) => Apology(e)
    case Success(event) =>
      match SuccessText(event, show)
      case Success(text) => text
      case Failure(e) => Apology(e)
  }

  /** One element of `results`. */
  function Answer(call: ToolCall, text: string): Json {
    JObj(map["name" := call.name, "toolCallId" := call.id, "result" := JStr(text)])
  }

  /** What answering one call produces: its result text, the file system after it, and the
      request `create_event` was called with, if it was called. */
  datatype CallOutcome = CallOutcome(text: string, files: Files, booking: Option<BookingRequest>)

  /** One tool call. A name other than "book_appointment" is answered as unknown and touches
      nothing. A booking calls `create_event` exactly when its parameters are a dict; every
      exception on the way becomes the apology text. */
  function Dispatch(rt: Runtime, files: Files, call: ToolCall): (o: CallOutcome)
    ensures call.name != JStr(BookTool) ==>
      o == CallOutcome(UnknownTool(call.name, rt.showContainer), files, None)
    ensures o.booking.Some? <==> call.name == JStr(BookTool) && call.params.JObj?
    ensures o.booking.None? ==> o.files == files
    ensures o.booking.Some? ==>
      o.booking == Some(BookingFrom(call.params).value) &&
      o.files == CreateEventSpec(rt, files, o.booking.value).files
    ensures call.name == JStr(BookTool) && !call.params.JObj? ==>
      o.text == Apology(NoGetMessage(call.params))
    ensures o.booking.Some? && CreateEventSpec(rt, files, o.booking.value).outcome.Failure? ==>
      o.text == Apology(CreateEventSpec(rt, files, o.booking.value).outcome.error)
    ensures o.booking.Some? ==>
      o.text == BookingText(CreateEventSpec(rt, files, o.booking.value).outcome, rt.showContainer)
    ensures call.name == JStr(BookTool) ==> SuccessPrefix <= o.text || ApologyPrefix <= o.text
  {
    if call.name != JStr(BookTool) then CallOutcome(UnknownTool(call.name, rt.showContainer), files, None)
    else
      match BookingFrom(call.params)
      case Failure(e) => CallOutcome(Apology(e), files, None)
      case Success(req) =>
        var booked := CreateEventSpec(rt, files, req);
        CallOutcome(BookingText(booked.outcome, rt.showContainer), booked.files, Some(req))
  }

  /** The state of the loop over `toolCallList`: the file system, the results so far, the
      `create_event` calls made so far, and whether an uncaught exception ended the request. */
  datatype Progress = Progress(files: Files, results: seq<Json>, bookings: seq<BookingRequest>, failed: bool)

  /** One iteration: nothing happens once the request has failed; an entry that raises fails it
      and changes nothing else; otherwise exactly one answer is appended, at most one
      `create_event` call is recorded, and what came before is kept. */
  function Step(rt: Runtime, p: Progress, tc: Json): (r: Progress)
    ensures p.failed ==> r == p
    ensures !p.failed && ParseToolCall(tc).None? ==> r == p.(failed := true)
    ensures r.failed <==> p.failed || ParseToolCall(tc).None?
    ensures !r.failed ==>
      |r.results| == |p.results| + 1 && r.results[..|p.results|] == p.results &&
      r.results[|p.results|] == Answer(ParseToolCall(tc).value, Dispatch(rt, p.files, ParseToolCall(tc).value).text)
    ensures p.bookings <= r.bookings && |r.bookings| <= |p.bookings| + 1
  {
    if p.failed then p
    else
      match ParseToolCall(tc)
      case None => p.(failed := true)
      case Some(call) =>
        var o := Dispatch(rt, p.files, call);
        Progress(o.files, p.results + [Answer(call, o.text)],
                 p.bookings + (if o.booking.Some? then [o.booking.value] else []), false)
  }

  /** The loop over a list of entries: one result per entry unless an entry raised, and never
      more `create_event` calls than results. */
  function Run(rt: Runtime, files: Files, calls: seq<Json>): (p: Progress)
    ensures !p.failed ==> |p.results| == |calls|
    ensures |p.bookings| <= |p.results| <= |calls|
    decreases |calls|
  {
    if calls == [] then Progress(files, [], [], false)
    else Step(rt, Run(rt, files, calls[..|calls| - 1]), calls[|calls| - 1])
  }

  /** `results[i]` answers `toolCallList[i]`: same name and id, a string result,
      "Unknown tool: <name>" for a name other than "book_appointment", and for a booking either
      the success text or the apology. */
  predicate Answers(entry: Json, call: ToolCall, show: Json -> string) {
    entry.JObj? &&
    entry.fields.Keys == {"name", "toolCallId", "result"} &&
    entry.fields["name"] == call.name && entry.fields["toolCallId"] == call.id &&
    entry.fields["result"].JStr? &&
    (call.name != JStr(BookTool) ==> entry.fields["result"] == JStr(UnknownTool(call.name, show))) &&
    (call.name == JStr(BookTool) ==>
      SuccessPrefix <= entry.fields["result"].s || ApologyPrefix <= entry.fields["result"].s)
  }

  /** The answer to a call names it and carries its id. */
  lemma AnswerAnswers(rt: Runtime, files: Files, call: ToolCall)
    ensures Answers(Answer(call, Dispatch(rt, files, call).text), call, rt.showContainer)
  {
    var entry := Answer(call, Dispatch(rt, files, call).text);
    assert entry.fields.Keys == {"name", "toolCallId", "result"};
  }

  /** An iteration that does not raise appends the answer to its entry. */
  lemma StepAppends(rt: Runtime, p: Progress, tc: Json)
    requires !Step(rt, p, tc).failed
    ensures !p.failed && ParseToolCall(tc).Some?
    ensures Step(rt, p, tc).results ==
      p.results + [Answer(ParseToolCall(tc).value, Dispatch(rt, p.files, ParseToolCall(tc).value).text)]
  {
  }

  /** The loop over the first `i + 1` entries is the loop over the first `i`, then entry `i`. */
  lemma RunSnoc(rt: Runtime, files: Files, calls: seq<Json>, i: nat)
    requires i < |calls|
    ensures Run(rt, files, calls[..i + 1]) == Step(rt, Run(rt, files, calls[..i]), calls[i])
  {
    assert calls[..i + 1][..i] == calls[..i];
  }

  /** An entry that parses is dispatched and its answer appended. */
  lemma StepOnCall(rt: Runtime, p: Progress, tc: Json, call: ToolCall)
    requires !p.failed && ParseToolCall(tc) == Some(call)
    ensures var o := Dispatch(rt, p.files, call);
      Step(rt, p, tc) ==
        Progress(o.files, p.results + [Answer(call, o.text)],
                 p.bookings + (if o.booking.Some? then [o.booking.value] else []), false)
  {
  }

  lemma RunAnswersInOrder(rt: Runtime, files: Files, calls: seq<Json>)
    requires !Run(rt, files, calls).failed
    ensures forall i :: 0 <= i < |calls| ==>
      ParseToolCall(calls[i]).Some? &&
      Answers(Run(rt, files, calls).results[i], ParseToolCall(calls[i]).value, rt.showContainer)
  {
    forall i | 0 <= i < |calls|
      ensures ParseToolCall(calls[i]).Some? &&
        Answers(Run(rt, files, calls).results[i], ParseToolCall(calls[i]).value, rt.showContainer)
    {
      RunResultIsDispatch(rt, files, calls, i);
      AnswerAnswers(rt, Run(rt, files, calls[..i]).files, ParseToolCall(calls[i]).value);
    }
  }


  /** The request ends in an uncaught exception exactly when some entry is not a dict, or has a
      falsy name and a `function` field that is not a dict. */
  lemma {:induction false} RunFailsIff(rt: Runtime, files: Files, calls: seq<Json>)
    ensures Run(rt, files, calls).failed <==> exists i :: 0 <= i < |calls| && ParseToolCall(calls[i]).None?
    decreases |calls|
  {
    if calls != [] {
      var init := calls[..|calls| - 1];
      RunFailsIff(rt, files, init);
      if exists i :: 0 <= i < |init| && ParseToolCall(init[i]).None? {
        var i :| 0 <= i < |init| && ParseToolCall(init[i]).None?;
        assert calls[i] == init[i];
      }
      if exists i :: 0 <= i < |calls| && ParseToolCall(calls[i]).None? {
        var i :| 0 <= i < |calls| && ParseToolCall(calls[i]).None?;
        if i < |calls| - 1 {
          assert init[i] == calls[i];
        }
      }
    }
  }

  /** Results are only ever appended: what the first `j` entries produced stays, unchanged,
      at the front of the final results, whatever later entries do (a failed booking
      included), and the same holds for the `create_event` calls. */
  lemma {:induction false} RunExtendsPrefix(rt: Runtime, files: Files, calls: seq<Json>, j: nat)
    requires j <= |calls|
    ensures Run(rt, files, calls[..j]).results <= Run(rt, files, calls).results
    ensures Run(rt, files, calls[..j]).bookings <= Run(rt, files, calls).bookings
    decreases |calls|
  {
    if j < |calls| {
      var init := calls[..|calls| - 1];
      assert init[..j] == calls[..j];
      RunExtendsPrefix(rt, files, init, j);
    } else {
      assert calls[..j] == calls;
    }
  }

  /** Once an entry has raised, nothing after it runs. */
  lemma {:induction false} RunStopsAtFailure(rt: Runtime, files: Files, calls: seq<Json>, j: nat)
    requires j <= |calls|
    requires Run(rt, files, calls[..j]).failed
    ensures Run(rt, files, calls) == Run(rt, files, calls[..j])
    decreases |calls|
  {
    if j < |calls| {
      var init := calls[..|calls| - 1];
      assert init[..j] == calls[..j];
      RunStopsAtFailure(rt, files, init, j);
    } else {
      assert calls[..j] == calls;
    }
  }

  /** `results[i]` is the answer that dispatching entry `i` gives, against the file system the
      entries before it left behind. */
  lemma {:induction false} RunResultIsDispatch(rt: Runtime, files: Files, calls: seq<Json>, i: nat)
    requires i < |calls|
    requires !Run(rt, files, calls).failed
    ensures ParseToolCall(calls[i]).Some?
    ensures var call := ParseToolCall(calls[i]).value;
      Run(rt, files, calls).results[i] ==
        Answer(call, Dispatch(rt, Run(rt, files, calls[..i]).files, call).text)
    decreases |calls|
  {
    var init := calls[..|calls| - 1];
    var before := Run(rt, files, init);
    StepAppends(rt, before, calls[|calls| - 1]);
    if i < |calls| - 1 {
      assert init[i] == calls[i] && init[..i] == calls[..i];
      RunResultIsDispatch(rt, files, init, i);
    } else {
      assert calls[..i] == init;
    }
  }


  /** Without an entry named "book_appointment", `create_event` is never called and the file
      system is untouched. */
  lemma {:induction false} NoBookingWithoutBookTool(rt: Runtime, files: Files, calls: seq<Json>)
    requires forall i :: 0 <= i < |calls| && ParseToolCall(calls[i]).Some? ==>
      ParseToolCall(calls[i]).value.name != JStr(BookTool)
    ensures Run(rt, files, calls).bookings == [] && Run(rt, files, calls).files == files
    decreases |calls|
  {
    if calls != [] {
      var init := calls[..|calls| - 1];
      forall i | 0 <= i < |init| && ParseToolCall(init[i]).Some?
        ensures ParseToolCall(init[i]).value.name != JStr(BookTool)
      {
        assert init[i] == calls[i];
      }
      NoBookingWithoutBookTool(rt, files, init);
    }
  }

  /** `message.get("toolCallList", [])` iterated by `for`: a list gives its items. A string or
      dict gives strings, on which the first `.get` raises, so only an empty one passes; None,
      booleans and numbers cannot be iterated. */
  function ToolCallList(j: Json): (r: Option<seq<Json>>)
    ensures j.JArr? ==> r == Some(j.items)
    ensures r.Some? && !j.JArr? ==> r == Some([]) && !Truthy(j)
    ensures r.Some? <==> j.JArr? || j == JStr("") || j == JObj(map[])
  {
    match j
    case JArr(items) => Some(items)
    case JStr(s) => if s == "" then Some([]) else None
    case JObj(fields) => if fields == map[] then Some([]) else None
    case _ => None
  }

  /** The HTTP reply: a JSON body with status 200, or an internal server error. */
  datatype Reply = Reply(body: Json) | InternalError

  /** The reply, the file system after the request, and the `create_event` calls it made. */
  datatype Response = Response(reply: Reply, files: Files, bookings: seq<BookingRequest>)

  /** `body.get("message", {})`, when both are dicts. */
  function Message(body: Json): Option<map<string, Json>> {
    if body.JObj? && Get(body.fields, "message", JObj(map[])).JObj? then
      Some(Get(body.fields, "message", JObj(map[])).fields)
    else None
  }

  function MessageType(message: map<string, Json>): Json {
    Get(message, "type", JStr("unknown"))
  }

  function Results(results: seq<Json>): Json {
    JObj(map["results" := JArr(results)])
  }

  /** `webhook_calendar`. Every event type but "tool-calls" (a missing type counts as
      "unknown") is acknowledged with `{}` and books nothing; a tool-calls message without a
      `toolCallList` is answered with no results; otherwise the reply lists the results of the
      loop, and an uncaught exception anywhere makes it an internal server error. */
  function WebhookCalendar(rt: Runtime, files: Files, body: Json): (r: Response)
    ensures Message(body).None? ==> r == Response(InternalError, files, [])
    ensures Message(body).Some? && MessageType(Message(body).value) != JStr(ToolCallsType) ==>
      r == Response(Reply(JObj(map[])), files, [])
    ensures Message(body).Some? && MessageType(Message(body).value) == JStr(ToolCallsType) &&
            "toolCallList" !in Message(body).value ==>
      r == Response(Reply(Results([])), files, [])
    ensures r.reply.Reply? && r.reply.body != JObj(map[]) ==>
      Message(body).Some? && MessageType(Message(body).value) == JStr(ToolCallsType) &&
      ToolCallList(Get(Message(body).value, "toolCallList", JArr([]))).Some? &&
      var calls := ToolCallList(Get(Message(body).value, "toolCallList", JArr([]))).value;
      r.reply.body == Results(Run(rt, files, calls).results) && !Run(rt, files, calls).failed
    ensures Message(body).Some? && MessageType(Message(body).value) == JStr(ToolCallsType) &&
            ToolCallList(Get(Message(body).value, "toolCallList", JArr([]))).Some? ==>
      var p := Run(rt, files, ToolCallList(Get(Message(body).value, "toolCallList", JArr([]))).value);
      r == Response(if p.failed then InternalError else Reply(Results(p.results)), p.files, p.bookings)
    ensures Message(body).Some? && MessageType(Message(body).value) == JStr(ToolCallsType) &&
            ToolCallList(Get(Message(body).value, "toolCallList", JArr([]))).None? ==>
      r == Response(InternalError, files, [])
  {
    match Message(body)
    case None => Response(InternalError, files, [])
    case Some(message) =>
      if MessageType(message) != JStr(ToolCallsType) then Response(Reply(JObj(map[])), files, [])
      else
        match ToolCallList(Get(message, "toolCallList", JArr([])))
        case None => Response(InternalError, files, [])
        case Some(calls) =>
          var p := Run(rt, files, calls);
          Response(if p.failed then InternalError else Reply(Results(p.results)), p.files, p.bookings)
  }

  /** For a tool-calls message whose `toolCallList` is a list and whose request succeeds,
      `results` has one entry per element, in order, each answering its element. */
  lemma OneResultPerCall(rt: Runtime, files: Files, body: Json, calls: seq<Json>)
    requires Message(body).Some? && MessageType(Message(body).value) == JStr(ToolCallsType)
    requires Get(Message(body).value, "toolCallList", JArr([])) == JArr(calls)
    requires forall i :: 0 <= i < |calls| ==> ParseToolCall(calls[i]).Some?
    ensures WebhookCalendar(rt, files, body).reply ==
      Reply(Results(Run(rt, files, calls).results))
    ensures var results := Run(rt, files, calls).results;
      |results| == |calls| &&
      forall i :: 0 <= i < |calls| ==>
        Answers(results[i], ParseToolCall(calls[i]).value, rt.showContainer)
  {
    RunFailsIff(rt, files, calls);
    RunAnswersInOrder(rt, files, calls);
  }

  /** The body of the handler's loop for one call: book through `create_event`, or name the
      tool as unknown. */
  method DispatchCall(rt: Runtime, disk: Disk, call: ToolCall) returns (resultText: string, ghost booking: Option<BookingRequest>)
    modifies disk
    ensures var o := Dispatch(rt, old(disk.files), call);
      resultText == o.text && disk.files == o.files && booking == o.booking
    ensures booking.None? ==> disk.writes == old(disk.writes)
  {
    booking := None;
    if call.name == JStr(BookTool) {
      var request := BookingFrom(call.params);
      if request.Failure? {
        resultText := Apology(request.error);
      } else {
        var event := CreateEvent(rt, disk, request.value);
        booking := Some(request.value);
        resultText := BookingText(event, rt.showContainer);
      }
    } else {
      resultText := UnknownTool(call.name, rt.showContainer);
    }
  }

  /** The head of the handler's loop body: read `tc_id`, `tc_name` and `params`, reassigning
      the last two when the legacy shape applies. `None` stands for the AttributeError raised
      when the entry or its `function` field is not a dict. */
  method ReadToolCall(tc: Json) returns (call: Option<ToolCall>)
    ensures call == ParseToolCall(tc)
  {
    if !tc.JObj? {
      return None;
    }
    var tcId := Get(tc.fields, "id", JStr(""));
    var tcName := Get(tc.fields, "name", JStr(""));
    var params := ParamsOf(tc.fields, JObj(map[]));
    if !Truthy(tcName) {
      var func := Get(tc.fields, "function", JObj(map[]));
      if !func.JObj? {
        return None;
      }
      tcName := Get(func.fields, "name", JStr(""));
      params := ParamsOf(func.fields, params);
    }
    call := Some(ToolCall(tcId, tcName, params));
  }

  /** The handler's `for` loop: `results` grows by one answer per entry, and an entry that
      raises ends the loop. */
  method AnswerAll(rt: Runtime, disk: Disk, calls: seq<Json>) returns (results: seq<Json>, failed: bool)
    modifies disk
    ensures var p := Run(rt, old(disk.files), calls);
      failed == p.failed && (!failed ==> results == p.results) && disk.files == p.files
    ensures Run(rt, old(disk.files), calls).bookings == [] ==> disk.writes == old(disk.writes)
  {
    results := [];
    ghost var bookings: seq<BookingRequest> := [];
    var i := 0;
    while i < |calls|
      invariant i <= |calls|
      invariant Run(rt, old(disk.files), calls[..i]) == Progress(disk.files, results, bookings, false)
      invariant bookings == [] ==> disk.writes == old(disk.writes)
    {
      RunSnoc(rt, old(disk.files), calls, i);
      var call := ReadToolCall(calls[i]);
      if call.None? {
        RunStopsAtFailure(rt, old(disk.files), calls, i + 1);
        return results, true;
      }
      StepOnCall(rt, Progress(disk.files, results, bookings, false), calls[i], call.value);
      var resultText, booking := DispatchCall(rt, disk, call.value);
      results := results + [Answer(call.value, resultText)];
      bookings := bookings + (if booking.Some? then [booking.value] else []);
      i := i + 1;
    }
    assert calls[..|calls|] == calls;
    failed := false;
  }

  /** The handler itself. */
  method HandleWebhook(rt: Runtime, disk: Disk, body: Json) returns (reply: Reply)
    modifies disk
    ensures var r := WebhookCalendar(rt, old(disk.files), body);
      reply == r.reply && disk.files == r.files
    ensures WebhookCalendar(rt, old(disk.files), body).bookings == [] ==> disk.writes == old(disk.writes)
  {
    if !body.JObj? {
      return InternalError;
    }
    var message := Get(body.fields, "message", JObj(map[]));
    if !message.JObj? {
      return InternalError;
    }
    var msgType := Get(message.fields, "type", JStr("unknown"));
    if msgType != JStr(ToolCallsType) {
      return Reply(JObj(map[]));
    }
    var toolCalls := ToolCallList(Get(message.fields, "toolCallList", JArr([])));
    if toolCalls.None? {
      return InternalError;
    }
    var results, failed := AnswerAll(rt, disk, toolCalls.value);
    if failed {
      return InternalError;
    }
    return Reply(Results(results));
  }
}
