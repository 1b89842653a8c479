/** The transport adapter: the start call (`submitMessage`) and the continue
    call (`continueConversation`), each a loop that reads a streamed response
    and reports through three callbacks.

    The HTTP exchange is abstracted: a response has a status and either no
    readable body or a finite sequence of already-decoded text chunks that ends
    either with the reader reporting done or with a failed read. The callbacks
    are recorded, in call order, as a trace of events. */
module Api {
  import opened ChatTypes
  import opened RunIdExtraction

  /** What a failed operation throws: an Error object with a message, or some
      other value. */
  datatype Thrown = ErrorValue(message: string) | NonError

  /** How the reader finishes after the last chunk. */
  datatype StreamEnd = Done | ReadFailed(reason: Thrown)

  datatype Body = Body(chunks: seq<string>, end: StreamEnd)

  /** What `fetch` settles to: a response with its status and, when readable,
      its streamed body; or a rejection (a network failure) with its reason. */
  datatype Response =
    | Response(status: nat, body: Option<Body>)
    | FetchFailed(reason: Thrown)

  /** `response.ok`: a response arrived, with a status in the range 200-299. */
  predicate Ok(r: Response)
  {
    r.Response? && 200 <= r.status <= 299
  }

  /** One callback invocation. */
  datatype Event = OnChunk(text: string) | OnComplete | OnError(message: string)

  /** How a call settles: it returns a value or rethrows what it caught. */
  datatype Outcome<T> = Returned(value: T) | Threw(thrown: Thrown)

  /** Configuration read from the environment: the agent's chat id, bundle
      name and contacts URL. */
  datatype Env = Env(chatId: string, bundle: string, contactsUrl: string)

  datatype Vars = Vars(question: string, url: string, currentDate: string)

  /** The two request bodies: the start call posts the question inside `vars`,
      the continue call puts only the message. */
  datatype HttpRequest =
    | Post(chatId: string, bundle: string, vars: Vars)
    | Put(message: string)

  const NotReadable: string := "Response body is not readable"
  const UnknownError: string := "Unknown error"

  /** The message thrown for a non-ok status: `API error: <status>`. */
  function StatusMessage(status: nat): (m: string)
    ensures |m| > |"API error: "| && m[..|"API error: "|] == "API error: "
    ensures m[|"API error: "|..] == NatToString(status)
  {
    "API error: " + NatToString(status)
  }

  /** What `onError` receives: the thrown Error itself, or a fresh
      `Error('Unknown error')` for anything else. */
  function ErrorMessage(t: Thrown): (m: string)
    ensures t.ErrorValue? ==> m == t.message
    ensures t.NonError? ==> m == UnknownError
  {
    match t
    case ErrorValue(m) => m
    case NonError => UnknownError
  }

  /** `request.chatId || chat_<timestamp>`: the given chat id when truthy, a
      timestamp-based fallback otherwise. */
  function EffectiveChatId(request: ApiRequest, now: nat): (id: string)
    ensures id != ""
    ensures Truthy(request.chatId) ==> id == request.chatId.value
    ensures !Truthy(request.chatId) ==> id == "chat_" + NatToString(now)
  {
    if Truthy(request.chatId) then request.chatId.value else "chat_" + NatToString(now)
  }

  /** Body of the start request. */
  function StartRequest(request: ApiRequest, env: Env, currentDate: string): (r: HttpRequest)
    ensures r.Post? && r.vars.question == request.message
    ensures r.chatId == env.chatId && r.bundle == env.bundle
    ensures r.vars.url == env.contactsUrl && r.vars.currentDate == currentDate
  {
    Post(env.chatId, env.bundle, Vars(request.message, env.contactsUrl, currentDate))
  }

  /** The chunks a response delivers to `onChunk`: those of a readable body
      behind an ok status, none otherwise. */
  function Delivered(response: Response): (cs: seq<string>)
    ensures Ok(response) && response.body.Some? ==> cs == response.body.value.chunks
    ensures !(Ok(response) && response.body.Some?) ==> cs == []
  {
    if Ok(response) && response.body.Some? then response.body.value.chunks else []
  }

  /** How the exchange ends, whatever the chunks: a rejected fetch, then the
      status check, then the body check, then the reader's final report. */
  function Terminal(response: Response): (o: Outcome<()>)
    ensures o.Returned? <==> Ok(response) && response.body.Some? && response.body.value.end.Done?
    ensures response.FetchFailed? ==> o == Threw(response.reason)
    ensures response.Response? && !Ok(response) ==> o == Threw(ErrorValue(StatusMessage(response.status)))
    ensures Ok(response) && response.body.None? ==> o == Threw(ErrorValue(NotReadable))
  {
    match response
    case FetchFailed(t) => Threw(t)
    case Response(status, body) =>
      if !(200 <= status <= 299) then Threw(ErrorValue(StatusMessage(status)))
      else match body
        case None => Threw(ErrorValue(NotReadable))
        case Some(b) =>
          match b.end
          case Done => Returned(())
          case ReadFailed(t) => Threw(t)
  }

  function ChunkEvents(chunks: seq<string>): (evs: seq<Event>)
    ensures |evs| == |chunks|
    ensures forall k :: 0 <= k < |chunks| ==> evs[k] == OnChunk(chunks[k])
  {
    if chunks == [] then [] else ChunkEvents(chunks[..|chunks| - 1]) + [OnChunk(chunks[|chunks| - 1])]
  }

  function TerminalEvent(o: Outcome<()>): Event
  {
    match o
    case Returned(_) => OnComplete
    case Threw(t) => OnError(ErrorMessage(t))
  }

  /** The callback trace both calls produce for a response. */
  function ExpectedEvents(response: Response): seq<Event>
  {
    ChunkEvents(Delivered(response)) + [TerminalEvent(Terminal(response))]
  }

  /** What the start call resolves to: the first run id found in the stream,
      else the chat id; or the rethrown failure. */
  function StartOutcome(response: Response, chatId: string): (o: Outcome<string>)
    ensures o.Returned? <==> Terminal(response).Returned?
    ensures o.Threw? ==> Terminal(response) == Threw(o.thrown)
    ensures o.Returned? && FirstId(Delivered(response)).Some? ==> o.value == FirstId(Delivered(response)).value
    ensures o.Returned? && FirstId(Delivered(response)).None? ==> o.value == chatId
  {
    match Terminal(response)
    case Threw(t) => Threw(t)
    case Returned(_) =>
      match FirstId(Delivered(response))
      case Some(id) => Returned(id)
      case None => Returned(chatId)
  }

  /** The trace is a run of `onChunk` calls, each chunk once, unmodified and in
      arrival order, closed by exactly one terminal callback. */
  lemma TraceShape(response: Response)
    ensures var evs := ExpectedEvents(response);
      && |evs| == |Delivered(response)| + 1
      && (forall k :: 0 <= k < |evs| - 1 ==> evs[k] == OnChunk(Delivered(response)[k]))
      && !evs[|evs| - 1].OnChunk?
  {
  }

  /** `onComplete` fires exactly when the reader reports done, and then as the
      last callback; otherwise `onError` fires, once, instead. */
  lemma CompleteIffDone(response: Response)
    ensures var evs := ExpectedEvents(response);
      && (OnComplete in evs <==> Ok(response) && response.body.Some? && response.body.value.end.Done?)
      && (OnComplete in evs ==> evs[|evs| - 1] == OnComplete)
      && (OnComplete !in evs ==> evs[|evs| - 1].OnError?)
      && (forall k :: 0 <= k < |evs| - 1 ==> evs[k].OnChunk?)
  {
    var evs := ExpectedEvents(response);
    var cs := Delivered(response);
    assert forall k :: 0 <= k < |cs| ==> evs[k] == OnChunk(cs[k]);
  }

  /** A rejected fetch, a non-ok status or an unreadable body: one `onError`
      with the thrown message and no other callback. */
  lemma EarlyFailure(response: Response)
    requires !Ok(response) || response.body.None?
    ensures ExpectedEvents(response) == [OnError(
              match response
              case FetchFailed(t) => ErrorMessage(t)
              case Response(status, _) => if !Ok(response) then StatusMessage(status) else NotReadable)]
  {
  }

  /** The start call never resolves to an empty id. */
  lemma StartOutcomeNonEmpty(response: Response, chatId: string)
    requires chatId != ""
    ensures StartOutcome(response, chatId).Returned? ==> StartOutcome(response, chatId).value != ""
  {
  }

  /** `submitMessage`: send the start request, check the status and the body,
      then read chunk after chunk, handing each to `onChunk` and, while no run
      id is known, searching it for one; on done call `onComplete` and resolve
      to the run id or the chat id; on any failure call `onError` and rethrow. */
  method SubmitMessage(request: ApiRequest, env: Env, currentDate: string, now: nat, response: Response)
    returns (sent: HttpRequest, events: seq<Event>, outcome: Outcome<string>)
    ensures sent.Post? && sent.vars.question == request.message
    ensures sent == StartRequest(request, env, currentDate)
    ensures events == ExpectedEvents(response)
    ensures outcome == StartOutcome(response, EffectiveChatId(request, now))
    ensures outcome.Returned? ==> outcome.value != ""
  {
    var chatId := if Truthy(request.chatId) then request.chatId.value else "chat_" + NatToString(now);
    sent := Post(env.chatId, env.bundle, Vars(request.message, env.contactsUrl, currentDate));
    if response.FetchFailed? {
      events := [OnError(ErrorMessage(response.reason))];
      outcome := Threw(response.reason);
      return;
    }
    if !(200 <= response.status <= 299) {
      var e := ErrorValue("API error: " + NatToString(response.status));
      events := [OnError(e.message)];
      outcome := Threw(e);
      return;
    }
    if response.body.None? {
      var e := ErrorValue(NotReadable);
      events := [OnError(e.message)];
      outcome := Threw(e);
      return;
    }
    var chunks := response.body.value.chunks;
    var runId := "";
    events := [];
    var i := 0;
    while i < |chunks|
      invariant 0 <= i <= |chunks|
      invariant events == ChunkEvents(chunks[..i])
      invariant runId == match FirstId(chunks[..i]) case Some(id) => id case None => ""
    {
      var chunk := chunks[i];
      events := events + [OnChunk(chunk)];
      FirstIdAppend(chunks[..i], chunk);
      if runId == "" {
        var m := ExtractId(chunk);
        if m.Some? {
          runId := m.value;
        }
      }
      assert chunks[..i + 1] == chunks[..i] + [chunk] && chunks[..i + 1][..i] == chunks[..i];
      i := i + 1;
    }
    assert chunks[..i] == chunks;
    match response.body.value.end {
      case Done =>
        events := events + [OnComplete];
        outcome := Returned(if runId != "" then runId else chatId);
      case ReadFailed(t) =>
        events := events + [OnError(ErrorMessage(t))];
        outcome := Threw(t);
    }
  }

  /** `continueConversation`: send only the message (the run id argument is not
      used by the request), then the same read loop without run-id search; it
      resolves to nothing. */
  method ContinueConversation(runId: string, message: string, response: Response)
    returns (sent: HttpRequest, events: seq<Event>, outcome: Outcome<()>)
    ensures sent == Put(message)
    ensures events == ExpectedEvents(response)
    ensures outcome == Terminal(response)
  {
    sent := Put(message);
    if response.FetchFailed? {
      events := [OnError(ErrorMessage(response.reason))];
      outcome := Threw(response.reason);
      return;
    }
    if !(200 <= response.status <= 299) {
      var e := ErrorValue("API error: " + NatToString(response.status));
      events := [OnError(e.message)];
      outcome := Threw(e);
      return;
    }
    if response.body.None? {
      var e := ErrorValue(NotReadable);
      events := [OnError(e.message)];
      outcome := Threw(e);
      return;
    }
    var chunks := response.body.value.chunks;
    events := [];
    var i := 0;
    while i < |chunks|
      invariant 0 <= i <= |chunks|
      invariant events == ChunkEvents(chunks[..i])
    {
      events := events + [OnChunk(chunks[i])];
      assert chunks[..i + 1][..i] == chunks[..i];
      i := i + 1;
    }
    assert chunks[..i] == chunks;
    match response.body.value.end {
      case Done =>
        events := events + [OnComplete];
        outcome := Returned(());
      case ReadFailed(t) =>
        events := events + [OnError(ErrorMessage(t))];
        outcome := Threw(t);
    }
  }

  datatype PollingResult = PollingResult(id: string, status: string, answer: Option<string>, error: Option<string>)

  /** The deprecated polling entry point: it polls nothing and reports a fixed
      completed answer for the run id it is given. */
  function PollForResult(runId: string): (r: PollingResult)
    ensures r.id == runId
    ensures r.status == "completed" && r.answer == Some("Using streaming responses now")
    ensures r.error == None
  {
    PollingResult(runId, "completed", Some("Using streaming responses now"), None)
  }
}
