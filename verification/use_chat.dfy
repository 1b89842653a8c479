/** The chat hook: four state cells updated by one handler per event, and the
    send handler that runs a whole turn against the transport. */
module UseChat {
  import opened ChatTypes
  import opened MessageList
  import C = Conversation
  import Api

  /** The toast `handleStreamError` shows: the error's message, or a default
      when that is empty. */
  function StreamErrorToast(message: string): (t: string)
    ensures t != ""
    ensures message != "" ==> t == message
  {
    if message != "" then message else "Something went wrong with the message streaming"
  }

  const CatchToast: string := "Failed to process your message. Please try again."

  /** The toasts a turn raises: none on success; on failure one from the
      stream-error callback and one from the catch block. */
  function TurnToasts(response: Api.Response): seq<string>
  {
    match Api.Terminal(response)
    case Returned(_) => []
    case Threw(t) => [StreamErrorToast(Api.ErrorMessage(t))] + [CatchToast]
  }

  class Chat {
    var messages: seq<Message>
    var isProcessing: bool
    var isSearching: bool
    var currentRunId: Option<string>
    const chatId: string
    /** Descriptions of the toasts shown so far. */
    ghost var toasts: seq<string>

    function State(): C.State
      reads this
    {
      C.State(messages, isProcessing, isSearching, currentRunId)
    }

    ghost predicate Valid()
      reads this
    {
      chatId != "" && C.Inv(State())
    }

    /** Mount: an empty conversation and a chat id stamped with the mount time. */
    constructor (now: nat)
      ensures Valid()
      ensures State() == C.Initial
      ensures chatId == "chat_" + NatToString(now)
      ensures toasts == []
    {
      messages := [];
      isProcessing := false;
      isSearching := false;
      currentRunId := None;
      chatId := "chat_" + NatToString(now);
      toasts := [];
    }

    /** The guard and the two appends of `handleSendMessage`. */
    method Send(content: string, userId: string, botId: string, at: nat) returns (accepted: bool)
      requires Valid()
      requires !isProcessing ==> C.FreshIds(State(), userId, botId)
      modifies this
      ensures Valid()
      ensures accepted == !old(isProcessing)
      ensures State() == C.Send(old(State()), content, userId, botId, at)
      ensures toasts == old(toasts)
    {
      if isProcessing {
        accepted := false;
        return;
      }
      accepted := true;
      isProcessing := true;
      isSearching := true;
      messages := messages + [C.UserMessage(userId, content, at)];
      messages := messages + [C.Placeholder(botId, at)];
    }

    /** `updateBotMessageContent`. */
    method Chunk(id: string, text: string, append: bool)
      requires Valid()
      modifies this
      ensures Valid()
      ensures State() == C.UpdateBotMessageContent(old(State()), id, text, append)
      ensures toasts == old(toasts)
    {
      if text != "" && isSearching {
        isSearching := false;
      }
      messages := UpdateContent(messages, id, text, append);
    }

    /** `handleChunk`: the searching check, then an append to the bot message. */
    method HandleChunk(botId: string, chunk: string)
      requires Valid()
      modifies this
      ensures Valid()
      ensures State() == C.HandleChunk(old(State()), botId, chunk)
      ensures toasts == old(toasts)
    {
      if chunk != "" && isSearching {
        isSearching := false;
      }
      Chunk(botId, chunk, true);
    }

    /** `handleComplete`. */
    method Complete(botId: string)
      requires Valid()
      modifies this
      ensures Valid()
      ensures State() == C.Complete(old(State()), botId)
      ensures toasts == old(toasts)
    {
      messages := MarkComplete(messages, botId);
      isProcessing := false;
      isSearching := false;
    }

    /** The cleanup shared by `handleStreamError` and the catch block, each with
      its own toast. */
    method ErrorCleanup(toast: string)
      requires Valid()
      modifies this
      ensures Valid()
      ensures State() == C.Cleanup(old(State()))
      ensures toasts == old(toasts) + [toast]
    {
      toasts := toasts + [toast];
      messages := RemoveLoading(messages);
      isProcessing := false;
      isSearching := false;
      RemoveLoadingIdempotent(old(messages));
      RemoveLoadingUniqueIds(old(messages));
    }

    /** `setCurrentRunId(runId)` after the start call resolves. */
    method StartSucceeded(runId: string)
      requires Valid()
      modifies this
      ensures Valid()
      ensures State() == C.StartSucceeded(old(State()), runId)
      ensures toasts == old(toasts)
    {
      currentRunId := Some(runId);
    }

    /** One callback of the transport, routed to the handler the send passed
        for it: `handleChunk`, `handleComplete` or `handleStreamError`. */
    method Dispatch(botId: string, e: Api.Event)
      requires Valid()
      modifies this
      ensures Valid()
      ensures e.OnChunk? ==> State() == C.HandleChunk(old(State()), botId, e.text) && toasts == old(toasts)
      ensures e.OnComplete? ==> State() == C.Complete(old(State()), botId) && toasts == old(toasts)
      ensures e.OnError? ==>
                State() == C.Cleanup(old(State())) && toasts == old(toasts) + [StreamErrorToast(e.message)]
    {
      match e
      case OnChunk(text) => HandleChunk(botId, text);
      case OnComplete => Complete(botId);
      case OnError(message) => ErrorCleanup(StreamErrorToast(message));
    }

    /** The leading `onChunk` callbacks of a trace, replayed in order; `cs` are
        the chunks they carry. */
    method ReplayChunks(botId: string, events: seq<Api.Event>, cs: seq<string>)
      requires Valid()
      requires |cs| <= |events|
      requires forall k :: 0 <= k < |cs| ==> events[k] == Api.OnChunk(cs[k])
      modifies this
      ensures Valid()
      ensures State() == C.DeliverChunks(old(State()), botId, cs)
      ensures toasts == old(toasts)
    {
      var i := 0;
      while i < |cs|
        invariant 0 <= i <= |cs|
        invariant Valid()
        invariant State() == C.DeliverChunks(old(State()), botId, cs[..i])
        invariant toasts == old(toasts)
      {
        assert cs[..i + 1][..i] == cs[..i];
        Dispatch(botId, events[i]);
        i := i + 1;
      }
      assert cs[..i] == cs;
    }

    /** The callbacks of one transport call, replayed in the order the call
        made them, each routed by `Dispatch`. The bot message is the last one
        in the list. */
    method Deliver(botId: string, response: Api.Response, events: seq<Api.Event>)
      requires Valid()
      requires events == Api.ExpectedEvents(response)
      requires |messages| > 0 && messages[|messages| - 1].id == botId
      requires messages[|messages| - 1].isLoading == Some(false)
      requires forall k :: 0 <= k < |messages| - 1 ==> messages[k].id != botId
      modifies this
      ensures Valid()
      ensures messages == old(messages[..|messages| - 1])
                + [old(messages[|messages| - 1]).(content := old(messages[|messages| - 1]).content
                                                              + Concat(Api.Delivered(response)))]
      ensures !isProcessing && !isSearching && currentRunId == old(currentRunId)
      ensures toasts == old(toasts) + match Api.Terminal(response)
                                      case Returned(_) => []
                                      case Threw(t) => [StreamErrorToast(Api.ErrorMessage(t))]
    {
      ghost var start := State();
      ghost var base := messages[..|messages| - 1];
      ghost var bot := messages[|messages| - 1];
      assert messages == base + [bot];
      var cs := Api.Delivered(response);
      Api.TraceShape(response);
      ReplayChunks(botId, events, cs);
      C.ChunksAccumulate(start, base, bot, cs);
      var bot' := bot.(content := bot.content + Concat(cs));
      assert messages == base + [bot'];
      var last := events[|cs|];
      match Api.Terminal(response) {
        case Returned(_) =>
          assert last == Api.OnComplete;
          MarkCompleteSplit(base, bot', []);
          assert base + [bot'] + [] == base + [bot'];
        case Threw(t) =>
          assert last == Api.OnError(Api.ErrorMessage(t));
          RemoveLoadingNoneLoading(messages);
      }
      Dispatch(botId, last);
    }

    /** The start-or-continue call of `handleSendMessage`: the request sent, the
        callbacks made, what the call threw (if anything), and the run id a
        successful start resolved to. */
    method CallTransport(path: C.Path, content: string, env: Api.Env, currentDate: string, now: nat,
                         response: Api.Response)
      returns (sent: Api.HttpRequest, events: seq<Api.Event>, failure: Option<Api.Thrown>,
               startedAs: Option<string>)
      requires chatId != ""
      ensures events == Api.ExpectedEvents(response)
      ensures failure == match Api.Terminal(response) case Threw(t) => Some(t) case Returned(_) => None
      ensures path.Continue? ==> sent == Api.Put(content) && startedAs == None
      ensures path.Start? ==>
                && sent == Api.StartRequest(ApiRequest(content, None, Some(chatId), None), env, currentDate)
                && startedAs == match Api.StartOutcome(response, chatId)
                                case Returned(id) => Some(id)
                                case Threw(_) => None
    {
      failure, startedAs := None, None;
      match path {
        case Continue(runId) =>
          var outcome;
          sent, events, outcome := Api.ContinueConversation(runId, content, response);
          if outcome.Threw? {
            failure := Some(outcome.thrown);
          }
        case Start =>
          var outcome;
          sent, events, outcome := Api.SubmitMessage(ApiRequest(content, None, Some(chatId), None),
                                                     env, currentDate, now, response);
          match outcome {
            case Threw(t) => failure := Some(t);
            case Returned(id) => startedAs := Some(id);
          }
      }
    }

    /** `handleSendMessage` for one whole turn: the guard, the two appends, the
        start-or-continue call against `response`, its callbacks, then the
        catch block or the run-id store. `at` is the message timestamp; `env`,
        `currentDate` and `now` are the transport's configuration and clock. */
    method HandleSendMessage(content: string, userId: string, botId: string, at: nat,
                             env: Api.Env, currentDate: string, now: nat, response: Api.Response)
      returns (sent: Option<Api.HttpRequest>)
      requires Valid()
      requires !isProcessing ==> C.FreshIds(State(), userId, botId)
      modifies this
      ensures Valid()
      ensures old(isProcessing) ==> sent == None && State() == old(State()) && toasts == old(toasts)
      ensures !old(isProcessing) ==>
                messages == old(messages) + [C.UserMessage(userId, content, at),
                                             C.Placeholder(botId, at).(content := Concat(Api.Delivered(response)))]
      ensures !old(isProcessing) ==> !isProcessing && !isSearching
      ensures !old(isProcessing) ==> toasts == old(toasts) + TurnToasts(response)
      ensures !old(isProcessing) && Truthy(old(currentRunId)) ==>
                sent == Some(Api.Put(content)) && currentRunId == old(currentRunId)
      ensures !old(isProcessing) && !Truthy(old(currentRunId)) ==>
                && sent == Some(Api.StartRequest(ApiRequest(content, None, Some(chatId), None), env, currentDate))
                && currentRunId == match Api.StartOutcome(response, chatId)
                                   case Returned(id) => Some(id)
                                   case Threw(_) => old(currentRunId)
      ensures Truthy(old(currentRunId)) ==> currentRunId == old(currentRunId)
      ensures currentRunId != old(currentRunId) ==> Truthy(currentRunId)
    {
      var accepted := Send(content, userId, botId, at);
      if !accepted {
        sent := None;
        return;
      }
      ghost var afterSend := messages;

      var path := C.ChoosePath(State());
      var req, events, failure, startedAs := CallTransport(path, content, env, currentDate, now, response);
      sent := Some(req);
      ghost var term := Api.Terminal(response);

      ghost var answer := Concat(Api.Delivered(response));
      ghost var expected := old(messages) + [C.UserMessage(userId, content, at),
                                             C.Placeholder(botId, at).(content := answer)];
      Deliver(botId, response, events);
      assert afterSend[..|afterSend| - 1] == old(messages) + [C.UserMessage(userId, content, at)];
      assert afterSend[|afterSend| - 1] == C.Placeholder(botId, at);
      assert "" + answer == answer;
      assert messages == expected;

      ghost var delivered := toasts;
      if failure.Some? {
        assert term == Api.Threw(failure.value);
        assert delivered == old(toasts) + [StreamErrorToast(Api.ErrorMessage(failure.value))];
        RemoveLoadingNoneLoading(messages);
        ghost var shown := StreamErrorToast(Api.ErrorMessage(failure.value));
        ErrorCleanup(CatchToast);
        assert toasts == old(toasts) + [shown] + [CatchToast];
        AppendAssoc(old(toasts), [shown], [CatchToast]);
      } else {
        assert term.Returned?;
        assert delivered == old(toasts) + [];
        if startedAs.Some? {
          StartSucceeded(startedAs.value);
        }
      }
      assert messages == expected;
      assert toasts == old(toasts) + TurnToasts(response);
    }
  }
}
