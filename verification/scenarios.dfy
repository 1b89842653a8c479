/** Whole turns driven through the hook, showing what a caller can conclude
    from the contracts alone. */
module Scenarios {
  import opened ChatTypes
  import opened MessageList
  import C = Conversation
  import Api
  import opened UseChat

  const env := Api.Env("agent-chat", "bundle", "https://contacts.example")

  /** A streamed answer in chunks `cs`, then a follow-up that continues the
      same run even though its own request fails. */
  method StreamThenContinue(cs: seq<string>)
  {
    var chat := new Chat(1000);
    var ok := Api.Response(200, Some(Api.Body(cs, Api.Done)));
    var sent := chat.HandleSendMessage("find investors", "user_1", "bot_1", 1, env, "2025-01-01", 1, ok);
    assert sent.value.Post? && sent.value.vars.question == "find investors";
    assert chat.messages[1].content == Concat(cs);
    assert chat.messages[1].sender == Bot && !chat.isProcessing;
    assert Truthy(chat.currentRunId);

    var failing := Api.Response(500, None);
    sent := chat.HandleSendMessage("and founders?", "user_2", "bot_2", 2, env, "2025-01-01", 2, failing);
    assert sent == Some(Api.Put("and founders?"));
    assert |chat.messages| == 4 && chat.messages[2].content == "and founders?";
    assert chat.messages[3] == C.Placeholder("bot_2", 2);
    assert !chat.isProcessing && !chat.isSearching;
    assert chat.currentRunId.Some?;
  }

  /** A start call answered with status 500: the user message and the empty
      placeholder stay, both flags drop, and no run id is stored. */
  method FailedStart()
  {
    var chat := new Chat(5);
    var sent := chat.HandleSendMessage("find founders", "user_5", "bot_5", 5, env, "2025-01-01", 5, Api.Response(500, None));
    assert chat.messages == [C.UserMessage("user_5", "find founders", 5), C.Placeholder("bot_5", 5)];
    assert chat.currentRunId == None;
    assert !chat.isProcessing && !chat.isSearching;
  }

  /** A start call whose fetch is rejected with a network error: the stream
      toast shows the rejection's message, then the catch-block toast. */
  method RejectedFetch(reason: string)
    requires reason != ""
  {
    var chat := new Chat(7);
    var sent := chat.HandleSendMessage("hello", "user_7", "bot_7", 7, env, "2025-01-01", 7,
                                       Api.FetchFailed(Api.ErrorValue(reason)));
    assert chat.toasts == [reason, CatchToast];
    assert chat.currentRunId == None && !chat.isProcessing;
  }
}
