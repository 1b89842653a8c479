/** The conversation state the hook keeps in its state cells, and one pure
    transition per event that changes it. The class in UseChat performs these
    transitions field by field; the lemmas here are what they guarantee. */
module Conversation {
  import opened ChatTypes
  import opened MessageList

  datatype State = State(
    messages: seq<Message>,
    isProcessing: bool,
    isSearching: bool,
    currentRunId: Option<string>)

  /** The state the hook mounts with. */
  const Initial: State := State([], false, false, None)

  /** What every reachable state satisfies: distinct message ids, no message
      marked loading, and searching only while processing. */
  predicate Inv(s: State)
  {
    && UniqueIds(s.messages)
    && NoneLoading(s.messages)
    && (s.isSearching ==> s.isProcessing)
  }

  function UserMessage(id: string, content: string, at: nat): Message
  {
    Message(id, content, User, at, None)
  }

  /** The bot placeholder: empty and created with `isLoading: false`. */
  function Placeholder(id: string, at: nat): Message
  {
    Message(id, "", Bot, at, Some(false))
  }

  /** The two ids a send creates are distinct and not yet in the list. */
  predicate FreshIds(s: State, userId: string, botId: string)
  {
    && userId != botId
    && forall k :: 0 <= k < |s.messages| ==> s.messages[k].id != userId && s.messages[k].id != botId
  }

  /** `handleSendMessage` up to the network call: ignored while processing;
      otherwise both flags go up and the user message and the placeholder are
      appended. */
  function Send(s: State, content: string, userId: string, botId: string, at: nat): (r: State)
    ensures s.isProcessing ==> r == s
    ensures !s.isProcessing ==>
              && r.isProcessing && r.isSearching
              && |r.messages| == |s.messages| + 2
              && r.messages[..|s.messages|] == s.messages
              && r.messages[|s.messages|] == UserMessage(userId, content, at)
              && r.messages[|s.messages| + 1] == Placeholder(botId, at)
              && r.currentRunId == s.currentRunId
    ensures Inv(s) && (!s.isProcessing ==> FreshIds(s, userId, botId)) ==> Inv(r)
  {
    if s.isProcessing then s
    else
      var ms := s.messages + [UserMessage(userId, content, at), Placeholder(botId, at)];
      State(ms, true, true, s.currentRunId)
  }

  datatype Path = Start | Continue(runId: string)

  /** `if (currentRunId)`: continue exactly when a non-empty run id is held. */
  function ChoosePath(s: State): (p: Path)
    ensures p.Continue? <==> Truthy(s.currentRunId)
    ensures p.Continue? ==> p.runId == s.currentRunId.value
  {
    if Truthy(s.currentRunId) then Continue(s.currentRunId.value) else Start
  }

  /** `updateBotMessageContent`: a non-empty chunk ends the searching phase; the
      matching message gets the chunk appended or as its whole content. */
  function UpdateBotMessageContent(s: State, id: string, text: string, append: bool): (r: State)
    ensures r.messages == UpdateContent(s.messages, id, text, append)
    ensures r.isSearching == (s.isSearching && text == "")
    ensures r.isProcessing == s.isProcessing && r.currentRunId == s.currentRunId
    ensures Inv(s) ==> Inv(r)
  {
    var searching := if text != "" && s.isSearching then false else s.isSearching;
    s.(isSearching := searching, messages := UpdateContent(s.messages, id, text, append))
  }

  /** `handleChunk`: its own searching check, then the default append path. */
  function HandleChunk(s: State, botId: string, chunk: string): State
  {
    var s' := if chunk != "" && s.isSearching then s.(isSearching := false) else s;
    UpdateBotMessageContent(s', botId, chunk, true)
  }

  /** The handler's own check is subsumed by the one inside the update. */
  lemma HandleChunkIsAppend(s: State, botId: string, chunk: string)
    ensures HandleChunk(s, botId, chunk) == UpdateBotMessageContent(s, botId, chunk, true)
  {
  }

  /** `handleComplete`: the bot message is marked not loading and both flags drop. */
  function Complete(s: State, botId: string): (r: State)
    ensures r.messages == MarkComplete(s.messages, botId)
    ensures !r.isProcessing && !r.isSearching && r.currentRunId == s.currentRunId
    ensures Inv(s) ==> Inv(r)
  {
    State(MarkComplete(s.messages, botId), false, false, s.currentRunId)
  }

  /** Error cleanup, shared by `handleStreamError` and the catch block: drop
      loading messages and both flags. */
  function Cleanup(s: State): (r: State)
    ensures r.messages == RemoveLoading(s.messages)
    ensures !r.isProcessing && !r.isSearching && r.currentRunId == s.currentRunId
    ensures Inv(s) ==> Inv(r)
  {
    assert UniqueIds(s.messages) ==> UniqueIds(RemoveLoading(s.messages)) by {
      if UniqueIds(s.messages) { RemoveLoadingUniqueIds(s.messages); }
    }
    RemoveLoadingIdempotent(s.messages);
    State(RemoveLoading(s.messages), false, false, s.currentRunId)
  }

  /** A successful start stores the id it resolved to. */
  function StartSucceeded(s: State, runId: string): (r: State)
    ensures r.currentRunId == Some(runId)
    ensures r.messages == s.messages && r.isProcessing == s.isProcessing && r.isSearching == s.isSearching
    ensures Inv(s) ==> Inv(r)
  {
    s.(currentRunId := Some(runId))
  }

  /** Both failure paths run the cleanup; the second run changes nothing. */
  lemma CleanupIdempotent(s: State)
    ensures Cleanup(Cleanup(s)) == Cleanup(s)
  {
    RemoveLoadingIdempotent(s.messages);
  }

  /** In a reachable state nothing is loading, so the cleanup keeps every
      message, the user's message and the fresh placeholder included. */
  lemma CleanupKeepsMessages(s: State)
    requires Inv(s)
    ensures Cleanup(s).messages == s.messages
  {
    RemoveLoadingNoneLoading(s.messages);
  }

  predicate AllEmpty(cs: seq<string>)
  {
    forall k :: 0 <= k < |cs| ==> cs[k] == ""
  }

  lemma AllEmptyLast(cs: seq<string>)
    requires cs != []
    ensures AllEmpty(cs) <==> AllEmpty(cs[..|cs| - 1]) && cs[|cs| - 1] == ""
  {
    assert forall k :: 0 <= k < |cs| - 1 ==> cs[..|cs| - 1][k] == cs[k];
  }

  /** The state after `handleChunk` has run for each chunk in turn. */
  function DeliverChunks(s: State, botId: string, cs: seq<string>): State
  {
    if cs == [] then s
    else HandleChunk(DeliverChunks(s, botId, cs[..|cs| - 1]), botId, cs[|cs| - 1])
  }

  /** Chunks c1..cn delivered to the last message leave its content extended by
      c1 + ... + cn and every other message as it was; searching survives only
      if every chunk was empty; nothing else changes. */
  lemma {:induction false} ChunksAccumulate(s: State, a: seq<Message>, m: Message, cs: seq<string>)
    requires s.messages == a + [m]
    requires forall k :: 0 <= k < |a| ==> a[k].id != m.id
    ensures DeliverChunks(s, m.id, cs).messages == a + [m.(content := m.content + Concat(cs))]
    ensures DeliverChunks(s, m.id, cs).isSearching == (s.isSearching && AllEmpty(cs))
    ensures DeliverChunks(s, m.id, cs).isProcessing == s.isProcessing
    ensures DeliverChunks(s, m.id, cs).currentRunId == s.currentRunId
  {
    if cs == [] {
      assert m.(content := m.content + "") == m;
    } else {
      var init, c := cs[..|cs| - 1], cs[|cs| - 1];
      ChunksAccumulate(s, a, m, init);
      var d := DeliverChunks(s, m.id, init);
      assert DeliverChunks(s, m.id, cs) == HandleChunk(d, m.id, c);
      var m' := m.(content := m.content + Concat(init));
      HandleChunkIsAppend(d, m.id, c);
      UpdateContentSplit(a, m', [], c, true);
      assert a + [m'] + [] == a + [m'];
      assert Concat(cs) == Concat(init) + c;
      AppendAssoc(m.content, Concat(init), c);
      AllEmptyLast(cs);
    }
  }

  /** Every event the hook handles, for reasoning about arbitrary sequences. */
  datatype Input =
    | SendIn(content: string, userId: string, botId: string, at: nat)
    | UpdateIn(id: string, text: string, append: bool)
    | CompleteIn(botId: string)
    | CleanupIn
    | StartSucceededIn(runId: string)

  function Step(s: State, input: Input): State
  {
    match input
    case SendIn(content, userId, botId, at) => Send(s, content, userId, botId, at)
    case UpdateIn(id, text, append) => UpdateBotMessageContent(s, id, text, append)
    case CompleteIn(botId) => Complete(s, botId)
    case CleanupIn => Cleanup(s)
    case StartSucceededIn(runId) => StartSucceeded(s, runId)
  }

  function Run(s: State, inputs: seq<Input>): State
  {
    if inputs == [] then s else Step(Run(s, inputs[..|inputs| - 1]), inputs[|inputs| - 1])
  }

  /** A run id, once held, is never reset to null by any sequence of events. */
  lemma {:induction false} RunIdNeverCleared(s: State, inputs: seq<Input>)
    requires s.currentRunId.Some?
    ensures Run(s, inputs).currentRunId.Some?
  {
    if inputs != [] {
      RunIdNeverCleared(s, inputs[..|inputs| - 1]);
    }
  }

  /** Once a non-empty run id is held, every later send takes the continue
      path, whatever happened in between (failures included), as long as any
      id stored is non-empty, which the start call guarantees. */
  lemma {:induction false} ContinueOnceStarted(s: State, inputs: seq<Input>)
    requires Truthy(s.currentRunId)
    requires forall k :: 0 <= k < |inputs| && inputs[k].StartSucceededIn? ==> inputs[k].runId != ""
    ensures ChoosePath(Run(s, inputs)).Continue?
  {
    if inputs != [] {
      ContinueOnceStarted(s, inputs[..|inputs| - 1]);
    }
  }

  /** The invariant holds from mount on, whatever events arrive, provided every
      accepted send brings fresh ids. */
  lemma {:induction false} InvAlways(s: State, inputs: seq<Input>)
    requires Inv(s)
    requires forall k :: 0 <= k < |inputs| && inputs[k].SendIn? && !Run(s, inputs[..k]).isProcessing ==>
               FreshIds(Run(s, inputs[..k]), inputs[k].userId, inputs[k].botId)
    ensures Inv(Run(s, inputs))
  {
    if inputs != [] {
      var init := inputs[..|inputs| - 1];
      forall k | 0 <= k < |init| && init[k].SendIn? && !Run(s, init[..k]).isProcessing
        ensures FreshIds(Run(s, init[..k]), init[k].userId, init[k].botId)
      {
        assert init[..k] == inputs[..k];
      }
      InvAlways(s, init);
    }
  }
}
