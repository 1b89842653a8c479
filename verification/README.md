# Chat front-end message-delivery core, in Dafny

This project models the message-delivery core of a small React chat front-end that asks a hosted
agent service questions and renders its streamed answers as chat bubbles. The core has two parts.

- **The chat hook** (`src/hooks/useChat.tsx`) owns the conversation. Its state is the ordered
  message list, the `isProcessing` and `isSearching` flags, the optional `currentRunId`, and a fixed
  `chatId`. One handler runs per event:
  - the send handler, with its guard, two appends and the start-or-continue choice;
  - chunk delivery;
  - completion;
  - the stream-error handler and the catch-block cleanup;
  - storing the run id after a successful start.
- **The transport** (`src/utils/api.ts`) covers the start call (`submitMessage`) and the continue
  call (`continueConversation`). Each checks the HTTP status and the body. It then loops over the
  streamed chunks, passing each to `onChunk`, and finishes with `onComplete` or with `onError` and a
  rethrow. The start call also searches each chunk for a run id with the regular expression
  `"id":"([^"]+)"` until it finds one, and resolves to that id or to the chat id.

Modules:

- `ChatTypes` (types.dfy) has the `Message` record (`isLoading` is optional, as in the source), the
  request record, and JavaScript truthiness of optional strings. It also has the decimal rendering
  of numbers, proved exact by reading it back.
- `RunIdExtraction` (run_id.dfy) holds the regular expression as a leftmost-match search.
  - `FindMatch` and `ExtractId` do the search.
  - `Occurs` is a reference definition of an occurrence. Lemmas prove that the search finds exactly
    the leftmost occurrence.
  - `FirstId` is the run id of a whole stream. It is taken from the first chunk that contains one,
    and later chunks never replace it.
- `Api` (api.dfy) holds the transport.
  - What `fetch` settles to is abstracted: either a rejection with its reason, or a status plus
    either no readable body or a finite list of decoded chunks. The list ends with the reader
    reporting done or with a failed read.
  - The callbacks are recorded as an event trace (`OnChunk`, `OnComplete`, `OnError`).
  - `SubmitMessage` and `ContinueConversation` are the two loops. Each is proved against
    `ExpectedEvents`, `Terminal` and `StartOutcome`, and lemmas state the shape of the trace.
- `MessageList` (message_list.dfy) holds the pure list updaters the hook passes to `setMessages`
  (`map` for content and completion, `filter` for cleanup) and their lemmas.
- `Conversation` (conversation.dfy) has the hook's state as a value and one pure transition per
  event. It also proves the invariant and the lemmas over whole event sequences: idempotent
  cleanup, chunk accumulation, a run id that is never cleared, and continuing after a start.
- `UseChat` (use_chat.dfy) has the class `Chat`, with the hook's state cells as fields and one
  method per handler. Each method is proved equal to its transition in `Conversation`.
  `HandleSendMessage` runs a whole turn. It sends and calls the transport on a given response. It
  then replays the recorded callbacks one event at a time, in the order the transport made them,
  routing each to its handler (`Dispatch`). Finally it runs the catch block or stores the run id.
  Its postcondition gives the exact final message list, the flags, the toasts and the run id.
- `Scenarios` (scenarios.dfy) has two client methods that drive whole turns through the class and
  check what the contracts let a caller conclude.

Three behaviours of the code are easy to misread:

- **The placeholder stays after a failed turn.** The bot placeholder is created with
  `isLoading: false`, so the failure cleanup (`filter(msg => !msg.isLoading)`) does not remove it.
  A failed turn leaves the user message and an empty bot message in the list
  (`Conversation.CleanupKeepsMessages`, `UseChat.Chat.HandleSendMessage`, `Scenarios.FailedStart`).
  No message is ever marked loading, so the cleanup removes nothing in a reachable state.
- **The continue request does not carry the run id.** `continueConversation` ignores its run-id
  argument. It PUTs `{message}` to the same agent URL as the start call, not to a run-specific
  address.
- **There is no polling.** The code has no polling or timeout strategy and no replace-mode
  delivery. `pollForResult` is a stub that returns a fixed record with status `"completed"` (a value
  outside the declared status type). `updateBotMessageContent` has a replace mode, but the hook only
  ever calls it with the default append.

## Model

| member | source | states |
|---|---|---|
| `ChatTypes.NatToString` | src/utils/api.ts:23 | a number renders as a non-empty string of decimal digits with no leading zero |
| `ChatTypes.NatToStringValue` | src/utils/api.ts:46 | reading the rendered digits back gives the number, so `API error: <status>` and `chat_<timestamp>` carry the exact value |
| `ChatTypes.NatToStringInjective` | src/utils/api.ts:23 | different timestamps give different renderings |
| `RunIdExtraction.FindMatch` | src/utils/api.ts:82 | returns the first position at or after the start where the pattern matches, with no match before it; none when the pattern matches nowhere |
| `RunIdExtraction.CaptureAt` | src/utils/api.ts:82-84 | the captured group is non-empty and contains no quote |
| `RunIdExtraction.ExtractId` | src/utils/api.ts:82-86 | an extracted id is non-empty and contains no `"` |
| `RunIdExtraction.MatchAtOccurs` | src/utils/api.ts:82 | a match found by the search is an occurrence of the capture under the reference definition |
| `RunIdExtraction.OccursMatchAt` | src/utils/api.ts:82 | every occurrence is found by the search at its position, and the search captures exactly its id |
| `RunIdExtraction.ExtractIdSound` | src/utils/api.ts:82 | the extracted id occurs in the chunk, and no occurrence starts before it (leftmost match) |
| `RunIdExtraction.ExtractIdLeftmost` | src/utils/api.ts:82 | an occurrence with no occurrence before it is exactly what is extracted |
| `RunIdExtraction.ExtractIdNone` | src/utils/api.ts:82-83 | nothing is extracted if and only if the chunk has no occurrence at all |
| `RunIdExtraction.FirstId` | src/utils/api.ts:76-90 | a stream's run id, when found, is non-empty and contains no `"` |
| `RunIdExtraction.FirstIdIsFirst` | src/utils/api.ts:76-90 | a stream's run id comes from the first chunk that yields one, and every earlier chunk yields none; it is absent only when no chunk yields one |
| `RunIdExtraction.FirstIdAppend` | src/utils/api.ts:79-86 | a run id already found is kept when the next chunk arrives; otherwise the next chunk's id (if any) is taken |
| `RunIdExtraction.FirstIdKept` | src/utils/api.ts:79 | once a prefix of the stream has yielded an id, no later chunks overwrite it |
| `RunIdExtraction.SplitIdNotFound` | src/utils/api.ts:68-86 | matching is per chunk: the id `r1` split across the chunks `"id":"r` and `1"` is not found, though their concatenation yields it |
| `Api.StatusMessage` | src/utils/api.ts:45-47 | the thrown message is `API error: ` followed by the decimal rendering of the status |
| `Api.ErrorMessage` | src/utils/api.ts:96 | `onError` receives a thrown Error's own message, and `Unknown error` for any other thrown value |
| `Api.EffectiveChatId` | src/utils/api.ts:23 | the chat id is the request's chat id when truthy, else `chat_<timestamp>`; never empty |
| `Api.StartRequest` | src/utils/api.ts:26-36 | the start body's `vars.question` is the request message; the other fields come from configuration and the date |
| `Api.Delivered` | src/utils/api.ts:45-76 | behind an ok status and a readable body the delivered chunks are exactly the body's chunks; otherwise none are delivered |
| `Api.Terminal` | src/utils/api.ts:39-66 | a call completes if and only if the fetch resolved, the status is ok, the body is readable and the reader reports done; a rejected fetch throws its reason; a bad status throws `API error: <status>`; a missing body throws `Response body is not readable` |
| `Api.ChunkEvents` | src/utils/api.ts:76 | one `onChunk` per chunk, with the chunk unmodified, in arrival order |
| `Api.CompleteIffDone` | src/utils/api.ts:60-66 | `onComplete` is called if and only if the reader reports done, and then last; otherwise the last callback is `onError`; every earlier callback is `onChunk` |
| `Api.TraceShape` | src/utils/api.ts:60-97 | the trace is the delivered chunks, each once and in order, followed by exactly one terminal callback |
| `Api.EarlyFailure` | src/utils/api.ts:39-53 | a rejected fetch, a non-ok status or an unreadable body produces one `onError` with the thrown message, and no `onChunk` or `onComplete` |
| `Api.StartOutcome` | src/utils/api.ts:93-97 | the start call resolves exactly when the exchange completes, to the stream's first run id or else the chat id; otherwise it rethrows what the exchange threw |
| `Api.StartOutcomeNonEmpty` | src/utils/api.ts:93 | with a non-empty chat id, the start call never resolves to an empty id |
| `Api.SubmitMessage` | src/utils/api.ts:13-99 | sends the start body, whose question is the message; emits exactly the expected callback trace; resolves to the first run id found, else to the chat id, or rethrows what failed; a resolved id is never empty |
| `Api.ContinueConversation` | src/utils/api.ts:102-158 | sends only the message (no run id); emits the same callback trace as the start call; resolves or rethrows as the terminal outcome says |
| `Api.PollForResult` | src/utils/api.ts:161-168 | returns a record whose id is the given run id, with fixed status `completed` and a fixed answer |
| `MessageList.NewContent` | src/hooks/useChat.tsx:27 | the new content is old plus chunk when appending, and the chunk alone when replacing |
| `MessageList.UpdateContent` | src/hooks/useChat.tsx:22-31 | the length is kept; every message whose id differs is unchanged; a matching message changes only its content |
| `MessageList.MarkComplete` | src/hooks/useChat.tsx:89-95 | the length is kept; only messages with the matching id change, and only their `isLoading`, to false |
| `MessageList.RemoveLoading` | src/hooks/useChat.tsx:43 | a message is kept if and only if it was present and not loading |
| `MessageList.RemoveLoadingAppend` | src/hooks/useChat.tsx:43 | the filter keeps order: filtering a concatenation is the concatenation of the filtered parts |
| `MessageList.RemoveLoadingNoneLoading` | src/hooks/useChat.tsx:136 | a list with no loading message is left unchanged |
| `MessageList.RemoveLoadingIdempotent` | src/hooks/useChat.tsx:136-138 | after the filter nothing is loading, and filtering again changes nothing |
| `MessageList.RemoveLoadingUniqueIds` | src/hooks/useChat.tsx:43 | the filter keeps message ids distinct |
| `MessageList.UpdateContentSplit` | src/hooks/useChat.tsx:22-31 | with unique ids, a content update changes the matching message and leaves the messages before and after it as they were |
| `MessageList.MarkCompleteSplit` | src/hooks/useChat.tsx:89-95 | with unique ids, completion changes only the matching message |
| `Conversation.Send` | src/hooks/useChat.tsx:48-77 | a send while processing is a no-op; otherwise both flags go up, the earlier messages are untouched, a user message with the content and an empty bot placeholder with `isLoading` false are appended, and the run id is kept; the invariant is preserved when the ids are fresh |
| `Conversation.ChoosePath` | src/hooks/useChat.tsx:101-124 | the continue path is taken if and only if a non-empty run id is held, and it continues that run |
| `Conversation.UpdateBotMessageContent` | src/hooks/useChat.tsx:16-32 | messages are updated as `UpdateContent` states; searching ends exactly when a non-empty chunk arrives; an empty chunk leaves it; nothing sets it back; the other fields are unchanged |
| `Conversation.HandleChunkIsAppend` | src/hooks/useChat.tsx:80-85 | the chunk handler is the default append path; its own searching check adds nothing |
| `Conversation.Complete` | src/hooks/useChat.tsx:87-98 | the bot message is marked not loading, both flags are cleared, and the run id is kept |
| `Conversation.Cleanup` | src/hooks/useChat.tsx:42-45 | loading messages are removed, both flags are cleared, the run id is kept, and the invariant holds |
| `Conversation.StartSucceeded` | src/hooks/useChat.tsx:121-122 | the resolved id is stored and nothing else changes |
| `Conversation.CleanupIdempotent` | src/hooks/useChat.tsx:136-138 | running the cleanup a second time, as the catch block does after the stream-error handler, changes nothing |
| `Conversation.CleanupKeepsMessages` | src/hooks/useChat.tsx:68-74 | in a reachable state nothing is loading, so the cleanup keeps every message, including the user message and the new placeholder |
| `Conversation.ChunksAccumulate` | src/hooks/useChat.tsx:80-85 | chunks c1..cn delivered to the bot message extend its content by c1+...+cn; other messages, the processing flag and the run id are unchanged; searching survives only if every chunk was empty |
| `Conversation.RunIdNeverCleared` | src/hooks/useChat.tsx:121-122 | once a run id is held, no sequence of events resets it to null |
| `Conversation.ContinueOnceStarted` | src/hooks/useChat.tsx:100-124 | once a non-empty run id is held, every later send takes the continue path, including after failed turns |
| `Conversation.InvAlways` | src/hooks/useChat.tsx:48-98 | from any state meeting the invariant, every event sequence whose accepted sends bring fresh ids keeps it: distinct ids, nothing loading, and searching only while processing |
| `UseChat.StreamErrorToast` | src/hooks/useChat.tsx:36-40 | the stream-error toast shows the error's message when non-empty, otherwise a default |
| `UseChat.Chat.constructor` | src/hooks/useChat.tsx:8-12 | mounts with no messages, both flags false, no run id, and chat id `chat_<time>` |
| `UseChat.Chat.Send` | src/hooks/useChat.tsx:48-77 | performs the guarded send transition; it is accepted if and only if not processing |
| `UseChat.Chat.Chunk` | src/hooks/useChat.tsx:16-32 | performs the content-update transition |
| `UseChat.Chat.HandleChunk` | src/hooks/useChat.tsx:80-85 | performs the chunk-handler transition |
| `UseChat.Chat.Dispatch` | src/hooks/useChat.tsx:104-118 | an `onChunk` callback runs the chunk handler, `onComplete` the completion handler, and `onError` the cleanup with the stream-error toast for its message |
| `UseChat.Chat.ReplayChunks` | src/hooks/useChat.tsx:80-85 | replaying the leading `onChunk` callbacks of a trace applies the chunk handler to each chunk in arrival order |
| `UseChat.Chat.CallTransport` | src/hooks/useChat.tsx:100-124 | the continue path sends `Put(content)` and stores nothing; the start path sends the start body with the hook's chat id and yields the resolved run id only on success; the callbacks are exactly the expected trace and the failure is exactly what the exchange threw |
| `UseChat.Chat.Complete` | src/hooks/useChat.tsx:87-98 | performs the completion transition |
| `UseChat.Chat.ErrorCleanup` | src/hooks/useChat.tsx:126-139 | performs the cleanup transition and raises the given toast |
| `UseChat.Chat.StartSucceeded` | src/hooks/useChat.tsx:121-122 | stores the run id |
| `UseChat.Chat.Deliver` | src/hooks/useChat.tsx:79-118 | replaying a call's callbacks leaves the bot message's content extended by the delivered chunks; both flags are cleared and the run id is kept; one toast is raised on failure |
| `UseChat.Chat.HandleSendMessage` | src/hooks/useChat.tsx:48-140 | a send while processing changes nothing and sends nothing. An accepted turn ends with the earlier messages, the user message and the bot message holding the concatenated chunks (left in place on failure), and both flags false. A held run id selects the continue request and is kept. Otherwise the start request is sent, and its resolved id is stored only on success. On failure both toasts are raised |

## Left out

- The HTTP layer is abstracted. `fetch`, the stream reader and `TextDecoder` become one value:
  a rejected fetch with its reason, or a status plus either no body or decoded chunks ending in
  done or a read failure. Partial multi-byte sequences across chunks are not modelled.
- Configuration and the clock are parameters. The bearer header (`getHeaders`), the agent URL and
  the hard-coded owner name and email are left out as configuration. The environment-provided
  chat id, bundle and contacts URL, and the current date, are opaque parameters.
- `Date.now()`-based message ids and timestamps are parameters.
- `UseChat.Chat.Send`: when the send is accepted, requires the two new ids to be distinct and
  absent from the list. The source takes them from the clock and does not check them.
- `UseChat.Chat.HandleSendMessage`: requires the same freshness of ids as `Send`, again only when
  the send is accepted.
- Console logging is not modelled, nor the `firstChunkReceived` flag, which only drives a log line.
- Toasts are recorded as a ghost list of their descriptions. Their rendering is not modelled.
- React scheduling is not modelled: state updates take effect immediately. In the real hook the
  handlers read `isProcessing` and `isSearching` from the render in which the send started. Two
  sends inside one render can both pass the guard, and the chunk handler sees `isSearching` as it was
  before the send (false), so in practice a chunk may not end the searching phase. The model's
  `isSearching` clearing is what the code says under immediate updates.
- Callbacks are assumed not to throw. The hook's callbacks only update state. If one threw inside
  the transport's `try`, the transport would call `onError` as well; that path is not modelled.
- Overlapping turns and the cooperative scheduler are not modelled. Because of the guard, each turn
  is modelled as one uninterrupted sequence of events.
- The presentation components (input box, message list, header, suggestion pills, loading
  indicator, page) are left out as rendering only, and so are the unused `ApiResponse` and
  `PollingResult` status types.
