# Verification model of the LLM gateway

This project models the parts of the gateway that are hardest to get right by reading, and proves what they
promise. `dafny verify dfyconfig.toml` checks everything.

**Streaming converters.** Each converter turns one LLM stream protocol into another, one chunk at a time, and must
repair a stream that is cut at any point. `ChatStream`, `AnthropicStream` and `ResponsesStream` hold the three
protocols: chunks or events as datatypes, what a stream *means* to a client (text, reasoning, tool calls, finish), and
the strict client (`Watch`) that accepts only well-formed streams; the Responses client also assembles every output
item from its deltas, wants its content part added once and before the first delta and its `*.done` events once and
after the last, and compares it with each of them and with the final object. `ChatToAnthropic`,
`AnthropicToChat`, `ChatToResponses` (with its object in `ChatToResponsesSession`), `ResponsesToChat` and
`AnthropicToResponses` hold the converters, and `Routes` compares two ways through them. In each of them a function
says what one step does to the session (`React` or `Render`), a class holds the source's methods, proved to compute
that function, and the theorems are about the fold over whole streams, cut anywhere.

**Incremental tag filter.** `ThinkFilter`: the streaming filter agrees with a one-pass filter at every cut, exactly
when no call takes one branch.

**Balancing and dispatch.** `LoadBalancer`: exact fairness of smooth weighted round robin. `Dispatch`: termination and
a global bound on attempts and sleep. `Outcomes`: mutable health views that equal a fold of the event log.

**Storage.** `WriteBehind`: conservation of records, write ids and rows over every interleaving of enqueue, workers,
failures, timeouts, late writes and replay. `RequestLogs`: month shards that refine one sorted list.

**Text.** `Pii`: overlap resolution and in-place edits that refine a simultaneous substitution. `Sse`: parser and
printer of event blocks undo each other.

Results that came out against the code, kept as it is:

- `ThinkFilter.feed` keeps the whole buffer at think_filter.py:96-98 even when part of it was consumed by the same
  call; `CorrectIffNeverStale` says the filter is right at every cut if and only if no call takes that branch, and
  `StaleExample` gives a single chunk that comes out wrong.
- Chat to Anthropic routes an argument fragment by the current block (converters/anthropic_stream_state.py:189-234).
  `MeaningKeptIffRouted` and `WellFormedIffInOrder` give the exact conditions, on the order in which fragments arrive,
  for the meaning to be kept and for the events to be well formed; `InterruptedIsMisrouted` and
  `InterleavedIsOutOfOrder` are streams of three chunks that fail them.
- Chat to Responses drops whatever a role chunk carries besides the role (`RoleChunkMeansNothing`), and sends
  `response.completed` without `response.created` exactly when nothing was said (`CreatedIffSpoken`).
- Chat to Responses opens another call when a name is sent again, makes up an id for a call without one, and sends
  arguments without an index to no call. `MeaningKeptIffRouted`: text, reasoning and calls are right at every cut if
  and only if none of this happens and all arguments go to the call they are meant for; `NameTwiceMisread` and
  `IdlessMisread` are streams that fail. Of routed streams the finish reason survives exactly in the cases of
  `FinishSurvives`.
- Chat to Responses keeps its calls by id and sends arguments of an unknown call to the item with their index, where
  no call keeps them. `WellFormedIffKept` says for every proper stream exactly when a strict client accepts the
  result, and `WellFormedIffAgree` when all arguments are for new or known calls: if and only if something was said
  and calls of one id agree. `IndexlessRefused` and `OneIdRefused` are streams it refuses.
- An added content part is closed if and only if its item has any text (converters/stream_events.py:296, 341): the
  client allows the part of an empty item to stay open, and `PartsCounted` and `PartsCountedAtEnd` count what it sees.
- Anthropic to Responses closes a thinking block with the thinking of the whole stream, and lists for a call what its
  id was used for last. `WellFormedIffAgree`: a strict client accepts the stream if and only if every thinking block
  has all the thinking of the stream and calls of one id agree; `TwoThoughtsRefused` and `OneIdRefused` are streams
  that fail. Text, reasoning and calls survive in any case (`MeaningKept`, `RoutesAgree`).
- Without a reference a direct write that lands late and the row of its line, which alone has a write id, are two
  rows. `RowsWithoutReference` counts the rows of such a record over every run, `OneRowPerLine` says that a line makes
  one at most however often it is replayed, and `DoubledIff` when a record that came in once is doubled; `LateTwice` is
  a run that doubles one, `ReplayedOnce` one that does not.
- A worker that is cancelled in the middle of a write spills nothing. `GoneIffHit`: at rest a record is gone if and
  only if all of its copies were being written by workers that were cancelled, it had no row before, and no write that
  would have stored it was acknowledged or landed; `HitAndGone` and `HitAndLanded` are the two runs.
- Asking whether a pair is healthy can make it forget its failures: no later answer about them changes
  (`AskingChangesNoAnswer`), but the next failure counts as the first again (`AskingForgets`).
- A mask operator hides what it does not keep if and only if it keeps a tail (`HidesIffTail`): without one it would
  repeat the whole value. All operators in use keep one, so that texts which differ in hidden characters only come out
  the same (`FilterHides`).

## Model

| member | source | states |
|---|---|---|
| ThinkFilter.CorrectIffNeverStale | think_filter.py:51-109 | the text a client has received is the one-pass filter of what arrived, at every cut of the chunks, if and only if no call takes the branch that keeps a consumed buffer |
| ThinkFilter.ChunkingDoesNotMatter | think_filter.py:51-159 | all feeds and the flush give the one-pass filter of the concatenated chunks, also when the size limit cuts an unclosed block |
| ThinkFilter.StaleCallIsWrong | think_filter.py:89-99 | the first call that takes that branch leaves a client with text that is not the filter of its input |
| ThinkFilter.StaleExample | think_filter.py:96-98 | one chunk with a closed block and a trailing `<` comes out with its first letter and the block twice |
| ThinkFilter.FilterIsScan | think_filter.py:68-109 | stopping the pass at the last safe point and holding back the rest loses and adds nothing |
| ThinkFilter.ThinkBlockIsDropped | think_filter.py:68-131 | a text without a tag passes whole; of one with `<think>`, what comes before it and the filter of what comes after the next `</think>`, or nothing more if there is none |
| ThinkFilter.BubbleBlockIsDropped | think_filter.py:68-143 | the same between two thought bubbles |
| ThinkFilter.HoldsLittle | think_filter.py:86-99 | what a session holds back outside a block is a proper beginning of `<think>` and all else is out; inside one it is no more than 1024 * 1024 characters |
| ThinkFilter.KeepsUnclosed | think_filter.py:72-82 | an unclosed block is kept whole up to that size, beyond it the last seven characters of a think block and none of a bubble block |
| ThinkFilter.ScanAppend | think_filter.py:64-109 | a pass over a text and then over more equals one pass over both, whatever tag is split between them |
| ThinkFilter.RunTracks | think_filter.py:51-109 | after any chunks the session is the one-pass scan of all that arrived, up to a discarded part of an unclosed block |
| ThinkFilter.FindIsFirst | think_filter.py:111-114 | the search finds the first occurrence at or after the start, or there is none |
| ThinkFilter.StreamFilter.PartialStartTagLen | think_filter.py:116-124 | the result is the longest proper prefix of a start tag that the text ends with |
| ThinkFilter.StreamFilter.Feed | think_filter.py:51-109 | one call returns and keeps what the specification of a feed says |
| ThinkFilter.StreamFilter.Flush | think_filter.py:146-159 | the held-back text is returned outside a block and discarded inside one |
| LoadBalancer.PrefixFairness | balancer/load_balancer.py:150-181 | after any k picks from zero, channel i was chosen fewer than k * weight / total + 1 times |
| LoadBalancer.RoundIsExact | balancer/load_balancer.py:150-181 | total-weight many picks choose every channel exactly its weight many times and bring every current weight back to zero |
| LoadBalancer.EveryWindowIsExact | balancer/load_balancer.py:150-181 | so do the total-weight many picks that start anywhere |
| LoadBalancer.NoStarvation | balancer/load_balancer.py:150-181 | from any current weights every channel is picked within a computable number of picks |
| LoadBalancer.Account | balancer/load_balancer.py:166-179 | a current weight is its start plus one weight for each pick, less the total for each time it was chosen |
| LoadBalancer.NextKeepsSum | balancer/load_balancer.py:164-179 | a pick keeps the sum of the current weights of its candidates |
| LoadBalancer.PickKeepsSum | balancer/load_balancer.py:150-181 | whatever subset is offered, a pick moves weight among its candidates only and touches no other model |
| LoadBalancer.PickMoves | balancer/load_balancer.py:164-179 | a pick adds its weight to the current weight of each candidate, from 0 if it has none, and takes the total of the weights from that of the chosen one |
| LoadBalancer.BestIsFirstTop | balancer/load_balancer.py:166-175 | the chosen candidate has the greatest raised weight, and the first of those |
| LoadBalancer.Balancer.WeightedRoundRobin | balancer/load_balancer.py:150-181 | the map of current weights changes by exactly one pick on the offered channels of the model that is passed; every entry of another model stays as it is |
| LoadBalancer.Balancer.SelectChannel | balancer/load_balancer.py:63-110 | nothing is selected only if nothing is admitted; what is selected is admitted and of the best priority; a group of one costs no pick; the entries of other models stay |
| ChatToAnthropic.EveryStreamIsLawful | converters/anthropic_stream_state.py:114-377 | for every sequence of chunks whatsoever: message_start first and once, block starts and stops alternating with matching indices, exactly one message_stop after finalize if anything was sent |
| ChatToAnthropic.WellFormedIffInOrder | converters/anthropic_stream_state.py:60-377 | wherever a proper stream is cut, the client gets one message_start, blocks 0, 1, 2 and so on with deltas of their own, one message_delta and one message_stop, if and only if no fragment arrives while the tool block of another call is open |
| ChatToAnthropic.MeaningKeptIffRouted | converters/to_anthropic.py:485-535 | text, reasoning and tool calls of the events are those of the chunks if and only if every fragment of a known call arrives while a tool block is current |
| ChatToAnthropic.InterleavedIsOutOfOrder | converters/anthropic_stream_state.py:189-257 | calls 0 and 1 opened, then arguments for 0: a proper stream whose events are not well formed, although routed |
| ChatToAnthropic.InterruptedIsMisrouted | converters/anthropic_stream_state.py:189-234 | call 0 opened, then text, then arguments for 0: a proper stream in order that does not keep its meaning |
| ChatToAnthropic.FinishSurvives | converters/anthropic_stream_state.py:283-377 | the four finish reasons survive and no other; the old alias reads as tool_calls, anything else and a cut stream as a plain stop |
| ChatToAnthropic.ConvertedShape | converters/anthropic_stream_state.py:314-377 | the end of a stream is the same block stop, message_delta and message_stop whether usage comes with the finish, after it, or never, with the output tokens of the first usage from the finish on |
| ChatStream.FullChunkInOrder | converters/to_anthropic.py:485-535 | a chunk with everything is read in the order role, reasoning, content, tool calls, finish |
| ChatToAnthropic.StartReported | converters/anthropic_stream_state.py:60-112 | the first event of any stream has the id, the model and the prompt tokens of the first chunk that is more than usage; without one nothing is sent |
| ChatToAnthropic.OutputReported | converters/anthropic_stream_state.py:283-359 | a finished stream ends on message_delta and message_stop, with the stop reason of its finish and the completion tokens of the first chunk from the finish on that reports usage, or 0 |
| ChatToAnthropic.WatchLive | converters/anthropic_stream_state.py:60-281 | while the message is open, the strict client is in the block the session believes to be open, or has refused a misplaced fragment |
| ChatToAnthropic.ReactWeight | converters/anthropic_stream_state.py:189-234 | what a step adds to the text and reasoning of the client, and that a misrouted fragment adds its arguments there |
| ChatToAnthropic.Session.ConvertChunk | converters/to_anthropic.py:485-535 | one chunk does to the session, and emits, what its steps do in the order role, reasoning, content, tool calls, finish |
| ChatToAnthropic.Session.CloseBlock | converters/anthropic_stream_state.py:259-281 | the stop of the current block, a signature before it for thinking, and the index moved on if asked |
| ChatToAnthropic.Session.OpenBlock | converters/anthropic_stream_state.py:114-187 | nothing if the kind is already current; otherwise the old block closed and the new one started |
| ChatToAnthropic.Session.EnsureToolBlock | converters/anthropic_stream_state.py:236-257 | a new call closes the current block and gets the next index; a known one does nothing |
| ChatToAnthropic.Session.AppendDelta | converters/anthropic_stream_state.py:189-234 | the delta takes the kind of the current block |
| ChatToAnthropic.Session.BuildMessageStopEvents | converters/anthropic_stream_state.py:283-312 | message_delta and message_stop once, with the output tokens not reported before |
| ChatToAnthropic.Session.QueueStop | converters/anthropic_stream_state.py:314-339 | the stop is sent with usage and withheld without |
| ChatToAnthropic.Session.HandleUsageChunk | converters/anthropic_stream_state.py:341-359 | usage releases a withheld stop, and ends a message that had no finish |
| ChatToAnthropic.Session.FinalizeStream | converters/anthropic_stream_state.py:361-377 | an unfinished message is closed and stopped, a finished or unstarted one left alone |
| AnthropicToChat.MeaningKept | converters/to_chat.py:391-541 | text, reasoning, tool calls renumbered by first appearance, and the finish of an addressed Anthropic stream reach the Chat client |
| AnthropicToChat.WellFormedMeaningKept | converters/to_chat.py:391-541 | the same for every cut of a well-formed Anthropic stream |
| AnthropicToChat.UsageReported | converters/to_chat.py:525-537 | of a complete stream the last chunk, and only it, reports usage: the input tokens of its message_start, the output tokens of its message_delta, and their sum |
| AnthropicToChat.UsageOnlyIfAsked | converters/to_chat.py:525-537 | usage that was not asked for is never reported |
| AnthropicToChat.StreamCarries | converters/to_chat.py:391-541 | every chunk of a well-formed stream has the id and the model of its message_start |
| AnthropicToChat.FinishOnce | converters/to_chat.py:500-523 | for every event sequence whatsoever one chunk has a finish if any event has a stop reason, the reading of the first one, and otherwise none |
| AnthropicToChat.StrayGoesToLatest | converters/to_chat.py:462-476 | arguments for a block that was never opened as a tool go to the latest call |
| AnthropicToChat.RoundTripIffRouted | converters/to_chat.py:391-541 | Chat to Anthropic and back is the identity on text, reasoning and tool calls, cut anywhere, if and only if every fragment of a known call arrives while a tool block is current |
| AnthropicToChat.RoundTripFinish | converters/to_chat.py:500-523 | the round trip keeps the four finish reasons and no other |
| AnthropicToChat.ConvertedAddressed | converters/anthropic_stream_state.py:114-257 | every json delta the other converter sends names a block it opened as a tool block |
| AnthropicToChat.Session.ConvertEvent | converters/to_chat.py:391-541 | one event does to the session, and gives, the chunks of the specification |
| ChatToResponses.ExactlyOneCompleted | converters/response_stream_state.py:224-278 | for every sequence of steps whatsoever, cut anywhere, exactly one response.completed, and nothing at all for an empty upstream |
| ChatToResponses.WellFormedIffRecorded | converters/response_stream_state.py:96-278 | wherever a proper stream is cut, a strict client accepts every event, finds each item added at the next index, its part added before the first delta, and done exactly once with the content it assembled, and ends on a response.completed that lists the items in order, if and only if the stream said anything, all arguments were sent to a call, and every call is on record, under its id, with the name and the arguments that were sent of it; otherwise it refuses the stream |
| ChatToResponses.WellFormedIffKept | converters/stream_chat_to_response.py:148-204 | the same condition on the stream alone: something was said, all arguments were sent to a call, and every call was sent with the name and the arguments that the latest call of its id kept; arguments of an unknown call that go by their index are sent but kept by none |
| ChatToResponses.WellFormedIffAgree | converters/stream_chat_to_response.py:148-204 | if all arguments come with an index and for a new or known call, that is if and only if the stream said anything and calls of one id have one name and the same arguments, up to the bound |
| ChatToResponses.WellFormedIffSpoken | converters/response_stream_state.py:96-278 | if moreover the id each call is given, its own or a made-up one, is new, the client accepts the stream if and only if it said anything; the final object has the truncation mark, the text of the stream up to the bound, and all usage up to and including the first chunk without a choice after the finish |
| ChatToResponses.RecordedIffKept | converters/response_stream_state.py:416-428 | every call is on record as sent if and only if it agrees with what was kept of the latest call with its id |
| ChatToResponses.IndexlessRefused | converters/stream_chat_to_response.py:188-204 | arguments without an index make the client refuse the stream, whatever else it says |
| ChatToResponses.OneIdRefused | converters/stream_chat_to_response.py:152-204 | two calls with one id: the first is done with the arguments of the second, which the client refuses |
| ChatToResponses.MeaningKeptIffRouted | converters/stream_chat_to_response.py:148-204 | at every cut of a proper stream the events mean the text, reasoning and tool calls of its steps, if and only if every new call has a name and an id, none is named again, and arguments have an index and go to the item of their own call |
| ChatToResponses.NameTwiceMisread | converters/stream_chat_to_response.py:152-187 | a call whose name is sent again is read as two |
| ChatToResponses.IdlessMisread | converters/stream_chat_to_response.py:152-187 | a call without an id is read with one |
| ChatToResponses.SoundIsRouted | converters/stream_chat_to_response.py:148-204 | fragments as the protocol sends them, name and id once and the index always, are all routed |
| ChatToResponses.MeaningKept | converters/stream_chat_to_response.py:97-268 | for every proper and routed stream, cut anywhere, the events mean the text, reasoning and tool calls of the chunks, and, if anything arrived, a finish that depends on truncation and on whether there were calls |
| ChatToResponses.FinishSurvives | converters/response_stream_state.py:141-171 | the finish reason of a routed stream survives if and only if it is length, or tool_calls with a call, or stop without one, or nothing arrived |
| ChatToResponses.FinishIs | converters/response_stream_state.py:141-171 | for every proper stream the finish that is read is length for length, and otherwise depends only on whether any call was opened |
| ChatToResponses.CreatedIffSpoken | converters/stream_chat_to_response.py:264-268 | among all events of a proper stream there is a response.created if and only if some step said something or was the role; then it is the first event and the only one of its kind |
| ChatToResponses.FinalWatched | converters/response_stream_state.py:173-222 | the done sequences close every open item as assembled, and the final object lists exactly the assembled items, if and only if every call is on record with what was sent of it |
| ChatToResponses.LiveMirrors | converters/stream_chat_to_response.py:97-255 | at every point of a live stream the client has assembled the items folded from the steps, which the session mirrors up to the truncation bound, or arguments went to no call and it has refused them |
| ChatToResponses.LiveKeeps | converters/stream_chat_to_response.py:148-204 | sound fragments can all be attributed to their call, and the open stream means the same on both sides |
| ChatToResponses.ConvertedShape | converters/response_stream_state.py:224-278 | whatever the upstream sends after the finish, or if it ends before it, the client gets the done sequences and then one final object with the usage known when it was released |
| ChatToResponses.UsageReported | converters/stream_usage.py:354-377 | for every proper stream the only response.completed has as input, output, total, cached and reasoning tokens what the last chunk with the prompt, completion, total, cached or reasoning count said, among those up to the finish and then up to the first without a choice; and all text up to a million characters |
| ChatToResponses.FullChunkInOrder | converters/stream_chat_to_response.py:44-268 | a chunk with everything is read in the order usage, content, end of the content, tool calls, reasoning, finish |
| ChatToResponses.SpecialChunks | converters/stream_chat_to_response.py:44-95 | a chunk without a choice lets a withheld response.completed go, with the usage it brings; a role chunk announces the response and does nothing else |
| ChatToResponses.MadeUpId | converters/stream_chat_to_response.py:157-161 | a call with no id of its own nor one for its index gets `call_` and its index, or the number of calls so far, in decimal |
| ChatToResponses.TailShape | converters/response_stream_state.py:234-262 | a withheld response.completed goes out once, with the usage of the first chunk without a choice, or at the end |
| ChatToResponses.RoleChunkMeansNothing | converters/stream_chat_to_response.py:91-95 | a role chunk means nothing to the client; after any stream it is read as meant if and only if it has no text and no reasoning, only fragments of known calls without arguments, and no finish where none was read before |
| ChatToResponses.StepsMeanChunks | converters/stream_chat_to_response.py:44-268 | the order in which a chunk is read does not matter to its meaning, whole stream by whole stream |
| ChatToResponses.ReasoningAtFirst | converters/stream_chat_to_response.py:243-246 | the reasoning item that is searched for is the only one |
| ResponsesStream.GrowTakes | converters/response_stream_state.py:291-317 | appending piece by piece under the bound keeps the first million characters of the whole |
| ResponsesStream.MessageCloses | converters/stream_events.py:271-315 | the done sequence of a message closes the item it was assembled to and changes nothing else |
| ResponsesStream.ReasoningCloses | converters/stream_events.py:340-369 | so does that of a reasoning item |
| ResponsesStream.ReasoningRefused | converters/stream_events.py:340-369 | a done sequence with another text than the assembled one is refused |
| ResponsesStream.PartsCounted | converters/stream_events.py:287-369 | in every stream the client takes, the part of a message or of reasoning is added once, and once the item is done it was closed once if it has text and never if it has none |
| ResponsesStream.PartsCountedAtEnd | converters/stream_events.py:287-369 | in a stream that is taken to its end each message and each reasoning item had its part added once, and closed once exactly if it has text; calls had none |
| ResponsesStream.AssignSequenceNumbers | converters/to_response.py:520-526 | the events in order get the next numbers, without gap |
| ChatToResponsesSession.ConvertStream | converters/to_response.py:493-526 | a whole upstream gives exactly the specified events with sequence numbers 1, 2, 3 and so on, an empty one none |
| ChatToResponsesSession.AnnounceOnce | converters/stream_chat_to_response.py:264-268 | announcing the response at the first event of a chunk is announcing it before the whole chunk |
| ChatToResponsesSession.Session.ConvertStreamChunk | converters/to_response.py:493-506 | one chunk gives its numbered events, and an error exactly if it has more than one choice |
| ChatToResponsesSession.Session.TakeChunk | converters/stream_chat_to_response.py:27-268 | usage is taken first, a chunk without a choice releases a withheld end, a role chunk only announces, several choices are an error |
| ChatToResponsesSession.Session.TakeFragment | converters/stream_chat_to_response.py:152-204 | a fragment with a name opens an item, arguments go to the call its id or index names |
| ChatToResponsesSession.Session.SayContent | converters/stream_chat_to_response.py:101-145 | text opens an item and a part if none is active, and is added to the item and to the whole text |
| ChatToResponsesSession.Session.SayThought | converters/stream_chat_to_response.py:206-255 | reasoning opens its item once and grows the one aggregate |
| ChatToResponsesSession.Session.EmitTextDone | converters/response_stream_state.py:121-139 | the active message is done with its own text and no longer active |
| ChatToResponsesSession.Session.BuildOutputItems | converters/response_stream_state.py:344-381 | the final output is the list of completed items, or one empty message |
| ChatToResponsesSession.Session.BuildFinalEvents | converters/response_stream_state.py:141-222 | all done sequences and then the final object, once |
| ChatToResponsesSession.Session.QueueFinalEvents | converters/response_stream_state.py:224-232 | the done sequences are sent and the final object withheld |
| ChatToResponsesSession.Session.Release | converters/response_stream_state.py:234-253 | the withheld final object goes out once with the usage known by then |
| ChatToResponsesSession.Session.FinalizeState | converters/response_stream_state.py:255-278 | a withheld end is released, a completed stream left alone, any other closed with stop |
| ResponsesToChat.MeaningKept | converters/to_chat.py:778-908 | text, reasoning, tool calls and the finish of an addressed Responses stream reach the Chat client |
| ResponsesToChat.WellFormedMeaningKept | converters/to_chat.py:778-908 | the same for every cut of a Responses stream that a strict client accepts |
| ResponsesToChat.UsageReported | converters/to_chat.py:881-904 | if usage is asked for, the last chunk has the input, output and total tokens of response.completed as prompt, completion and total, and its cached and reasoning tokens |
| ResponsesToChat.UsageOnlyIfAsked | converters/to_chat.py:881-904 | usage that was not asked for is never reported |
| ResponsesToChat.StrayGoesToLatest | converters/to_chat.py:851-866 | arguments for an item that was never added as a call go to the latest call |
| ResponsesToChat.RoundTrip | converters/to_chat.py:778-908 | for every routed stream Chat to Responses and back is the identity on text, reasoning and tool calls, cut anywhere; the finish survives if and only if it is length, tool_calls with a call, or stop without one, or nothing arrived |
| ResponsesToChat.UsageRoundTrip | converters/to_chat.py:881-904 | Chat to Responses and back reports of each usage field what the last chunk that had it said, up to the first without a choice after the finish |
| ResponsesToChat.ChunksRoundTrip | converters/to_chat.py:778-908 | the same stated for the chunks that go in and come out |
| ResponsesToChat.ConvertedAddressed | converters/stream_chat_to_response.py:152-204 | every argument delta the other converter sends for a routed stream names an item it added as a call |
| ResponsesToChat.Session.ConvertAll | converters/to_chat.py:778-908 | a whole stream of events gives the chunks of the specification |
| AnthropicToResponses.WellFormedIffAgree | converters/stream_anthropic_to_response.py:32-382 | for every cut of a well-formed stream: the client finds every block closed exactly once, by its stop or at the end, with the content of its deltas, and the only response.completed last, listing the fold of all block deltas, with the truncation mark, text and usage of the stream, if and only if every thinking block has all the thinking of the stream and calls of one id have one name and the same arguments (both up to the bound); otherwise it refuses the stream |
| AnthropicToResponses.WellFormed | converters/stream_anthropic_to_response.py:32-382 | so it accepts every stream with one thinking block at most and an id of its own for each call |
| AnthropicToResponses.TwoThoughtsRefused | converters/stream_anthropic_to_response.py:63-70 | thinking blocks "a" and "b": a well-formed stream that the client refuses |
| AnthropicToResponses.OneIdRefused | converters/stream_anthropic_to_response.py:52-62 | two tool blocks with one id and different arguments: a well-formed stream that the client refuses |
| AnthropicToResponses.BuiltIfAgree | converters/response_stream_state.py:344-427 | the final object lists what was assembled if and only if the blocks agree |
| AnthropicToResponses.MeaningKept | converters/stream_anthropic_to_response.py:77-382 | for every cut of a well-formed stream the events mean its text, reasoning and tool calls, numbered alike |
| AnthropicToResponses.ExactlyOneCompleted | converters/stream_anthropic_to_response.py:309-382 | for every event sequence whatsoever exactly one response.completed, and nothing at all for an empty upstream |
| AnthropicToResponses.LiveTracks | converters/stream_anthropic_to_response.py:94-307 | inside the message the session holds, block by block, the fold of the deltas, only the current block is open, and the client has taken every event or refused a thinking block closed with more than its own |
| AnthropicToResponses.EndCloses | converters/stream_anthropic_to_response.py:358-365 | what is still open when the stream ends is closed once |
| AnthropicToResponses.ConvertedShape | converters/stream_anthropic_to_response.py:309-382 | message_delta, message_stop and finalize together complete the response once, in every order in which a stream can end |
| AnthropicToResponses.UsageReported | converters/stream_anthropic_to_response.py:309-382 | cut anywhere, a well-formed stream ends on a response.completed with the input tokens of its message_start, the output tokens of its message_delta if it has one, and their sum, all its text up to a million characters, and the truncation mark exactly for max_tokens |
| AnthropicToResponses.DeltaToItsBlock | converters/stream_anthropic_to_response.py:139-247 | whatever its number, the deltas of a block go to the output item it was given |
| AnthropicToResponses.ConvertStream | converters/to_response.py:493-526 | a whole upstream gives exactly the specified events with sequence numbers 1, 2, 3 and so on, an empty one none |
| AnthropicToResponses.Session.TakeEvent | converters/stream_anthropic_to_response.py:77-349 | one event does to the session, and emits, what the specification says |
| AnthropicToResponses.Session.FinalizeState | converters/stream_anthropic_to_response.py:352-382 | every block not closed is done in insertion order, then the response completed, unless it was |
| Routes.RoutesAgree | converters/to_chat.py:391-908 | every well-formed Anthropic stream, cut anywhere, gives a Chat client the same text, reasoning and tool calls directly and through Responses; the finish agrees if and only if it is length, tool_calls with a call, or stop without one |
| Routes.ConvertedAddressed | converters/stream_anthropic_to_response.py:139-247 | every argument delta of the Responses stream in between names an item that was added as a call |
| Dispatch.GroupIsBounded | proxy/model_group_dispatch.py:124-212 | one model-group request, whatever the world answers: at most distinct channels plus tenths of the budget attempts over all items, sleep within the budget, no excluded channel attempted again; the first attempt that does not fail in a retryable way is the result, or else the error on record is that of the last failure |
| Dispatch.GroupIsExplained | proxy/model_group_dispatch.py:124-200 | the attempts of a request fall into those of its items, in their order and none for a blocked one, each on an enabled channel of the item that is its own or convertible and admitted; and no item is passed over unless it is blocked, its own channel is missing or excluded, or each of its convertible channels is disabled, excluded or was refused; a request ends exhausted only when it has come to all items |
| Dispatch.PreferredComesFirst | proxy/model_group_dispatch.py:150-176 | a lazy group first attempts its preferred channel if that may be attempted at all |
| Dispatch.FairLoop | proxy/dispatcher.py:131-156 | one loop pays for every attempt with a newly excluded channel or a tenth of a second of the shared budget |
| Dispatch.StepSpends | proxy/dispatcher.py:131-156 | every turn that goes on leaves less: a channel fewer to try or a tenth of a second less to wait |
| Dispatch.LimitSpends | rate_limiting.py:123-142 | a rate limit is waited out for at least a tenth of a second within the budget, or excludes the channel |
| Dispatch.LimitWaits | rate_limiting.py:123-142 | a rate limit keeps its channel exactly if nothing was waited for it in the queue and the budget covers the delay, one second if none is named and a tenth at least, which is then slept out of the budget; otherwise the channel is excluded and its error goes on record |
| Dispatch.SelectedIsNew | proxy/dispatcher.py:196-270 | a selected channel is of the pool or the pinned one, and not excluded |
| Dispatch.ExhaustedPool | proxy/dispatcher.py:132-137 | a pool is given up only when each of its channels is disabled, excluded or refused |
| Dispatch.FairGroup | proxy/model_group_dispatch.py:124-200 | the items of a group share the excluded channels and the budget |
| Dispatch.DispatchContext.DispatchLoop | proxy/dispatcher.py:114-156 | the loop ends, with the result and the context of the specification |
| Dispatch.DispatchContext.WaitOrExclude | rate_limiting.py:106-142 | a queue timeout or an exhausted budget excludes the channel, otherwise the delay is slept out of the budget |
| Dispatch.DispatchContext.ServeEntry | proxy/model_group_dispatch.py:125-200 | blocked and unbound items are skipped, a bound channel skips the gates, a lazy group tries its preferred channel first |
| Dispatch.DispatchContext.ExecuteModelGroup | proxy/model_group_dispatch.py:124-212 | the items are served in order until one does not exhaust its channels |
| Outcomes.ViewsAgree | proxy/outcomes.py:285-346 | on every run and for every pair: degraded iff a failure follows the last success; the counters are the number and first time of the failures since; permanent iff a configuration failure follows the last success and the last clearing; permanent implies degraded; the rolling count never exceeds the consecutive one |
| Outcomes.RefusedIff | proxy/outcomes.py:356-376 | a pair is called unhealthy if and only if that many failures count against it, the latest within the cooldown; those count that came since its last success or removal, or since a question found them past their cooldown |
| Outcomes.StreakIsRecent | proxy/outcomes.py:311-332 | the failures that count are the latest of those since the last success or removal |
| Outcomes.AskingChangesNoAnswer | proxy/outcomes.py:356-386 | asking about health changes none of the degradation views, and no later answer about that pair under the same limits |
| Outcomes.AskingForgets | proxy/outcomes.py:371-376 | two failures, and a third long after: unhealthy, but healthy if someone asked just before the third |
| Outcomes.ProbedIff | proxy/outcomes.py:439-468 | exactly the degraded and not permanent pairs of real models are probed |
| Outcomes.BlockedIff | proxy/outcomes.py:389-399 | with a forward clock a channel is blocked iff its latest window limit is not yet reset, although expired limits are dropped lazily |
| Outcomes.PreferredIs | proxy/outcomes.py:423-437 | the sticky channel of a group is the one last preferred, unless that channel was removed since |
| Outcomes.Store.StickyPreferred | proxy/outcomes.py:423-430 | the answer by the log |
| Outcomes.UnhealedNext | proxy/outcomes.py:311-332 | how one event changes whether a failure is unhealed |
| Outcomes.Store.RecordFailure | proxy/outcomes.py:324-341 | the entry of the pair, and only it, takes one more failure |
| Outcomes.Store.RecordSuccess | proxy/outcomes.py:311-318 | the entry of the pair, and only it, starts afresh |
| Outcomes.Store.IsHealthy | proxy/outcomes.py:356-376 | the answer, and the rolling count forgotten when the cooldown has run out |
| Outcomes.Store.IsDegraded | proxy/outcomes.py:379-386 | true iff some failure in the log was not followed by a success or removal |
| Outcomes.Store.IsBlocked | proxy/outcomes.py:389-399 | true iff the latest window limit in the log is not yet reset |
| Outcomes.Store.ProbeTargets | proxy/outcomes.py:439-468 | the pairs that, by the log, are degraded, not permanent and not virtual |
| Outcomes.Store.ClearPermanentForChannel | proxy/outcomes.py:478-483 | only the permanent marks of that channel are cleared |
| Outcomes.Store.DeleteChannel | proxy/outcomes.py:530-539 | the state of that channel and no other is removed |
| WriteBehind.RunIsSound | db_write_behind.py:99-210 | over every interleaving: every record is in exactly one place, no reference and no write id has two rows, every write id names one record, and the queue keeps its size |
| WriteBehind.RowsDiffer | request_logs.py:335-336 | on any run no two rows have one reference, and no two one write id |
| WriteBehind.FirstInFirstOut | db_write_behind.py:99-107 | on any run what workers have taken and then what is queued is what entered, in order; a record is spilled instead exactly when the queue has its greatest size |
| WriteBehind.JunkStays | db_write_behind.py:179-192 | on any run the lines that do not parse are kept, each as often as it was there |
| WriteBehind.AtRestNothingIsMissing | db_write_behind.py:131-157 | once all is at rest every copy of a record that came in was acknowledged, is on file, or was being written when its worker was cancelled; unless all of its copies were, the record has a row or is on file |
| WriteBehind.GoneIffHit | db_write_behind.py:198-210 | at rest a record that came in is in neither the table nor the file if and only if every copy of it was being written by a worker that was cancelled, nothing that counts as it was in the table or acknowledged, and no write of such landed |
| WriteBehind.GoneWithoutReference | db_write_behind.py:198-210 | the same without the acknowledgements, which a record without a reference then cannot have |
| WriteBehind.HitAndGone | db_write_behind.py:198-210 | a worker cancelled in the middle of a write that never lands: the record is gone |
| WriteBehind.HitAndLanded | db_write_behind.py:198-210 | the same with a write that lands: the record has its row |
| WriteBehind.StoredIff | db_write_behind.py:159-196 | a record has a row exactly if it had one before, or one that counts as it was acknowledged or landed late |
| WriteBehind.Restarts | db_write_behind.py:169-196 | the file and the table that any run leaves, wherever it stops, are fit for the next start: no twins, and ids that name one record |
| WriteBehind.NextConserves | db_write_behind.py:99-210 | each step moves records between places and loses or doubles none |
| WriteBehind.ReadKeeps | db_write_behind.py:179-192 | reading a line of the overflow file moves it, malformed lines and lines without a write id included |
| WriteBehind.InsertSound | request_logs.py:335-384 | an insert adds its row or none, and makes no two rows with one reference or one write id |
| WriteBehind.InsertStores | request_logs.py:335-384 | after an insert the table has a row for the record, its own or the one that was in the way, and otherwise for what it had one for |
| WriteBehind.RowsWithoutReference | db_write_behind.py:109-206 | over every run: the rows a record without a reference gains are its acknowledged direct writes, its direct writes that landed late, and the rows of its lines, one for each line at most; lines, acknowledged direct writes and losses together are no more than its copies, and so are direct writes acknowledged or landed |
| WriteBehind.OneRowPerLine | db_write_behind.py:109-196 | however often a line is replayed, and whatever lands late, it makes one row at most, and no other row has its write id |
| WriteBehind.DoubledIff | db_write_behind.py:109-206 | a record without a reference that came in once gains two rows if and only if its direct write was given up on and landed, and the row of its line was inserted as well; never three |
| WriteBehind.LateTwice | db_write_behind.py:109-206 | a write that times out, lands, and is replayed from its line: one record came in, and two rows are there |
| WriteBehind.ReplayedOnce | db_write_behind.py:169-196 | a replay that times out and lands, and is replayed from the same line: one row |
| WriteBehind.WriteBehindQueue.Stop | db_write_behind.py:131-157 | stopping always comes to rest, by steps of the machine |
| WriteBehind.WriteBehindQueue.PutNowait | db_write_behind.py:99-117 | a record is queued, or spilled when the queue is full |
| WriteBehind.WriteBehindQueue.WorkerWrite | db_write_behind.py:159-206 | a record that is not acknowledged is spilled |
| WriteBehind.WriteBehindQueue.FinishReplaying | db_write_behind.py:169-196 | the replay ends, and what it could not write is back in the file |
| RequestLogs.FlatIsSorted | request_logs.py:482-545 | reading the months newest first, each sorted, is reading one sorted list of all matching rows |
| RequestLogs.RequestLogBackend.ListRequests | request_logs.py:482-562 | the page put together month by month is the page of that flat list, and the total is its length |
| RequestLogs.PagesTile | request_logs.py:496-562 | the pages that are served tile, without gap or repeat, the list of all matching rows, the newest first and then the greatest id; a page size is cut to 1 to 100, and a page before the first is the first |
| RequestLogs.OneOrder | request_logs.py:445-458 | rows can be ordered in one way only |
| RequestLogs.CollectNext | request_logs.py:513-545 | after each month the collected rows are those of the page, and what is left to skip is right |
| RequestLogs.CleanIsFilter | request_logs.py:657-705 | dropping whole months and deleting rows leaves exactly the rows at or after the cutoff, older raw fields cleared |
| RequestLogs.CleanLeaves | request_logs.py:670-697 | what is left is each row that is not older than the cutoff, with its raw fields unless it is older than the cutoff of those |
| RequestLogs.ExpiredIff | request_logs.py:176-181 | a month is dropped whole exactly if the cutoff is in a later one |
| RequestLogs.CleanKeeps | request_logs.py:657-705 | cleaning keeps every row in the database of its month, and ids, write ids and references unique |
| RequestLogs.WriteKeeps | request_logs.py:335-384 | a write goes to the database of its month, whatever its two digits are, and keeps ids, write ids and references unique there |
| RequestLogs.WriteAdds | request_logs.py:367-415 | a write adds its row under a new id, or nothing if a row of its month has the write id or the reference |
| RequestLogs.RequestLogBackend.WriteRecord | request_logs.py:367-415 | the database of the month is found or made, and takes the row |
| RequestLogs.RequestLogBackend.CleanupOldRecords | request_logs.py:657-705 | the rows left are exactly those the cutoffs leave |
| Pii.ResolveIsGreedy | pii_engine.py:45-55 | kept spans are candidates and disjoint, and every dropped candidate overlaps a kept one that is longer, or as long and not further right |
| Pii.AnalyzedLineUp | pii_engine.py:36-43 | by position, the spans end before the next begins, and stay within the text |
| Pii.EditsAreSimultaneous | pii_filter.py:158-167 | the in-place edits from right to left equal the replacement of all spans of the original text at once, all other text unchanged |
| Pii.SortOrders | pii_engine.py:43-50 | sorting orders the spans and keeps them all |
| Pii.HidesIffTail | pii_operators.py:26-29 | what an operator makes of a value depends only on what it keeps of it if and only if it replaces the value or keeps a tail |
| Pii.OperatorsAre | pii_operators.py:26-50 | what becomes of a phone number, an id card, a bank card, an address and anything else: all hidden if short, else so many first and last characters around the mask |
| Pii.FilterDecides | pii_filter.py:141-167 | a text with a blocking hit stays and reports its blocking entities; any other is edited, each hit by its operator unless it is to be replaced, and reports them all |
| Pii.FilterHides | pii_operators.py:20-50 | two texts in which the same spans are found, and which differ only in characters that the operators in use hide, come out the same |
| Pii.ResolveOverlaps | pii_engine.py:45-55 | the loop with its list of occupied ranges keeps exactly the greedy choice |
| Pii.Rewrite | pii_filter.py:158-167 | the rewritten text is the simultaneous replacement |
| Pii.ApplyPiiFilter | pii_filter.py:141-181 | every leaf becomes its filtered text, a blocking leaf stays, and blocking and the reported entities are those of all leaves |
| Sse.ParseOfPrint | converters/stream_events.py:459-502 | parsing the printed lines of normal blocks returns the same blocks |
| Sse.ParsePrintParse | converters/stream_events.py:459-502 | for any lines, parse, print and parse again gives the blocks of the first parse up to empty event names |
| Sse.FeedIsTame | converters/stream_events.py:473-489 | every block of the parser has content, a stripped name, data without leading spaces, and other lines that are no fields |
| Sse.NothingIsLost | converters/stream_events.py:459-489 | the blocks have the content of all data lines and all lines that are no fields, in order and none twice |
| Sse.BlankSplits | converters/stream_events.py:464-489 | a blank line ends a block, and so does the end of the input |
| Sse.EventSplits | converters/stream_events.py:473-477 | an event line after a data line, or after an event line with a name, begins a new block |
| Sse.IterSseBlocks | converters/stream_events.py:459-489 | the loop yields exactly the blocks of the parse |
| Sse.FormatPassthroughSseBlock | converters/stream_events.py:492-502 | other lines, then the name if there is one, then the data lines, then a blank line |

## Left out

- Requests, non-streaming responses, HTTP, SSE transport, routing and the admin pages: plumbing and field mapping.
- The Responses to Anthropic stream direction (`_response_stream_chunk_to_anthropic`): the other five directions show
  the same machinery.
- Identifiers and headers of the output: ids made from other ids, `created_at`, the `chatcmpl-` and `msg_` prefixes,
  the model name in Responses events. Chunks written from Responses events carry one fixed envelope.
- Item ids in Responses events: an argument delta is addressed by its output index only, so the second lookup of
  converters/to_chat.py:855, by item id, is not modelled.
- Usage of the Anthropic streams beyond input and output tokens (cache counters), and usage objects whose keys the
  converters do not read.
- `ping`, `citations_delta` and unknown events, `x_stop_sequence`: they produce nothing, or one extra field.
- The active-text fields of the session in the Anthropic to Responses direction: written there but never read.
- The sort of `output_items`: entries are appended in output-index order, which `LiveMirrors` proves for live streams.
- ThinkFilter.StreamFilter.Feed: the mode and the start tag of the source are one field here.
- The sticky and backup strategies of the balancer, with their hashing and logarithms.
- Dispatch: waiting inside an attempt for a send permit that is granted is not part of the sleep that is bounded; a
  permit that times out is charged to the budget. `remember_preferred` and the error texts are left out.
- Outcomes: session stickiness, the reload of limits from a file, and the balancer weight of an entry.
- WriteBehind: a queue that is used without an event loop or from a second one, failing file writes, and a write
  callback that discards its record while there is no backend (request_logs.py:779-785). Records come in without a
  write id of their own, and the table is that of one month.
- RequestLogs.RequestLogBackend.CleanupOldRecords: with a cutoff and a database named for a month 13 to 99 the source
  raises an exception (request_logs.py:176-181); the method asks for months whose end is a date.
- RequestLogs: rows whose timestamp is too short to name a month, databases that cannot be read, and the sums of the
  page summary.
- Pii: the regular expressions and validators; candidates are an input. The walk over the payload is an array of texts.
- Sse: how text is split into lines, and the flag of the parser that is never read.
- Rate limiter, context shaping, quota file, whitelist and configuration: they would only add easy members.
