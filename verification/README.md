# Portfolio chat route and typing effect, modelled in Dafny

This project models the core of a personal portfolio site. There are two parts.

**The chat route** (`POST /api/chat`). It prepends a system prompt to the browser's messages and then runs an *agentic loop* of at most five rounds. Each round does the following:

- It sends the history upstream and reads the streamed reply.
- It re-splits the reply into lines at every chunk, keeping the unfinished tail in a buffer.
- It relays content and server-tool output to the browser as `data:` frames.
- It accumulates streamed tool-call fragments into a sparse array indexed by `tc.index ?? 0`.

A round that ends with tool calls does four things and then asks again:

1. It announces the calls to the browser.
2. It records an assistant message carrying the calls in the history.
3. It answers every server-side call (`web_search`, `x_search`, `code_execution`) with the provider's output, or `"Search completed"` when there is none.
4. It executes every client-side call with `executeClientTool`, whose only tool is `scroll_to`, and answers it with the result.

A round without tool calls ends the loop. The browser then receives `data: [DONE]`, or an error frame if anything threw.

**The hero section's typing effect.** Every 120 ms tick, the displayed phrase does one of these: grows by a character, pauses for eight ticks once complete, shrinks by a character, or passes to the next of four phrases.

Modules:

- `Wrappers`: `Option`.
- `SseLines`: JavaScript's `split("\n")`, the line buffer, and the chunk-boundary property.
- `ToolCalls`: the tool-call slots, fragment merging, and the server/client partition.
- `ClientTools`: `executeClientTool`.
- `ChatRoute`: one line, one delta, one reply, dispatch of the tool calls, and the bounded loop.
- `HeroTyping`: the typing state machine.

The code that changes state step by step is written as methods with loops. Each loop is proved equal to a specification function, and the properties are proved about those functions. These methods are `AccumulateToolCalls`, `ApplyDelta`, `HandleLines`, `ReadStream`, `Dispatch`, `RunRound` and `Post`. The typing transition is a pure function of the previous state in the source, and it is a function here.

The network and `JSON.parse` are parameters:

- `upstream` gives the reply to a history: refused, a sequence of decoded chunks, or some chunks followed by a read that rejects.
- `parse` gives the delta an event payload stands for.
- `parseArgs` gives a tool call's arguments.
- `None` stands for a parse that throws.

## Model

| member | source | states |
|---|---|---|
| ClientTools.ExecuteClientTool | src/app/api/chat/route.ts:48-58 | a client action is returned exactly for `scroll_to`; it then succeeds with, and scrolls to, the section it was given; any other name fails with "Unknown tool" and asks nothing of the page; `scroll_to` with `null` arguments throws (no result) |
| SseLines.SplitJoin | src/app/api/chat/route.ts:179 | re-joining the pieces of `split("\n")` with newlines gives back the buffer |
| SseLines.SplitLines | src/app/api/chat/route.ts:179 | no piece of `split("\n")` contains a newline |
| SseLines.SplitUnlines | src/app/api/chat/route.ts:179 | splitting complete lines followed by a newline-free rest returns exactly those lines and that rest |
| SseLines.SplitBuffer | src/app/api/chat/route.ts:179-180 | the complete lines, each followed by "\n", plus the carried partial line are exactly the buffer; no line and no partial line holds a newline |
| SseLines.SplitBufferUnlines | src/app/api/chat/route.ts:179-180 | the line/partial split is determined uniquely by the text |
| SseLines.ChunkBoundary | src/app/api/chat/route.ts:176-180 | splitting `x + y` at once gives the lines of `x`, then the lines of `x`'s carried partial line plus `y`, and the same final partial line |
| ChatRoute.ReadStream | src/app/api/chat/route.ts:166-224 | the chunk-by-chunk read loop relays the same lines as splitting the whole reply once; the final buffer is the reply's unterminated tail; no text is lost between the lines and the buffer |
| ChatRoute.HandleLine | src/app/api/chat/route.ts:182-221 | a line that is not a `data: ` line, is `[DONE]` or fails to parse leaves the round unchanged; any change implies a parsed `data: ` payload other than `[DONE]` |
| ChatRoute.HandleLines | src/app/api/chat/route.ts:182-223 | the loop over one chunk's lines equals relaying those lines in order |
| ChatRoute.RelayLinesAppend | src/app/api/chat/route.ts:172-224 | relaying two batches of lines is relaying their concatenation |
| ChatRoute.ApplyDelta | src/app/api/chat/route.ts:191-218 | the body of the `try`, with both inner loops, computes the round's next state from one delta |
| ChatRoute.OutputEventsKind | src/app/api/chat/route.ts:211-217 | exactly the tool outputs with content are relayed, one `server_tool_output` frame each, in their order, each frame carrying its output's content |
| ChatRoute.WithContentSpec | src/app/api/chat/route.ts:213 | the outputs kept are outputs of the list with non-empty content, and every output with content is kept |
| ChatRoute.WithContentAppend | src/app/api/chat/route.ts:211-217 | keeping the outputs with content preserves their order (distributes over concatenation) |
| ChatRoute.OutputEventsRelayed | src/app/api/chat/route.ts:211-217 | the `server_tool_output` frames written for a `tool_outputs` list carry the contents of its outputs with content, in order |
| ChatRoute.HandleDeltaKeeps | src/app/api/chat/route.ts:191-218 | a delta appends its content to `fullContent`, merges its fragments into the slots, adds exactly its content to the text the browser is sent, and writes no `[DONE]` or error frame |
| ChatRoute.HandleDeltaFrames | src/app/api/chat/route.ts:192-218 | a delta replaces `toolOutputs` with its own list when it carries one and keeps it otherwise; it writes a `content` frame only for non-empty content, then one `server_tool_output` frame per output with content, and nothing else |
| ChatRoute.RelayLinesDeltas | src/app/api/chat/route.ts:182-222 | relaying lines is applying, in order, exactly the deltas carried by the parsed `data: ` lines |
| ChatRoute.ApplyDeltasSummary | src/app/api/chat/route.ts:187-218 | over a reply, `fullContent` is the content deltas in order, the slots are all fragments merged in order, and no terminal frame is written |
| ChatRoute.LastOutputsLatest | src/app/api/chat/route.ts:211-212 | the `toolOutputs` left after a run of deltas is the list of the latest delta that carried one, or the initial list when none did |
| ChatRoute.ApplyDeltasOutputs | src/app/api/chat/route.ts:187-218 | over a run of deltas, `toolOutputs` is the last list received, and the `server_tool_output` frames added carry the outputs with content of every list, in order |
| ChatRoute.StreamOutputs | src/app/api/chat/route.ts:166-224 | after a reply, `toolOutputs` is the last list among its deltas (empty if none), and the `server_tool_output` frames relayed carry exactly the outputs with content of all its lists, in order |
| ChatRoute.StreamContent | src/app/api/chat/route.ts:192-195 | a reply's `fullContent` is the in-order join of its content deltas; the `content` frames relayed to the browser carry exactly that text, in order; relaying writes no terminal frame |
| ChatRoute.StreamSlots | src/app/api/chat/route.ts:198-208 | after a reply, slot `i` exists iff some fragment addressed it; it holds the last non-empty id and name and the in-order concatenation of its argument fragments; `length` is one past the highest slot |
| ToolCalls.Merge | src/app/api/chat/route.ts:199-207 | one fragment creates its slot if missing (with the fragment's id), touches no other slot, and keeps `length` one past the highest index |
| ToolCalls.AccumulateToolCalls | src/app/api/chat/route.ts:199-207 | the in-place loop over `delta.tool_calls` equals merging the fragments in order |
| ToolCalls.MergeAllSlot | src/app/api/chat/route.ts:198-208 | from an empty array, slot `i` exists iff a fragment addressed it, and holds the last non-empty id and name and the concatenated arguments of its fragments |
| ToolCalls.MergeAllAppend | src/app/api/chat/route.ts:198-208 | merging the fragments of two deltas is merging them one delta after the other |
| ToolCalls.MergeAllValid | src/app/api/chat/route.ts:200-203 | merging keeps `length` one past the highest assigned index |
| ToolCalls.DenseSlots | src/app/api/chat/route.ts:227-231 | the listed calls are exactly the assigned slots, one entry per slot, in ascending index order (the order `filter` visits them); `toolCalls.length > 0` (counting holes) holds iff there is a call to list |
| ToolCalls.PartitionCalls | src/app/api/chat/route.ts:229-231 | every call lands in exactly one of the server and client lists, as many times as it occurs |
| ToolCalls.PartitionSides | src/app/api/chat/route.ts:229-231 | the server list holds only calls named `web_search`, `x_search` or `code_execution`; the client list holds only the others |
| ToolCalls.ServerCallsAppend | src/app/api/chat/route.ts:231 | the server filter keeps the calls' order (distributes over concatenation) |
| ToolCalls.ClientCallsAppend | src/app/api/chat/route.ts:230 | the client filter keeps the calls' order (distributes over concatenation) |
| ChatRoute.FindOutputFirst | src/app/api/chat/route.ts:249 | `find` returns the first output naming the call's id, and nothing only if no output names it |
| ChatRoute.ResultContent | src/app/api/chat/route.ts:249-250 | the answer to a server call is never empty: it is the found output's content, or "Search completed" when none is found or it is empty |
| ChatRoute.Summary | src/app/api/chat/route.ts:252 | the reported summary is the answer's first 200 characters when it is longer, the whole answer otherwise |
| ChatRoute.ServeAllThrown | src/app/api/chat/route.ts:245 | once an argument parse has thrown, no further server call is processed |
| ChatRoute.ExecuteAllThrown | src/app/api/chat/route.ts:264 | once an argument parse has thrown, no further client call is processed |
| ChatRoute.Dispatch | src/app/api/chat/route.ts:227-286 | the two loops over server and client calls compute the dispatch of the round, stopping at the first arguments that fail to parse |
| ChatRoute.ServeAllReports | src/app/api/chat/route.ts:244-259 | when the server loop gets through, it adds exactly two frames per call, in order: `tool_executing` with the parsed arguments, then `tool_result` with the `server_executed` summary of the call's result content |
| ChatRoute.ExecuteAllReports | src/app/api/chat/route.ts:262-282 | when the client loop gets through, it adds exactly two frames per call, in order: `tool_executing` with the parsed arguments, then `tool_result` with `executeClientTool`'s result and client action |
| ChatRoute.FirstUnparsed | src/app/api/chat/route.ts:244-245 | the position of the first server call whose arguments fail to parse (or the number of calls): every call before it parses |
| ChatRoute.FirstUnrun | src/app/api/chat/route.ts:262-271 | the position of the first client call that does not run (or the number of calls): every call before it runs |
| ChatRoute.ServeAllStopped | src/app/api/chat/route.ts:244-259 | when the server loop throws, it is at the first call whose arguments fail to parse, and the frames are exactly the reports of the calls before it: nothing is written for the failing call |
| ChatRoute.ExecuteAllStopped | src/app/api/chat/route.ts:262-282 | when the client loop throws, it is at the first call that does not run; the frames are the reports of the calls before it, then that call's `tool_executing` frame exactly when its arguments parsed |
| ChatRoute.ServeAllAnswers | src/app/api/chat/route.ts:244-259 | the server loop gets through exactly when every call's arguments parse; it then appends one tool message per call, in order, with the call's id and its result content, and reports each call with `tool_executing` and `tool_result` (the 200-character summary) |
| ChatRoute.ExecuteAllAnswers | src/app/api/chat/route.ts:262-282 | the client loop gets through exactly when every call's arguments parse and `executeClientTool` does not throw; it then appends one tool message per call, in order, with the call's id and the tool's result, and reports each call with `tool_executing` and `tool_result` (result and client action) |
| ChatRoute.DispatchHistory | src/app/api/chat/route.ts:234-282 | a round with tool calls announces all calls first; it gets through exactly when no argument parse or client tool throws; the history then grows by one assistant message carrying every call, then the server calls' answers (their result content), then the client calls' answers (the tools' results) |
| ChatRoute.DispatchReports | src/app/api/chat/route.ts:233-282 | when dispatch gets through, the frames are those so far, the `tool_calls_start` announcement, the two reports of every server call, then those of every client call, in order, and nothing else |
| ChatRoute.DispatchGoes | src/app/api/chat/route.ts:244-282 | dispatch gets through exactly when every server call's arguments parse and every client call runs |
| ChatRoute.DispatchFrames | src/app/api/chat/route.ts:233-282 | dispatch only adds frames and writes no `[DONE]` or error frame |
| ChatRoute.RunRound | src/app/api/chat/route.ts:136-289 | one iteration of the loop computes the round function, whose frames and handed-on history `RoundResult` states |
| ChatRoute.RoundResult | src/app/api/chat/route.ts:136-289 | a refused request fails with no new frame; otherwise the reply's frames follow the frames so far; a read that rejects fails right after them and an answer stops right after them; a reply with tool calls leaves exactly the frames of its dispatch, and goes on, iff dispatch gets through, with the history dispatch left |
| ChatRoute.RoundEnds | src/app/api/chat/route.ts:136-289 | a round ends the loop with an answer exactly when the reply streamed and had no tool calls (`break`); it goes again exactly when the reply had tool calls and dispatch did not throw (`continue`); it fails in every other case |
| ChatRoute.RoundKeeps | src/app/api/chat/route.ts:136-289 | a round keeps the frames and history so far, writes no terminal frame, and never stops by exhausting the limit |
| ChatRoute.Post | src/app/api/chat/route.ts:119-298 | a body without `messages` gets the error frame; otherwise the loop with its `break`, `continue` and the final frame computes the whole exchange |
| ChatRoute.RoundsRequests | src/app/api/chat/route.ts:133-137 | each round makes one request; the loop makes at least one and at most its fuel; when the limit ends the loop, all of them are made |
| ChatRoute.RoundsHistory | src/app/api/chat/route.ts:236-282 | the history only grows across rounds |
| ChatRoute.RoundsTrace | src/app/api/chat/route.ts:135-289 | the loop runs a trace of rounds, one request each, each handing its history and frames to the next and going again; it ends by the limit exactly when every round the fuel allows went again, otherwise as its last round stopped |
| ChatRoute.RoundsLast | src/app/api/chat/route.ts:135-297 | the exchange ends with the frames its last round leaves and then the final frame; its history is the one the last round sent, or the one it handed on when the limit ends the loop |
| ChatRoute.RoundsFrames | src/app/api/chat/route.ts:285-297 | the frames only grow, and exactly one final frame is written, last: the error frame iff the loop failed |
| ChatRoute.ChatFacts | src/app/api/chat/route.ts:119-298 | the browser sees exactly one final frame, at the end; a body without `messages` fails after no request; otherwise one `POST` makes 1 to 5 upstream requests (5 when the limit ends it), and its history starts with the system prompt followed by the browser's messages |
| ChatRoute.ChatStops | src/app/api/chat/route.ts:125-298 | the first round sends the initial history and every round but the last went again; the `POST` ends with `[DONE]` after an answer exactly when the last reply had no tool calls, by the limit exactly when five rounds all went again, and with the error frame otherwise |
| ChatRoute.ChatHandsOn | src/app/api/chat/route.ts:125-289 | the first request carries the system prompt and the browser's messages; every later request carries the history the previous round's dispatch left (assistant message and tool answers), after the frames that dispatch wrote |
| ChatRoute.ChatShows | src/app/api/chat/route.ts:187-297 | after an answer the browser sees the frames so far, the last reply's frames and `[DONE]`; when the limit ends the loop, the fifth dispatch's frames and `[DONE]`, with that dispatch's history; on failure, at least the last reply's frames and then the error frame |
| HeroTyping.Step | src/components/Hero.tsx:138-175 | the invariant is kept; typing adds one character and deleting removes one; the pause counts up only on a complete phrase; deletion starts only after the full pause; the phrase changes iff an emptied phrase is being deleted, to the next phrase afresh |
| HeroTyping.Steps | src/components/Hero.tsx:137-176 | any number of ticks stays on one of the four phrases |
| HeroTyping.StepsValid | src/components/Hero.tsx:138-175 | any number of ticks keeps the invariant |
| HeroTyping.Reachable | src/components/Hero.tsx:25-31 | every state reached from the initial state shows a prefix of the current phrase and keeps the pause counter within its bound |
| HeroTyping.TypingPhase | src/components/Hero.tsx:141-149 | while typing, `k` ticks show exactly `k` more characters of the phrase |
| HeroTyping.PausePhase | src/components/Hero.tsx:151-153 | on a complete phrase, `k` ticks of pause only advance the counter by `k` |
| HeroTyping.DeletingPhase | src/components/Hero.tsx:158-165 | while deleting, `k` ticks show exactly `k` fewer characters |
| HeroTyping.ToDeleting | src/components/Hero.tsx:141-156 | typing a phrase of length n, pausing and starting deletion take n + 8 + 1 ticks |
| HeroTyping.CycleLength | src/components/Hero.tsx:141-174 | a phrase of length n occupies exactly 2n + 10 ticks, after which the next phrase starts afresh |
| HeroTyping.CycleStaysOnPhrase | src/components/Hero.tsx:138-174 | before those 2n + 10 ticks are over, the effect stays on the same phrase |
| HeroTyping.PauseStays | src/components/Hero.tsx:151-153 | `j` ticks into the pause the whole phrase is shown with counter `j` |
| HeroTyping.DeletingStays | src/components/Hero.tsx:158-165 | during deletion the phrase does not change |
| HeroTyping.FullCycle | src/components/Hero.tsx:7-12 | the four phrases take 176 ticks in all, after which the effect is back at its initial state |

## Left out

- The network. `fetch` to the provider, its headers, model name, tools list and `process.env` are not modelled. The reply to a history is the parameter `upstream`. A refused response and a response without a body are both `Rejected`. A read that rejects mid-stream is `Broken`, with the chunks that arrived before it.
- `githubSearch` (route.ts:61-116) is never called by the route. It is not part of this model.
- `JSON.parse` and `JSON.stringify` are not modelled. Parsing an event payload and a tool call's arguments are the parameters `parse` and `parseArgs`, with `None` for a parse that throws. Arguments that parse to `null` are `NullArgs`: `scroll_to` then throws after its `tool_executing` frame, while a server call goes through. Other values without a `section` are arguments with no section.
- Byte encoding is not modelled. `TextDecoder`, `TextEncoder` and the `TransformStream` are left out. Chunks are already-decoded strings, and frames are `Event` values rather than encoded `data: ...\n\n` text. `TextDecoder.decode` is called without `{stream: true}`, so a multi-byte character split across two chunks becomes U+FFFD: "no text is lost" (`ChunkBoundary`, `ReadStream`) holds for the decoded text, not for the bytes.
- The system prompt text is the parameter `systemPrompt`. `console.error` logging is left out.
- `Post` does not model the concurrency of the fire-and-forget async block or the immediately returned `Response`. The model produces the whole transcript at once.
- The text after the last "\n" of a reply is never handled, as in the source. It stays in the buffer when the stream ends. `ReadStream` states that this tail is the final buffer.
- Deltas are well-shaped records. The `try` around a payload also covers its handling, so a payload that parses but then throws partway (a `tool_calls` value that is not iterable, a `null` entry in `tool_calls` or `tool_outputs`) keeps whatever was done before the throw: the content already appended and relayed, or `toolOutputs` already replaced, which then makes the later `find` throw into the error frame. Such a payload is not modelled: `parse` gives a whole delta or nothing.
- `tc.index` is a natural number or absent. A negative, fractional or very large index (2^32 − 1 or more) sets a property of the array rather than an element in JavaScript: it changes neither `length` nor what `filter` visits. The model has no such index.
- The request body is reduced to its `messages` field, present (a list of messages) or absent. `request.json()` throwing before the stream is opened, and a `messages` value that is not a list, are not modelled.
- Holes in the sparse `toolCalls` array are not modelled as elements. `JSON.stringify` would write them as `null`: upstream in the assistant message, and to the browser in the `tool_calls_start` names. The model lists only the assigned slots, in index order, as `filter` visits them.
- Tool arguments are modelled only as their `section` field, the only field the route reads. The `tool_executing` frames serialize the whole parsed arguments; in the model their arguments are abstracted to `section`. An absent `section` is `None`; a `section` that is not a string is not modelled.
- Only `tool_call_id` and `content` of a tool output are modelled. A missing or empty `content` is "".
- Of the hero section, only the typing effect is modelled. The particle canvas, mouse handlers, animation frames and markup are left out, as is the interval's 120 ms period: one tick is one call of the updater. The other components are not part of this model.
- HeroTyping.Step: requires a phrase index below four. The source reads `typingPhrases[prev.wordIndex]` without a check. Every reachable state meets the requirement (`Reachable`, `Steps`).
- ChatRoute.Summary: `substring(0, 200)` counts UTF-16 code units, while a Dafny `string` counts Unicode scalar values. An answer with characters outside the Basic Multilingual Plane gets a longer summary in the model, and the source can cut such a character in half.
