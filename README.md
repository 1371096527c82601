# Chat client stream handling and agent routing, in Dafny

This project models the two pieces of sequential logic in a browser chat application that sends
user messages to one of three language-model agents (weather, news, general):

- **The chat client** (`components/Chat.tsx`). When the server answers, `onResponse` reads the body
  chunk by chunk. Each decoded chunk is split on line feeds. Every line framed with `data: ` has its
  payload parsed, and a non-empty `content` is appended to a running `result`. After each such
  payload the message list is upserted: the last assistant message gets `result` as its content,
  or a new assistant message is appended. The same component guards submission (not while loading,
  not with a blank input), maps Enter without Shift to a submit, disables the Send button under the
  same guard, and caps the text area's height at 200 pixels.
- **The routing workflow** (`lib/agent/ma-test.ts`). A graph with four channels (`input`,
  `decision`, `output`, and `messages` with an append reducer). The router node asks a model for one
  step of the enum {general, weather, news} and writes it to `decision`. The conditional edge
  `routeDecision` picks the weather, news or general agent. The chosen agent's last message is
  written to `output`, and the run ends.

Files:

- `wrappers.dfy`: `Option` and `Result`.
- `chat_stream.dfy` (module `ChatStream`): the stream handler as functions over values: line
  splitting and its inverse, the `data: ` framing, the upsert, and folds over lines and chunks, with
  the lemmas about them.
- `chat_session.dfy` (module `ChatSession`): the message list as the source holds it, a list of
  message objects whose `content` is overwritten in place. `onResponse` is an imperative method with
  the reader loop and the line loop, proved against the functions of `ChatStream`. `[...prev]` is a
  shallow copy, so overwriting the last message also changes the object that the previous list
  holds. `SetMessagesUpsert` states this aliasing in its postcondition.
- `chat_input.dfy` (module `ChatInput`): `trim`, the submit and key handlers, the disabled
  predicate and the height clamp.
- `router_workflow.dfy` (module `RouterWorkflow`): the step enum and its validation, the state
  channels and reducer, the nodes, `routeDecision`, the graph built by the builder calls, its shape
  (acyclic, the router on every path), and one invocation.

Foreign calls are parameters:

- `decode: seq<bv8> -> string` stands for `new TextDecoder().decode(value)`. A fresh decoder is made
  for every chunk, so decoding is a function of the chunk alone.
- `parse: string -> Option<string>` stands for `JSON.parse(payload).content`. It gives None when the
  payload does not parse or has no content. The model itself skips an empty content, as the
  source's truthiness test does.
- `newId` stands for `Date.now().toString()`. `FeedChunksSpec` proves that a response appends at most
  one message, so one id per response is enough.
- `router: Option<string> -> string` is the router model's answer for the run's input.
  `agents: (NodeName, State) -> seq<AgentMessage>` is the messages an agent returns.

## Model

| member | source | states |
|---|---|---|
| `ChatStream.SplitLines` | components/Chat.tsx:37 | splitting gives one more line than there are line feeds, and no line contains a line feed |
| `ChatStream.JoinSplit` | components/Chat.tsx:37 | splitting loses nothing: joining the lines with line feeds gives the chunk back |
| `ChatStream.SplitJoin` | components/Chat.tsx:37 | lines without line feeds are exactly what splitting their join returns (the other direction of the round trip) |
| `ChatStream.IsDataLine` | components/Chat.tsx:40 | `line.startsWith('data: ')`; specified by `Payload` (the prefix plus the payload is the line) and `Accepted` (only such lines contribute) |
| `ChatStream.Payload` | components/Chat.tsx:40-42 | the payload is the line minus its 6-character `data: ` prefix; prefix plus payload is the line |
| `ChatStream.Accepted` | components/Chat.tsx:39-43 | a line contributes content if and only if it starts with `data: `, its payload parses, and the parsed content is non-empty; what it contributes is that content |
| `ChatStream.Upsert` | components/Chat.tsx:45-58 | afterwards the list ends with an assistant message whose content is `result`; if the last message was the assistant's, the length and id are kept and earlier messages are untouched; otherwise the old list is kept whole and one message with the new id is appended |
| `ChatStream.UpsertAbsorbs` | components/Chat.tsx:45-58 | a second upsert overwrites the first: only the latest `result` and the first id remain |
| `ChatStream.FeedLine` | components/Chat.tsx:40-65 | one line iteration; specified by `FeedLinesSpec` (a one-line list) and matched by `ChatSession.MessageList.ReadLine` |
| `ChatStream.FeedLines` | components/Chat.tsx:39-66 | the line loop of one chunk; specified by `FeedLinesSpec`, `FeedLinesEndsWithResult` and `FeedLinesAppend` |
| `ChatStream.AcceptedTextEmpty` | components/Chat.tsx:39-44 | the accepted text is empty if and only if no line is accepted (every accepted content is non-empty) |
| `ChatStream.FeedLinesSpec` | components/Chat.tsx:39-66 | over the lines of a chunk, `result` grows by exactly the accepted contents in order; lines that contribute nothing leave `result` and the list unchanged; otherwise the list is one upsert of the final `result` |
| `ChatStream.FeedLinesEndsWithResult` | components/Chat.tsx:43-58 | after any accepted payload the list is non-empty, ends with an assistant message whose content is the accumulated `result`, and the old `result` is a proper prefix of the new one |
| `ChatStream.FeedLinesAppend` | components/Chat.tsx:39-67 | processing the lines of `a` and then of `b` equals processing `a + b` |
| `ChatStream.FeedChunks` | components/Chat.tsx:32-67 | the reader loop over decoded chunks; specified by `FeedChunksIsFeedLines` and `FeedChunksSpec` |
| `ChatStream.FeedChunksIsFeedLines` | components/Chat.tsx:32-67 | reading chunks until `done` equals processing every chunk's own lines in order: no state but the fold state crosses a chunk boundary |
| `ChatStream.FeedChunksSpec` | components/Chat.tsx:31-67 | over a whole response, `result` starts empty and is the concatenation of every accepted content; the list is unchanged if nothing was accepted, else it is one upsert of the final result, so it grows by at most one message |
| `ChatStream.SplitDataLineIsLost` | components/Chat.tsx:36-42 | for any parser and any payload without a line feed whose parsed content is non-empty, the `data: ` line delivered as one chunk yields that content, but the same line cut after "da" into two chunks yields nothing |
| `ChatSession.DecodedAppend` | components/Chat.tsx:36 | a fresh decoder per chunk: decoding two runs of chunks one after the other gives the texts of each run, one after the other |
| `ChatSession.MessageList.SetMessagesUpsert` | components/Chat.tsx:45-58 | the new list is `Upsert` of the old one; when the last message was the assistant's, the same objects remain and the old list's last object now holds `result` (shallow-copy aliasing); otherwise the old objects are kept and one fresh object is appended |
| `ChatSession.MessageList.ReadLine` | components/Chat.tsx:40-65 | one line iteration equals the `FeedLine` step: a non-`data: ` line, a failed parse or an empty content change nothing; the old message objects stay in place as a prefix of the list |
| `ChatSession.MessageList.ReadLines` | components/Chat.tsx:37-67 | the line loop of one chunk leaves `result` and the list as `FeedLines` prescribes; the old message objects stay in place as a prefix of the list |
| `ChatSession.MessageList.OnResponse` | components/Chat.tsx:21-69 | a response that is not ok ends in `FailedToSend` and one without a reader ends in `NoReader`; neither changes the list, its objects or their contents; otherwise the loop reads until `done`, and the final `result` and list are those of `FeedChunks` from an empty `result`; on every path the old message objects stay in place as a prefix of the list |
| `ChatInput.TrimStart` | components/Chat.tsx:74 | removes exactly the leading JavaScript white space: a suffix that is empty or starts with a non-space, after a blank prefix |
| `ChatInput.Trim` | components/Chat.tsx:74 | `input.trim()` is empty if and only if every character of the input is white space; otherwise it starts and ends with a non-space |
| `ChatInput.TrimEnd` | components/Chat.tsx:74 | removes exactly the trailing JavaScript white space: a prefix that is empty or ends with a non-space, before a blank suffix |
| `ChatInput.HandleSubmit` | components/Chat.tsx:72-84 | always prevents the form default; submits if and only if not loading and the input has a non-space character |
| `ChatInput.HandleKeyDown` | components/Chat.tsx:94-101 | the default is prevented exactly for Enter without Shift; a submit happens exactly for Enter without Shift, when not loading and with a non-blank input |
| `ChatInput.SendDisabled` | components/Chat.tsx:185 | the button is disabled if and only if loading or the input is blank |
| `ChatInput.GuardsAgree` | components/Chat.tsx:74-185 | the button is disabled exactly when the form handler refuses; Enter submits exactly when it is Enter without Shift and the form handler would submit |
| `ChatInput.TextareaHeight` | components/Chat.tsx:86-92 | the height is the minimum of the scroll height and 200: at most 200, at most the scroll height, and equal to one of them |
| `RouterWorkflow.ParseStep` | lib/agent/ma-test.ts:23-25 | validation accepts exactly the three labels general, weather, news |
| `RouterWorkflow.StepLabelRoundTrip` | lib/agent/ma-test.ts:23-25 | labels and steps correspond one to one: a label validates to its step, and a validated text is that step's label |
| `RouterWorkflow.MessagesReducer` | lib/agent/ma-test.ts:41-44 | the reducer keeps the old messages as a prefix and appends the update after them |
| `RouterWorkflow.Apply` | lib/agent/ma-test.ts:37-45 | writing one update: last-value channels overwritten when written, `messages` through its reducer; specified by `ApplyAllMessages`, `RouterNode`/`AgentNode` (what each node writes) and `InvokeSpec` |
| `RouterWorkflow.ApplyAll` | lib/agent/ma-test.ts:37-45 | writing updates in order; specified by `ApplyAllMessages` and `ApplyAllAppend` |
| `RouterWorkflow.ApplyAllMessages` | lib/agent/ma-test.ts:41-44 | after any sequence of updates, `messages` is the old list followed by everything written, in order |
| `RouterWorkflow.ApplyAllAppend` | lib/agent/ma-test.ts:37-45 | writing updates `a` and then `b` equals writing `a + b`, so grouping does not matter |
| `RouterWorkflow.RouterNode` | lib/agent/ma-test.ts:109-123 | the router fails exactly on an answer outside the enum; otherwise it writes the answer to `decision` and no other channel |
| `RouterWorkflow.AgentNode` | lib/agent/ma-test.ts:57-107 | an agent node fails exactly when its agent returned no message; otherwise it writes the last message's content to `output` and no other channel |
| `RouterWorkflow.RouteDecision` | lib/agent/ma-test.ts:126-135 | "weather" goes to the weather agent and "news" to the news agent; anything else, unset included, goes to the general agent; the result is always a declared target |
| `RouterWorkflow.RouteDecisionAgrees` | lib/agent/ma-test.ts:122-135 | after the router writes a step's label, the conditional edge picks the agent meant for that step |
| `RouterWorkflow.Workflow` | lib/agent/ma-test.ts:138-152 | the built graph declares the four nodes, and its edges are exactly START to the router, the router to each agent, and each agent to END; every edge joins declared nodes |
| `RouterWorkflow.EdgeClimbs` | lib/agent/ma-test.ts:138-152 | every edge moves exactly one stage on (START, router, agents, END) |
| `RouterWorkflow.PathClimbs` | lib/agent/ma-test.ts:138-152 | along any path, the vertex `k` steps further on is exactly `k` stages higher |
| `RouterWorkflow.Acyclic` | lib/agent/ma-test.ts:138-152 | no vertex repeats on a path (no cycles), and no path has more than four vertices |
| `RouterWorkflow.StartToEnd` | lib/agent/ma-test.ts:138-152 | every path from START to END is START, the router, one declared agent, END, so no path skips the router |
| `RouterWorkflow.Invoke` | lib/agent/ma-test.ts:138-152 | a successful run is a path of the graph of four vertices from START to END that visits the router exactly once, and leaves `input` and `messages` as the caller passed them |
| `RouterWorkflow.InvokeSpec` | lib/agent/ma-test.ts:109-152 | every run is determined case by case: an answer outside the enum fails with `InvalidRoute`; a valid answer goes to the agent meant for its step, and the run fails with `NoAgentReply` for that agent exactly when it returns nothing; otherwise it visits START, the router, that agent, END, with `decision` the step's label and `output` the agent's last message, and nothing else written |
| `RouterWorkflow.NewsGoesToNewsAgent` | lib/agent/ma-test.ts:126-151 | when the router answers "news" and the news agent replies, the run succeeds, its agent is the news agent and `decision` is "news" |

## Left out

- Network and UI. The model leaves out the HTTP request, the asynchronous reader, `setTimeout`,
  the `console.error` log of a payload that fails to parse (`components/Chat.tsx:63-64`),
  scrolling, focus, markdown rendering and all markup (`components/Chat.tsx:59-61`, `76-81`,
  `103-193`). The text area's `disabled={isLoading}` flag and its CSS limits are also left out.
- The chat hook's own request handling (`useChat`, `submitMessage`). It is a foreign library. The
  model treats `setMessages` as applied at once and in order, with no other writer to the list while
  a response streams.
- `ChatStream.Accepted`: `parse` returns a string or nothing. A truthy non-string `content` (a
  number, an object) would be converted to text by `+=`, and the model does not cover that case.
- `ChatSession.MessageList.OnResponse`: the source keeps `result` local; the model returns it in
  `Streamed` so that its value can be stated.
- Text decoding, JSON parsing and `Date.now()`. These become the parameters `decode`, `parse` and
  `newId`. Because each chunk gets a fresh decoder, a multi-byte character cut by a chunk boundary
  is whatever `decode` makes of each half.
- The language model behind the router, and the agents (`ChatOpenAI`, `withStructuredOutput`,
  `createReactAgent`, the `MemorySaver` checkpointers, `thread_id`). These become the oracles
  `router` and `agents`. Conversation memory across runs is not modelled.
- The graph library's execution engine. `Invoke` is written for this one graph and checked against
  its edges; general graph execution and streaming are not modelled.
- `app/api/chat/route.ts`. It imports graphs that are not part of this model and reads fields
  (`outputs`, `combinedOutputs`) that this graph does not define. The aggregation step it implies is
  not modelled.
- The weather and news tools, sign-up, headers, voice input and output, personality text and agent
  setup. These are external API calls, UI or configuration.
