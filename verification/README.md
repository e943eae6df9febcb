# xrouter, modelled and proved

xrouter is a local router in front of several language-model providers. A client
speaks one protocol (OpenAI chat completions, OpenAI Responses, or Anthropic
messages) and names a model or a tier; the router picks a provider, translates
the request, and translates the streamed answer back. This project models three
parts of it in Dafny and proves what they keep.

**Streams.** `SseLines` cuts characters into lines, `StreamTranslator` and
`ResponsesStream` drive a translation from those lines, and `OpenAiToAnthropic`
and `AnthropicToOpenAi` are the two stateful payload translators. `Bracketing`
proves the events of every stream well formed, `LateEvents` says when nothing
follows message_stop, `OpenBlocks` which blocks a client is left with when the
stream ends, and `BlockIndices` that no index is skipped. `StreamMeaning` proves
what a stream translated to Anthropic and back says; `ToolMeaning` and `Heard` say
exactly when its tool calls, and its text and usage, survive; `AnthropicMeaning`
what a client of either protocol hears of a stream in the other. `Printed` and
`PrintedResponses` start from the lines on the wire. The line framing is the LF and
CRLF part of section 9.2.6 of the WHATWG HTML Living Standard.

**Routing.** `Health` is the circuit breaker with its cached counters and `Streaks`
what they count, `Keys` the key rotation with bans and dead keys and `KeyRuns` what
its runs leave, `Candidates` the trying order of a tier and `Degradation` when it
holds an entry back, `WeightedRobin` the smooth weighted selection, `Failover` the
walk over the candidates of one request and `Outcomes` what each answer does.

**Addresses, bodies and logs.** `Resolve` and `FreeMarkers` turn a model field
into a target, `Requests` and `ImageUrls` translate request bodies, `Readers`
reads them apart from the translators, `RoundTrip` and `OpenAiRoundTrip` say when a
body survives both translations, `Tracker` is the framed request log,
`DeviceStore` the rotating account store.

Each component that the source updates in place is a class whose methods are
proved to follow a specification function on values; the theorems are lemmas
about those functions, over all inputs, all runs, or all reachable states.
`Machine` holds the run of a step function, `Cyclic` the scan of a ring,
`Ordering` the sort-and-dedup of pairs, `Tiers`, `Strings`, `Json` and `Wrappers`
the shared vocabulary.

## How the source is read

- JSON, bincode and zstd are parameters: a parse function for streams, a codec
  with `decode(encode(x)) == x` as a hypothesis for the log. Output text is kept
  as a sequence of events or items rather than as serialised characters.
- Closing the open tool blocks iterates a hash map. The order is an arbitrary
  function from key sets to their enumerations, so every result holds for every
  iteration order. A stream closes its tool blocks at most once.
- Time is an argument in seconds, and the random factor on a cooling window is an
  argument in [0.9, 1.2). Each balancer method is one atomic step.
- The test `cooling / total > 0.7` is read as `10 * cooling > 7 * total`.
- A `Retry-After` is any number of seconds. In the source one so large that the
  deadline leaves the clock's range panics (crates/xrouter-balancer/src/lib.rs:238).
- The sum of weights wraps at 32 bits, the token total at 64 bits, and the frame
  length is cut to 32 bits, as in release builds.
- A network outcome, the choice of a device account and a provider's settings are
  inputs of each step of the failover walk.
- The `Balancer` structure is two classes, `KeyBalancer` and `TierBalancer`, that
  share one `HealthRegistry`.

## Where the code differs from what it says

- *One `message_stop`.* The payload translator guards it with `finished`, but the
  `[DONE]` branch of the wrapper (crates/xrouter-server/src/lib.rs:1246-1249) does
  not. A stream that sends a finish reason and then `[DONE]`, as OpenAI streams do,
  ends with two (`FinishThenDoneStopsTwice`). `ExactlyOneMessageStopIff` says when
  there is exactly one.
- *Open blocks.* That branch and the flush close no block either. A text followed by
  `[DONE]` alone leaves its block open (`TextThenDoneLeavesOpen`); the exact
  condition is `BlocksLeftOpenIff`.
- *A clean terminal event.* The flush promises one (lib.rs:1231), but its second
  branch tests for an Anthropic upstream with an Anthropic client, a pair that is
  never translated. An OpenAI client of an Anthropic stream cut short is never told
  it is done: `OpenAiClientToldDoneIff`, and `CutStreamIsNotTold` for one such stream.
- *Tool calls.* Arguments sent before the id or the name of their tool reach the
  client outside any block (`EarlyArgumentsStray`, exact condition in
  `ToolDeltasInsideIff`), and a name sent after the id is lost (`LateNameIsLost`).
  The tools survive exactly when they arrive named (`ToolsReadAlikeIff`): each is
  named by some fragment, no arguments come before it, what that fragment leaves
  out never comes, and tools are named in the order they are first mentioned.
- *Text and usage.* Reasoning sent in place of content becomes answer text
  (`ContentSurvivesIff`). The usage kept is the one beside the finish reason: a
  usage payload that follows it, as OpenAI streams send when asked for usage, is
  lost (`UsageAfterFinishIsLost`, exact condition in `UsageSurvivesIff`).
- *After the end.* Payloads after the finish reason still send blocks and deltas,
  behind message_stop (`LateTextFollowsStop`, exact condition in `StopIsLastIff`).
- *Total endpoints.* `total_counts` is called the number of distinct endpoints ever
  seen (crates/xrouter-balancer/src/lib.rs:61-63). `mark_success` counts an unknown
  endpoint without inserting it, so it is counted again by each further success and
  by its first failure. `RunCounts` gives the exact excess, and
  `EarlySuccessHidesDegradation` a provider whose every endpoint cools and which is
  not reported.
- *Probing.* A claimed probe is meant to keep others away for five seconds. A 429
  with a shorter `Retry-After` ends that at once (`ShortRetryUncoversProbe`);
  `UncoveredIff` lists everything that can end any cover.
- *Failed probes.* `mark_failure` cools a half-open endpoint for 30 seconds, but the
  walk claims the probe before it attempts, so that branch is not taken: a failed
  probe after a single failure cools for the probe's 5 seconds
  (`FailedVisitCools`, `FailedProbeSoonEligible`).
- *Retry-After.* The repository's README.md:68 has it respected. Two failures in the meantime replace
  it by the breaker's own, shorter window (`FailuresCutRetryShort`); `RetryHides`
  and `RetryHidesAtFirst` say how long it does hold.
- *Default entry first.* `candidates_ordered` says it prefers the default within each
  group, but the sort by weight comes after the rotation: `DefaultComesFirstIff`,
  and `HeavierEntryPrecedesDefault` for two healthy endpoints.
- *Free markers.* The comment lists the most specific marker first; the code tries
  `:free` first, and removes a marker anywhere in the id, not only at its end. One
  strip may leave a free id (`OneStripMayLeaveFree`, exact condition in
  `StripLeavesFreeIff`) and may cut an id that is not free
  (`StripReachesBeyondFree`).
- *Ban names.* `provider:key` is meant to keep one provider's bans from another's.
  Two providers can share a ban name exactly when one's name and a colon begin the
  other's (`BanNamesClashIff`), and then a run returns a banned key
  (`ClashFreesKey`).
- *Planned limits.* The same line and plan/04-load-balancing.md:52 name a cap of 6
  attempts, and line 37 of the plan a threshold of 2 failures in 5 seconds. The code
  has neither and is followed: `SevenAreTried`, `TwoFailuresStayHealthy`.
- *Equal weights.* plan/04-load-balancing.md:29 asks for smooth weighted round-robin
  with weights default 1. A tier whose weights are all 1 never rotates
  (crates/xrouter-balancer/src/lib.rs:394-396): its first candidate is picked every
  time (`AllOneNeverRotates`). Rounds are fair, and shares kept, exactly where some
  weight is not 1 or there is one entry (`FullRoundsAreFairIff`,
  `NeverAheadOfShareIff`).
- *Torn logs.* Reading tolerates a torn tail, and appending does not: what is
  flushed behind one can be swallowed by it (`FlushedEntryIsLost`,
  `TornFrameSwallows`). Behind whole frames nothing is lost
  (`ReadsOnAfterWholeFrames`).

## Model

| member | source | states |
|---|---|---|
| SseLines.SplittingLosesNothing | crates/xrouter-server/src/lib.rs:1168-1181 | lines and residue joined with newlines give the text back, and none of them holds a newline |
| SseLines.SplitIsUnique | crates/xrouter-server/src/lib.rs:1168-1181 | the split is the only one into newline-free pieces |
| SseLines.SplitContinues | crates/xrouter-server/src/lib.rs:1152-1181 | splitting a text then a chunk on the residue is splitting both together |
| SseLines.CrLfIsLf | crates/xrouter-server/src/lib.rs:1168-1181 | a line may end with CR LF as well as with LF |
| SseLines.LineBuffer.Push | crates/xrouter-server/src/lib.rs:1168-1181 | the draining loop returns exactly the terminated lines, CR removed, and keeps the residue |
| SseLines.LineBuffer.Flush | crates/xrouter-server/src/lib.rs:1183-1191 | a non-empty residue becomes the last line; the buffer is empty after |
| StreamTranslator.ChunksDoNotMatter | crates/xrouter-server/src/lib.rs:1218-1288 | for every cut of the characters into chunks, on every pair of protocols: same items, same final state as one push |
| StreamTranslator.WholeIsItsLines | crates/xrouter-server/src/lib.rs:1218-1241 | pushes and flush together process the lines of the whole text once each, then close |
| StreamTranslator.MessageStopsSent | crates/xrouter-server/src/lib.rs:1226-1256 | number of message_stop events of a whole stream: one per [DONE], one more if a finish reason precedes them or none comes; never zero |
| StreamTranslator.ExactlyOneMessageStopIff | crates/xrouter-server/src/lib.rs:1226-1256 | exactly one if and only if there is no [DONE], or one with no finish reason before it |
| StreamTranslator.FinishThenDoneStopsTwice | crates/xrouter-server/src/lib.rs:1246-1261 | any finish-reason line followed by a [DONE] line gives two |
| StreamTranslator.UndoneIsTheMachine | crates/xrouter-server/src/lib.rs:1243-1288 | without a [DONE] line the events the client gets are exactly the payload machine's, so its theorems carry over, and what else it gets is exactly the upstream's comment lines |
| StreamTranslator.OpenAiClientToldDoneIff | crates/xrouter-server/src/lib.rs:1226-1266 | an OpenAI client is sent [DONE] if and only if the Anthropic stream said message_stop or [DONE] |
| StreamTranslator.CutStreamIsNotTold | crates/xrouter-server/src/lib.rs:1226-1266 | an Anthropic stream cut after its first event: no [DONE] is sent |
| OpenBlocks.BlocksLeftOpenIff | crates/xrouter-server/src/lib.rs:1218-1261 | every whole stream, every hash order: the client is left with a started, unstopped block if and only if text comes after the last payload that closes its block, or a tool is not named up to a finish reason that precedes every [DONE] |
| OpenBlocks.TextThenDoneLeavesOpen | crates/xrouter-server/src/lib.rs:1246-1256 | a text line followed by a [DONE] line leaves the text block open |
| Printed.PrintedStreamIsTheMachine | crates/xrouter-server/src/lib.rs:1218-1288 | every Anthropic event sequence printed with its event names, however cut into chunks: an OpenAI client is sent exactly the payloads the machine makes of the events, nothing added at the end |
| Printed.PrintedOpenAiStream | crates/xrouter-server/src/lib.rs:1218-1288 | every sequence of OpenAI chunks printed as data lines, however cut: an Anthropic client gets exactly the machine's events, and one message_stop more if no finish reason came |
| Printed.SameSidesPassAll | crates/xrouter-server/src/lib.rs:1218-1288 | every text, however cut, between sides of one protocol: each line is sent on by itself, whatever came before, and an Anthropic client gets a [DONE] at the end |
| Printed.DataLineIsEvent | crates/xrouter-server/src/lib.rs:1262-1266 | a data line is the event whose name waits, and a content_block_delta where none does; the name is used up |
| Printed.EventLineWaits | crates/xrouter-server/src/lib.rs:1272-1275 | an event line leaves its trimmed name for the next data line |
| Printed.EventLineElsewhere | crates/xrouter-server/src/lib.rs:1272-1281 | event lines are sent on between sides of one protocol, and dropped on the way to an Anthropic client |
| Printed.CommentLineIsSent | crates/xrouter-server/src/lib.rs:1284-1287 | comment lines are sent on, on every pair of protocols |
| Printed.DataOfLine | crates/xrouter-server/src/lib.rs:1243-1245 | the text behind the prefix is the data of the line |
| Printed.NamesByText | crates/xrouter-server/src/translate.rs:425-497 | the five event names the translator tells apart, literally |
| StreamTranslator.Translator.PushChunk | crates/xrouter-server/src/lib.rs:1218-1224 | the mutable wrapper's push follows the specification, state and output |
| StreamTranslator.Translator.ProcessLine | crates/xrouter-server/src/lib.rs:1243-1288 | one line, every branch: data, event names, comments, all protocol pairs |
| StreamTranslator.Translator.FlushRest | crates/xrouter-server/src/lib.rs:1226-1241 | the residue is processed as a line, then the terminal event is added where the code adds one |
| OpenAiToAnthropic.Stream.Translate | crates/xrouter-server/src/translate.rs:278-422 | the mutable translator follows the step specification on every payload |
| OpenAiToAnthropic.Stream.TranslateFragment | crates/xrouter-server/src/translate.rs:364-388 | one tool fragment: block lookup, id and name merge, block start, arguments |
| OpenAiToAnthropic.Stream.CloseBlocks | crates/xrouter-server/src/translate.rs:394-404 | text block first, then every started tool block in hash order |
| BlockIndices.IndicesAreDense | crates/xrouter-server/src/translate.rs:332-388 | every payload sequence: every index below the next free one is that of a started text block or of a tool |
| BlockIndices.NoIndexIsZero | crates/xrouter-server/src/translate.rs:364-366 | a tool fragment without an index speaks of tool 0 |
| Bracketing.StreamIsWellBracketed | crates/xrouter-server/src/translate.rs:278-422 | every payload sequence, every hash order: indices started once and below the next free one, text deltas inside an open text block, stops only after starts and once, message events at most once and in order, finished exactly when message_stop was sent |
| LateEvents.StopIsLastIff | crates/xrouter-server/src/translate.rs:278-422 | every payload sequence, every hash order: nothing follows message_stop if and only if the payloads after the ending carry no text, no tool arguments, no newly named tool and no first chunk |
| LateEvents.LateTextFollowsStop | crates/xrouter-server/src/translate.rs:332-353 | a text after the finish reason is sent behind message_stop |
| Bracketing.FinishingClosesEveryBlock | crates/xrouter-server/src/translate.rs:391-419 | after the payload that finishes the stream every started block has its stop |
| Bracketing.ToolDeltasInsideIff | crates/xrouter-server/src/translate.rs:356-419 | tool arguments stay inside their open block if and only if none precede the id or name of their tool and none follow the ending for a tool it closed |
| Bracketing.EarlyArgumentsStray | crates/xrouter-server/src/translate.rs:364-388 | arguments before any name are sent outside any block |
| Bracketing.WatchedIsWellBracketed | crates/xrouter-server/src/translate.rs:278-422 | the event-by-event monitor the machine is kept in step with implies the positional definition |
| AnthropicToOpenAi.Stream.Translate | crates/xrouter-server/src/translate.rs:424-498 | the mutable translator follows the step specification on every event |
| AnthropicMeaning.ClientHearsStream | crates/xrouter-server/src/translate.rs:424-498 | every sequence of events, with fields missing or not: an OpenAI client reads the text, the tools with their arguments, the first stop reason as its literal finish reason with the usage beside it, and the end |
| AnthropicMeaning.ClientHearsHead | crates/xrouter-server/src/translate.rs:426-436 | a message_start gives the client the id, role and model, with the literal defaults |
| AnthropicMeaning.FinishReasonSent | crates/xrouter-server/src/translate.rs:474-489 | tool_calls exactly for tool_use, length exactly for max_tokens, stop for every other stop reason and for none |
| AnthropicMeaning.AnthropicClientHears | crates/xrouter-server/src/translate.rs:278-422 | every OpenAI stream: an Anthropic client hears the text taken, each tool from its first named fragment on, and the end |
| AnthropicMeaning.StreamInForm | crates/xrouter-server/src/translate.rs:424-498 | every chunk sent carries the fixed id and at most one tool fragment, a tool's first one with empty arguments |
| AnthropicMeaning.DoneIsSentOnce | crates/xrouter-server/src/translate.rs:490-495 | the machine says [DONE] once if message_stop comes at all, however often |
| StreamMeaning.TranslationKeepsMeaning | crates/xrouter-server/src/translate.rs:278-498 | all streams, through both translators: same head, the text the first translator takes (content, or reasoning in its place), same tools from their first named fragment on with their arguments, first finish reason with the usage beside it, same end |
| Heard.ContentSurvivesIff | crates/xrouter-server/src/translate.rs:328-353 | every stream, read apart from the translator: the answer text is the same if and only if no chunk has reasoning in place of content, and no reasoning is heard as such |
| Heard.UsageSurvivesIff | crates/xrouter-server/src/translate.rs:391-419 | every stream: the usage heard is that of the finish reason that ends the message, so the last usage reported survives if and only if it is that one or there is none |
| Heard.UsageAfterFinishIsLost | crates/xrouter-server/src/translate.rs:299-305 | a usage payload without choices after the finish reason is lost |
| ToolMeaning.ToolsReadAlikeIff | crates/xrouter-server/src/translate.rs:364-388 | every fragment sequence: tools read from their first named fragment on, as the translation does, are the tools a client reads if and only if each mentioned tool arrives named (named at all, no earlier arguments, no later id or name that the naming fragment lacks) and tools are named in order of first mention |
| ToolMeaning.NamedStreamsKeepMeaning | crates/xrouter-server/src/translate.rs:278-498 | where tools arrive named, a client of the result reads what a client of the original reads, tools renumbered by first appearance; where the original tool ids are distinct, nowhere else |
| ToolMeaning.NamedAtFirstArrive | crates/xrouter-server/src/translate.rs:364-388 | tools whose first fragment carries id and name arrive named |
| ToolMeaning.EqualToolsMaySwap | crates/xrouter-server/src/translate.rs:364-388 | without distinct ids two equal tools can change places and the stream still reads alike |
| StreamMeaning.FinishReasonKeptIff | crates/xrouter-server/src/translate.rs:405-409 | the reason itself comes back if and only if it is tool_calls, length or stop |
| Heard.StopReasonSent | crates/xrouter-server/src/translate.rs:391-419 | every stream: if a finish reason ends the message exactly one message_delta is sent, with tool_use exactly for tool_calls, max_tokens exactly for length, end_turn for every other reason, and the usage beside it; otherwise none |
| ToolMeaning.LateNameIsLost | crates/xrouter-server/src/translate.rs:366-381 | a stream whose tool does not arrive named, and the name it loses |
| ResponsesStream.ChunksDoNotMatter | crates/xrouter-server/src/lib.rs:1320-1365 | any cut into at least one chunk gives the events and state of one push |
| ResponsesStream.WholeIgnoresChunks | crates/xrouter-server/src/lib.rs:1306-1395 | the same for a whole run with its flush |
| ResponsesStream.WholeRun | crates/xrouter-server/src/lib.rs:1306-1395 | created, then non-empty deltas, then completed, whose text is the deltas' text and the content of every terminated line |
| ResponsesStream.WholeUsage | crates/xrouter-server/src/lib.rs:1353-1360 | the counts are the last positive ones of any line, terminated or not; the total is their sum, less 2^64 where that overflows |
| PrintedResponses.PrintedText | crates/xrouter-server/src/lib.rs:1320-1349 | every sequence of payloads printed as data lines, however cut: the completed text is their contents in order |
| PrintedResponses.PrintedUsage | crates/xrouter-server/src/lib.rs:1350-1357 | the last usage reported is completed with, prompt_tokens and completion_tokens as input and output, or input_tokens and output_tokens where those are absent |
| PrintedResponses.UnreportedUsage | crates/xrouter-server/src/lib.rs:1350-1357 | where none is reported the counts are zero |
| ResponsesStream.Translator.PushChunk | crates/xrouter-server/src/lib.rs:1320-1365 | the mutable translator's push follows the specification |
| ResponsesStream.Translator.FlushRest | crates/xrouter-server/src/lib.rs:1367-1394 | the residue is read for its usage alone; completed is sent once |
| Health.RunCounts | crates/xrouter-balancer/src/lib.rs:68-185 | in every run the cooling counter is the number of endpoints in state Cooling and the total is the known endpoints plus the successes on unknown ones |
| Health.DegradedAgainstScan | crates/xrouter-balancer/src/lib.rs:225-230 | in every run the constant-time test against the full scan it replaced: exact formula, never a false report, agreement when no success came too early |
| Health.EarlySuccessHidesDegradation | crates/xrouter-balancer/src/lib.rs:88-143 | one early success, and a provider all of whose endpoints cool is not reported |
| Health.BreakerInvariant | crates/xrouter-balancer/src/lib.rs:100-245 | in every run Healthy has fewer than 3 failures in a row, Cooling and HalfOpen at least 1 |
| Streaks.CountsAreStreaks | crates/xrouter-balancer/src/lib.rs:131-171 | every run: a known endpoint's count is its failures in a row (a success makes it 0, a numeric Retry-After 1), and it is out of health exactly when a third one or a Retry-After came after its last success |
| Streaks.SuccessClears | crates/xrouter-balancer/src/lib.rs:131-143 | after any run a success leaves a known endpoint healthy with count 0 |
| Streaks.UnhealthyIff | crates/xrouter-balancer/src/lib.rs:131-171 | with no Retry-After since its last success an endpoint is Cooling or HalfOpen if and only if it failed three times since |
| Streaks.SuccessResetsCount | crates/xrouter-balancer/src/lib.rs:131-171 | two failures, a success and a failure: still eligible |
| Streaks.StreakSetsWindow | crates/xrouter-balancer/src/lib.rs:145-171 | the n-th failure in a row of any run sets the n-th window |
| Streaks.WindowDoubles | crates/xrouter-balancer/src/lib.rs:153-165 | 30, 60, 120 and 240 seconds times the random factor for the third to sixth failure, 300 from the seventh; 30 from half-open |
| Streaks.DeadIffLeft | crates/xrouter-balancer/src/lib.rs:187-193 | in the registry too a key is dead exactly when the last word on it was so |
| Streaks.ProviderOfId | crates/xrouter-core/src/lib.rs:46-61 | an endpoint's provider is what stands before the first colon |
| Health.FailureOpensBreaker | crates/xrouter-balancer/src/lib.rs:145-171 | from every reachable state a failure opens the breaker at the third in a row or from half-open, for 27 to 300 seconds, and otherwise leaves the state |
| Health.WindowBounds | crates/xrouter-balancer/src/lib.rs:153-165 | every cooling window lies in [27, 300] seconds, below 36 from half-open |
| Health.UncoveredIff | crates/xrouter-balancer/src/lib.rs:100-245 | whatever the deadline, an operation before it uncovers a hidden endpoint if and only if it is its success, a Retry-After ending sooner, or a third failure in a row whose own window ends sooner |
| Health.HiddenThroughoutIff | crates/xrouter-balancer/src/lib.rs:100-245 | through any run before the deadline an endpoint is hidden at every step if and only if no operation of the run uncovers it |
| Health.RetryHides | crates/xrouter-balancer/src/lib.rs:233-245 | a Retry-After hides its endpoint for its whole length through any run in which nothing uncovers it |
| Health.RetryHidesAtFirst | crates/xrouter-balancer/src/lib.rs:145-171 | and for its first 27 seconds whatever fails |
| Health.FailuresCutRetryShort | crates/xrouter-balancer/src/lib.rs:145-171 | a run in which two failures end an hour's Retry-After before second 40 |
| Health.TwoFailuresStayHealthy | crates/xrouter-balancer/src/lib.rs:145-171 | two failures at any times leave a new endpoint eligible |
| Health.ProbeHides | crates/xrouter-balancer/src/lib.rs:173-185 | a claimed probe hides the endpoint from every read for five seconds, through any run without its success or a sooner Retry-After |
| Health.ShortRetryUncoversProbe | crates/xrouter-balancer/src/lib.rs:233-245 | a run of failures, a read, a probe and a Retry-After of zero, after which the endpoint is eligible at once |
| Health.NoEndpointIsStuck | crates/xrouter-balancer/src/lib.rs:94-125 | after any run a read finds an endpoint ineligible only inside its window, and every window ends within 300 seconds or the longest Retry-After |
| Health.BatchReadsEach | crates/xrouter-balancer/src/lib.rs:199-208 | the batch read reports for each endpoint what its own read would, and touches no other |
| Health.HealthRegistry.Failed | crates/xrouter-balancer/src/lib.rs:145-171 | the in-place transition, counters included, follows the specification |
| Health.HealthRegistry.RetryLater | crates/xrouter-balancer/src/lib.rs:233-245 | the in-place Retry-After transition follows the specification; an unreadable header changes nothing |
| Health.HealthRegistry.ReadState | crates/xrouter-balancer/src/lib.rs:100-118 | a read turns an expired window half-open and lowers the counter |
| Keys.NextKeyIsFirstUsable | crates/xrouter-balancer/src/lib.rs:313-340 | the first usable key cyclically from the cursor, which moves just past it; None exactly when no key is usable, and then nothing moves |
| Keys.RotationIsFair | crates/xrouter-balancer/src/lib.rs:313-340 | while the usable slots stay the same m, any m calls in a row return each once |
| Keys.DeadKeyNeverReturned | crates/xrouter-balancer/src/lib.rs:187-193 | over runs of all operations, a dead key is returned by no provider until cleared |
| Keys.BannedKeyNotReturned | crates/xrouter-balancer/src/lib.rs:286-340 | over runs of all operations, a banned key is not returned by its provider before its latest ban expires, unless a provider whose name clashes is banned in between |
| Keys.ExpiryIsUnobservable | crates/xrouter-balancer/src/lib.rs:292-307 | every call returns what it would had no expired ban ever been dropped |
| Keys.BanNamesClashIff | crates/xrouter-balancer/src/lib.rs:284-290 | two providers can share a ban name if and only if one's name and a colon begin the other's |
| Keys.ClashFreesKey | crates/xrouter-balancer/src/lib.rs:284-340 | for every such pair a run from the empty state returns a key banned for longer |
| Keys.SharedName | crates/xrouter-balancer/src/lib.rs:284-290 | exactly which two bans share a name |
| KeyRuns.UpdatedKeysInOrder | crates/xrouter-balancer/src/lib.rs:309-340 | after an update with keys nothing stands against, calls return them in the order given, from the first |
| KeyRuns.DeadIffLeft | crates/xrouter-balancer/src/lib.rs:187-193 | every run: a key is dead if and only if the last word on it was so |
| KeyRuns.BannedIffLasting | crates/xrouter-balancer/src/lib.rs:286-307 | every run: a key is banned if and only if the latest ban under its name has not ended |
| KeyRuns.NextKeyDropsItsBan | crates/xrouter-balancer/src/lib.rs:292-340 | a call drops the ended ban of the key it returns and no other |
| Keys.KeyBalancer.TakeKey | crates/xrouter-balancer/src/lib.rs:313-340 | the scanning loop over the mutable ring follows the specification |
| Keys.KeyBalancer.IsKeyBanned | crates/xrouter-balancer/src/lib.rs:292-307 | banned exactly until the expiry; an expired ban is dropped |
| Candidates.OrderedIsTryingOrder | crates/xrouter-balancer/src/lib.rs:347-384 | every entry once; healthy, then degraded, then cooling; the first two by descending weight, equal weights cyclically from the default; cooling in declared order |
| Candidates.DefaultComesFirstIff | crates/xrouter-balancer/src/lib.rs:372-382 | the default is first if and only if no entry is in a better group, outweighs it in its own, or (cooling) is declared before it |
| Candidates.HeavierEntryPrecedesDefault | crates/xrouter-balancer/src/lib.rs:372-382 | two endpoints nothing is known of, the default the lighter: it is second |
| Candidates.CoolingGoLast | crates/xrouter-balancer/src/lib.rs:350-371 | an entry is in the last group if and only if its own health read fails it |
| Degradation.GroupIff | crates/xrouter-balancer/src/lib.rs:347-371 | every run, tier and entry: held back as degraded if and only if the tier is strict, its own read is eligible, and more than 70% of its provider's known endpoints and miscounted successes cool after the reads; last if and only if its own read fails it |
| Degradation.NoneDegradedUnlessStrict | crates/xrouter-balancer/src/lib.rs:354-366 | a tier that is not strict holds no entry back |
| Degradation.DegradedDefaultGoesSecond | crates/xrouter-balancer/src/lib.rs:354-384 | a run after which a strict tier tries its healthy default second, and a lenient one tries it first |
| Candidates.OrderCandidates | crates/xrouter-balancer/src/lib.rs:347-384 | classification, rotation and sort on mutable lists give that order and the registry after the reads |
| WeightedRobin.ChooseKeepsBalance | crates/xrouter-balancer/src/lib.rs:408-418 | in any candidate order weights keep summing to 0 and staying above minus the total; all grow by their own weight and the chosen one pays the total |
| WeightedRobin.NeverAheadOfShareIff | crates/xrouter-balancer/src/lib.rs:391-419 | every run of any length keeps each entry less than a full pick ahead of its share if and only if the weights are not all 1 or there is one entry |
| WeightedRobin.FullRoundsAreFairIff | crates/xrouter-balancer/src/lib.rs:391-419 | from a fresh state every run of whole rounds, in any candidate orders, picks each entry exactly its weight per round if and only if the weights are not all 1 or there is at most one entry |
| WeightedRobin.FullRoundsAreFair | crates/xrouter-balancer/src/lib.rs:397-418 | weights not all 1: fair as above, and every current weight is back at 0 |
| WeightedRobin.AllOneNeverRotates | crates/xrouter-balancer/src/lib.rs:394-396 | weights all 1 and a steady order: the first candidate every time, every other never |
| WeightedRobin.FirstOfTheBestIsChosen | crates/xrouter-balancer/src/lib.rs:408-418 | the chosen entry has the highest raised weight, and is the first that has |
| WeightedRobin.WeightsKeepTheirSumIff | crates/xrouter-balancer/src/lib.rs:397-418 | one selection raises the sum of the weights by what the 32-bit total wraps off, so keeps it if and only if the weights sum to less than 2^32 |
| WeightedRobin.ChangedTierStartsFresh | crates/xrouter-balancer/src/lib.rs:397-407 | a tier of changed size starts from zero weights, an unchanged one goes on |
| WeightedRobin.OtherTiersKeepState | crates/xrouter-balancer/src/lib.rs:397-418 | every run of one tier leaves the state of every other alone |
| WeightedRobin.CandidatesPermute | crates/xrouter-balancer/src/lib.rs:347-384 | whatever the health state, the candidates are a permutation of the tier, as the fairness theorem needs |
| WeightedRobin.TierBalancer.PickWeighted | crates/xrouter-balancer/src/lib.rs:391-419 | the in-place selection, reset on a changed count, follows the specification |
| Failover.Walk | crates/xrouter-server/src/lib.rs:827-1119 | candidates in order, each at most once; serves from the first that is attempted and answers 2xx and touches none after; exhaustion only when every one was skipped or failed, despite the attempt cap, with the last error's status |
| Failover.Route | crates/xrouter-server/src/lib.rs:788-1119 | the same for a whole request, over the tier's own candidates in trying order |
| Failover.VisitCandidate | crates/xrouter-server/src/lib.rs:836-885 | skips for missing or disabled providers, no account, no key; otherwise one attempt |
| Failover.AttemptCandidate | crates/xrouter-server/src/lib.rs:904-1107 | the balancer after each outcome: success, timeout, 401/403, 429 with ban and Retry-After, 5xx and 408, others |
| Failover.DirectHasOneCandidate | crates/xrouter-server/src/lib.rs:788-800 | a direct address has exactly its endpoint as candidate, in every health state |
| Failover.OthersKeepTheirHealth | crates/xrouter-server/src/lib.rs:836-1107 | a walk changes the health of no endpoint outside its candidates |
| Failover.RefusedKeyNotReused | crates/xrouter-server/src/lib.rs:1037-1042 | a key refused with 401 or 403 is not used again in the same walk |
| Failover.BannedKeyNotReused | crates/xrouter-server/src/lib.rs:1061-1069 | a key refused with 429 is not used again for its provider in the same walk until its ban runs out, whatever visits come between |
| Failover.ServedIff | crates/xrouter-server/src/lib.rs:963-964 | a visit is served if and only if it was attempted and answered with a 2xx |
| Failover.FailedVisitCools | crates/xrouter-server/src/lib.rs:904-909 | from every state, what a failed visit leaves: 27 to 300 seconds from the third failure on, the probe's 5 seconds for a half-open endpoint with fewer, no change otherwise |
| Failover.FailedProbeSoonEligible | crates/xrouter-server/src/lib.rs:904-909 | a Retry-After, a read past its end and a failed visit: eligible again after 5 seconds |
| Outcomes.SuccessHeals | crates/xrouter-server/src/lib.rs:963-964 | any status from 200 to 299 leaves a known endpoint healthy with count 0 and serves |
| Outcomes.TroubleCounts | crates/xrouter-server/src/lib.rs:904-1107 | an unreachable or silent upstream, 408, and 500 and above count one failure and touch no key |
| Outcomes.RefusalCountsNothing | crates/xrouter-server/src/lib.rs:1020-1107 | every other refusal leaves health as the probe left it, and the keys as they were |
| Outcomes.RefusedKeyDies | crates/xrouter-server/src/lib.rs:1037-1042 | 401 and 403 make exactly the key used dead and do not blame the endpoint |
| Outcomes.QuotaCools | crates/xrouter-server/src/lib.rs:1061-1086 | 429 bans the key for the configured time; a Retry-After in seconds hides the endpoint exactly that long, one that is no number does nothing, none counts a failure |
| Outcomes.LastAttemptAnswers | crates/xrouter-server/src/lib.rs:1107-1119 | a failed walk that ends with an attempt by key answers 504 after a timeout or 504, 429 after 429, 401 after 401 or 403, 503 after anything else |
| Outcomes.NoKeyAnswers | crates/xrouter-server/src/lib.rs:836-885 | a last visit that finds no key or account is answered with 401 |
| Outcomes.NothingUsableAnswers | crates/xrouter-server/src/lib.rs:836-885 | a walk past missing and disabled providers only attempts nothing, changes nothing and is answered with 503 |
| Outcomes.RefusedTokenAnswers | crates/xrouter-server/src/lib.rs:1020-1060 | a refused device token leaves the answer to the visits before it |
| Failover.AllFailingAreTried | crates/xrouter-server/src/lib.rs:827-836 | when every candidate fails every candidate is attempted, however many |
| Failover.SevenAreTried | crates/xrouter-server/src/lib.rs:827-836 | seven unreachable candidates are all attempted |
| DeviceStore.StepKeepsUniqueKeys | crates/xrouter-auth/src/lib.rs:230-281 | each operation keeps (provider, account) unique and says exactly which accounts remain |
| DeviceStore.KeysStayUnique | crates/xrouter-auth/src/lib.rs:230-281 | unique after every run from an empty store |
| DeviceStore.CountIsHeld | crates/xrouter-auth/src/lib.rs:255-260 | count_for is the number of the provider's accounts |
| DeviceStore.AddKeepsPlaces | crates/xrouter-auth/src/lib.rs:230-240 | an addition leaves every other account in its place, and puts a new one last |
| DeviceStore.RetainInOrder | crates/xrouter-auth/src/lib.rs:242-252 | a removal leaves the others in their order |
| DeviceStore.PicksCycle | crates/xrouter-auth/src/lib.rs:265-281 | the k-th pick from any stored cursor is the k-th account cyclically |
| DeviceStore.FullCycleVisitsAll | crates/xrouter-wizard/src/main.rs:682-683 | as many calls as accounts return each account once, so the retry loop tries them all |
| DeviceStore.Accounts.AddAccount | crates/xrouter-auth/src/lib.rs:230-240 | replaces in place the account with the same key, else appends |
| DeviceStore.Accounts.TakeNext | crates/xrouter-auth/src/lib.rs:265-281 | the in-place rotation follows the specification |
| Tracker.ReadsBackEverything | crates/xrouter-server/src/track.rs:138-244 | after any records and flushes everything recorded is read back in order, with fewer than 100 entries in memory |
| Tracker.TornLogReadsPrefix | crates/xrouter-server/src/track.rs:210-244 | the file of any run, cut at any byte, reads as the entries of its complete frames, a prefix of what was recorded |
| Tracker.TailContinues | crates/xrouter-server/src/track.rs:210-244 | the torn tail of any file is read together with what is appended to it |
| Tracker.TailOfCut | crates/xrouter-server/src/track.rs:210-244 | a cut leaves a tail exactly of the bytes behind the last whole frame |
| Tracker.ReadsOnAfterWholeFrames | crates/xrouter-server/src/track.rs:138-244 | a log cut at the end of a frame: everything recorded afterwards is read back behind the frames left |
| Tracker.TornFrameSwallows | crates/xrouter-server/src/track.rs:151-244 | a log cut inside a frame: while less is appended than the frame lacks, none of it is read |
| Tracker.FlushedEntryIsLost | crates/xrouter-server/src/track.rs:151-244 | a flushed entry is lost behind the length of a longer batch |
| Tracker.CutFileReadsCompleteFrames | crates/xrouter-server/src/track.rs:210-244 | the same for any list of batches |
| Tracker.LittleEndianRoundTrip | crates/xrouter-server/src/track.rs:170-173 | the four length bytes read back as the length |
| Tracker.DisabledKeepsNothing | crates/xrouter-server/src/track.rs:138-149 | a disabled tracker stays empty, whatever is done with it, and shows nothing of a file that is there |
| Tracker.BadFrameIsSkipped | crates/xrouter-server/src/track.rs:210-240 | a frame whose bytes hold no batch is passed over and reading goes on behind it |
| Tracker.BufferFillsToHundred | crates/xrouter-server/src/track.rs:138-149 | entries recorded without a flush stay in memory up to the 99th; nothing is written before |
| Tracker.LittleEndianBytes | crates/xrouter-server/src/track.rs:170-173 | the least significant byte comes first |
| Tracker.Log.RecordEntry | crates/xrouter-server/src/track.rs:138-149 | buffers, and writes a frame at 100 entries |
| Tracker.Log.ReadEntries | crates/xrouter-server/src/track.rs:210-244 | the parsing loop equals the recursive reader, then the buffer |
| Resolve.CandidatesAreOffers | crates/xrouter-server/src/resolve.rs:128-171 | exactly the providers that offer the id, each once, strictly increasing |
| Resolve.BareDependsOnOffersOnly | crates/xrouter-server/src/resolve.rs:104-186 | two configurations with the same matching pairs resolve alike, whatever the order of tiers, entries, cache lists or hash map |
| Resolve.BareOutcome | crates/xrouter-server/src/resolve.rs:104-186 | direct if and only if one provider offers the id, not found if and only if none, ambiguous with exactly the offers in order; the stripped id only when the exact one matches nothing |
| Resolve.LayersInOrder | crates/xrouter-server/src/resolve.rs:60-100 | blank not found, tier name first, then a configured provider before the first slash with the rest verbatim, then the bare id |
| Resolve.CollectBareCandidates | crates/xrouter-server/src/resolve.rs:128-171 | the gathering loops, sort and dedup give the specified list |
| FreeMarkers.StripShortensIff | crates/xrouter-server/src/resolve.rs:197-211 | stripping shortens an id if and only if a marker occurs in it, else returns it; every free id gets shorter |
| FreeMarkers.StripAll | crates/xrouter-core/src/free.rs:1-10 | repeated stripping ends, in a non-free id |
| FreeMarkers.StripLeavesFreeIff | crates/xrouter-server/src/resolve.rs:197-211 | one strip leaves an id free if and only if a marker stands before the place of the one removed, after it, or across it |
| FreeMarkers.OneStripMayLeaveFree | crates/xrouter-server/src/resolve.rs:197-211 | one strip need not be enough |
| FreeMarkers.StripReachesBeyondFree | crates/xrouter-server/src/resolve.rs:188-211 | an id that is not free can be cut |
| FreeMarkers.EachMarkerIsRemoved | crates/xrouter-server/src/resolve.rs:197-211 | each of the seven markers, literally, between texts without marker characters: exactly the marker is removed |
| FreeMarkers.StripFreeSuffix | crates/xrouter-server/src/resolve.rs:197-211 | the marker loop follows the specification |
| ImageUrls.RoundTripsIff | crates/xrouter-server/src/translate.rs:208-242 | a source comes back from its URL if and only if its media type holds no comma or semicolon and its data does not begin with `base64,`, or its URL is http(s) |
| ImageUrls.UrlComesBackIff | crates/xrouter-server/src/translate.rs:208-242 | a URL comes back from its source if and only if it is the URL of such a source |
| ImageUrls.DataUrlForm | crates/xrouter-server/src/translate.rs:229-236 | the data URL, part by part |
| ImageUrls.WebUrls | crates/xrouter-server/src/translate.rs:208-226 | http and https addresses are sources as they are; an address of another kind is none |
| RoundTrip.BodyComesBackIff | crates/xrouter-server/src/translate.rs:5-206 | every body: system text, turns with their texts, images and tools, limits, stop sequences, stream flag and tool definitions are the same after both translations, a missing max_tokens being 1024, if and only if no message has tool blocks, says anything as a system turn, or shows an image whose URL does not return |
| RoundTrip.TurnsComeBackIff | crates/xrouter-server/src/translate.rs:11-59 | the same for the turns of a list of messages |
| OpenAiRoundTrip.BodyComesBackIff | crates/xrouter-server/src/translate.rs:5-206 | every body, from OpenAI to Anthropic and back: system text, turns with texts, image URLs, tool calls and tool ids, limit, temperature, top_p, stop, stream and functions are the same, a missing limit being 1024, if and only if there is no top_p and every message but system ones has only texts and returning image URLs, no tool calls and no tool id |
| OpenAiRoundTrip.TurnsComeBackIff | crates/xrouter-server/src/translate.rs:11-59 | the same for the turns of a list of messages |
| OpenAiRoundTrip.ToolCallIsLost | crates/xrouter-server/src/translate.rs:56-57 | an assistant turn with a tool call comes back without it |
| RoundTrip.MessageComesBack | crates/xrouter-server/src/translate.rs:111-179 | a message becomes none if it says nothing, otherwise one that says the same in the same role |
| RoundTrip.ToolsComeBack | crates/xrouter-server/src/translate.rs:73-89 | tool definitions come back, all of them and in order |
| RoundTrip.SystemTurnIsMoved | crates/xrouter-server/src/translate.rs:12-25 | a system turn among the messages does not stay a turn |
| RoundTrip.TopPIsLost | crates/xrouter-server/src/translate.rs:181-184 | top_p does not survive |
| Readers.SystemComesFirst | crates/xrouter-server/src/translate.rs:95-109 | every Anthropic body: the OpenAI messages open with one system message that holds all its system texts, in order and joined by newlines, and with none if and only if they join to nothing |
| Readers.SystemIsGathered | crates/xrouter-server/src/translate.rs:11-25 | every OpenAI body: the Anthropic system holds all that the system messages say, in order, and is there if and only if one says something |
| Readers.SystemBlocksAreJoined | crates/xrouter-server/src/translate.rs:101-109 | two system blocks become one message of two lines |
| Readers.ToolsAreCarried | crates/xrouter-server/src/translate.rs:111-179 | every list of Anthropic messages: read apart from the translator, the OpenAI messages call every tool used with its id, name and rendered input, and give back every result with its id and text, in order |
| Readers.CallsWithoutContent | crates/xrouter-server/src/translate.rs:157-175 | a message of tool calls alone has null content |
| Readers.ToolDefaults | crates/xrouter-server/src/translate.rs:73-89 | a tool without a schema takes any object, on either side |
| Readers.ToolCallsStay | crates/xrouter-server/src/translate.rs:26-57 | tool calls of an OpenAI message stay on the Anthropic one |
| Readers.MissingRoleIsUser | crates/xrouter-server/src/translate.rs:111-115 | a message without a role is the user's, on either side |
| Readers.ModelIsAsked | crates/xrouter-server/src/translate.rs:5-97 | each translation asks for the model it is given |
| Readers.LimitIsFilledIn | crates/xrouter-server/src/translate.rs:60-68 | a body without either limit is sent with 1024 |
| Readers.TopPIsSent | crates/xrouter-server/src/translate.rs:60-72 | top_p is kept on the way to Anthropic |
| Readers.MediaTypeIsPng | crates/xrouter-server/src/translate.rs:229-236 | image data without a media type is PNG |
| Readers.OtherPartsStay | crates/xrouter-server/src/translate.rs:26-57 | a part that is neither text nor a readable image stays as it is |
| Readers.OtherSourcesAreNone | crates/xrouter-server/src/translate.rs:229-242 | a source of another kind is no image |
| Requests.AnthropicToOpenAi | crates/xrouter-server/src/translate.rs:95-206 | the pushing loops build the specified body |
| Requests.OpenAiToAnthropic | crates/xrouter-server/src/translate.rs:5-92 | the same, the other way |

## Left out

- WeightedRobin.FullRoundsAreFairIff: tiers with repeated endpoint ids or with weights summing to 2^32 and more are outside the hypothesis; so is a window of picks that does not start from zero weights.
- Tracker.ReadsBackEverything: frames shorter than 2^32 bytes.
- StreamTranslator.ChunksDoNotMatter: over decoded characters. Each chunk of bytes is decoded on its own, so a multi-byte character split between chunks is outside the claim.
- FreeMarkers.StripShortensIff: ASCII lower-casing. The source lower-cases by Unicode and then cuts the original id at the place found, which for an id like `İ-free` is off its end and panics (crates/xrouter-server/src/resolve.rs:197-211).
- FreeMarkers.StripFreeSuffix: ASCII ids, for the same reason.
- FreeMarkers.StripLeavesFreeIff: ASCII ids, for the same reason.
- Resolve.BareOutcome: ASCII ids, because it strips markers as above.
- Resolve.BareDependsOnOffersOnly: ASCII ids, because it strips markers as above.
- Health.HealthRegistry.RetryLater: the panic on a `Retry-After` that overflows the clock is not modelled.
- Failover.Walk: sleeps, token refresh and the reply body are left out; the retry classification is the one of chat requests, which image generation repeats.
- The 32-bit failure counter, the 64-bit signed weights and the machine-sized counters are unbounded here; only the wraps named above are modelled.
- Thread interleavings inside one balancer method: the counters are updated after the entry lock is dropped.
- HTTP, sockets, timers, metrics, file writes, and the OAuth and token code of `xrouter-auth`.
- The wizard, HTML, command line, banner and foreign-function code.
- `ModelCache` freshness and persistence, configuration loading and tier-name validation.
- Non-stream response translation and the two whole-body Responses translators, which keep only part of their input by design.
- Error-code tables and `KeyRing::next`, which would add easy members only.
