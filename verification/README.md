# Phlox-GW in Dafny

Phlox-GW is a gateway between clients and language-model providers. It speaks two client protocols
(OpenAI chat completions and Anthropic messages), translates between them and to Amazon Bedrock,
fails over between providers, and charges every upstream attempt to a ledger that budgets and rate
limits are checked against. These files model the parts of it that decide something, and prove what
the rest of the program relies on.

`dafny verify dfyconfig.toml` verifies everything.

## What is modelled

**Streams.** `Emitter` holds the object that turns OpenAI chunks into Anthropic events, as a class with
the program's fields and, beside it, a datatype that says what each method does. `AnthropicStream` is an
independent client: it reads events, builds blocks and breaks at the first event that is out of place.
`EmitterSafety` decides, for every input, whether that client accepts the whole message, and
`EmitterPayload` shows that no text and no argument fragment is lost, and `EmitterLabels` under which id
and name a tool reaches the client: those of its first labelled fragment, so that a name that comes later
is lost. The exact criterion in
`EmitterSafety` is a finding about the program: `finish` does not clear the flag of the open text block,
so a tool that never carried an id or name, started while the message is being closed, stops the text
block a second time. `BedrockStream` drives the same emitter and needs no condition. `OpenAIBridge` is
the other direction, and `StreamRoundTrip` composes the two.

**Conversations.** `AnthropicToOpenAI`, `OpenAIToAnthropic` and `OpenAIToBedrock` translate message lists.
`ConversationRoundTrip` shows that normal conversations survive the trip to OpenAI and back,
`OpenAIToAnthropic` that merging turns is the one possible grouping, `BedrockReference` that holding tool results
back is the same as writing them where they belong, and `ToolPairing` when tool
uses meet their results on the way to Bedrock, and that no result is lost where they do not.

**Plans.** `RoutePlan` resolves a request to its candidates, with exact shares for weighted routes.
`PlanExecution` runs them: each candidate carries the circuit state of the moment the plan was resolved,
only later candidates are gated inside the plan, and retries are not gated again. A declarative
description of the attempts stands beside the loop, and is shown to allow one sequence only. (The list of
statuses that allow a retry names 408 as well, but 408 is no failure, so it is answered and never retried.)

**Admission and ledger.** `Admission` is a step system: requests run concurrently, and every clock read,
query, upstream call, time stamp and insert is a step of its own. Limits are checked first and spent
later, so they can be overshot; `AdmissionBounds` proves by how much at most, and `AdmissionTightness` that
under every load this much can happen. `Gates` has the checks as the program makes them and ties them to the steps.
`LedgerCompleteness` shows that the conflict clause of the insert never drops an attempt, and
`FlightPlans` that what a request does among all the others is a plan of `PlanExecution`, `FlightCharges` that each
attempt is charged what its tokens cost, and `AdmissionProgress` that every request ends.
`CircuitBreaker` relates provider rows to the history of outcomes, and `Chargeback` the monthly report to
the ledger.

**Algorithms.** `Rebind` is the placeholder rewriter against a lexer (a `$` in the query's own code can
make it ambiguous), `Luhn` the card-number check,
`Redaction` and `GuardrailTree` the guardrails (on JSON values, and on a tree of containers rewritten in
place), `ParamRetry` the retries with a rejected parameter removed.

Money is counted in micro-dollars and time in nanoseconds, both integers. What the program asks of
others is a parameter: upstream replies, clocks, random picks, regular expressions, JSON encoding (asked
only that decoding undoes encoding and reads `{}` as the empty object), generated ids (asked not to be
blank), image decoding.

## Model

| member | source | states |
|---|---|---|
| Emitter.StreamState.WriteTextDelta | internal/httpapi/bridge_anthropic_openai.go:789-810 | the fields change as `WriteText`: empty text does nothing, the first text opens a block with the next number |
| Emitter.StreamState.StartToolBlock | internal/httpapi/bridge_anthropic_openai.go:851-889 | a tool starts once: open text is closed first, a missing id or name is made up, held-back JSON follows at once |
| Emitter.MadeUpIdsDiffer | internal/httpapi/bridge_anthropic_openai.go:851-870 | the ids made up for two tools of one message differ |
| Emitter.StreamState.WriteToolInputDelta | internal/httpapi/bridge_anthropic_openai.go:891-897 | one input delta on the tool's own block |
| Emitter.StreamState.WriteToolCallDelta | internal/httpapi/bridge_anthropic_openai.go:812-849 | one call fragment: tool remembered by index, labelled, started when it has a label, arguments sent or held back |
| Emitter.StreamState.WriteToolCallDeltas | internal/httpapi/bridge_anthropic_openai.go:812-849 | a list of call fragments is the run of its calls in order |
| Emitter.StreamState.WriteTextFragments | internal/httpapi/bridge_anthropic_openai.go:743-787 | the text fragments of a delta are the run of its texts in order |
| Emitter.StreamState.WriteOpenAIChunk | internal/httpapi/bridge_anthropic_openai.go:743-764 | a chunk is the run of its choices, texts before calls; the last finish reason wins |
| Emitter.StreamState.WriteLines | internal/httpapi/bridge_anthropic_openai.go:669-725 | the read loop is the run of the lines up to the end marker |
| Emitter.StreamState.Finish | internal/httpapi/bridge_anthropic_openai.go:899-933 | open text is stopped, each tool in order of arrival is started if it never was and stopped, then the two closing events; the text flag is not cleared |
| Emitter.ProxyOpenAIStreamAsAnthropic | internal/httpapi/bridge_anthropic_openai.go:669-725 | what the client receives is `Delivered`: the whole `Translation` of the upstream lines, or no end when a read fails before the end marker, and that error |
| EmitterSafety.SyncRun | internal/httpapi/bridge_anthropic_openai.go:789-897 | before the end, every input leaves client and emitter in agreement: blocks numbered 0, 1, 2 and so on, deltas only on open blocks of the right kind |
| EmitterSafety.TracksRun | internal/httpapi/bridge_anthropic_openai.go:812-889 | the emitter's flags read off the input: which tools are known, which started, whether text is open |
| EmitterSafety.WellFormedExactly | internal/httpapi/bridge_anthropic_openai.go:899-918 | for every input, the message is well formed if and only if not both: text came after the last first label of a tool, and some tool never got an id or name; then its stop reason is the given one |
| EmitterSafety.TextStoppedTwice | internal/httpapi/bridge_anthropic_openai.go:899-918 | whenever the message is not well formed, the text block that was open at the end is stopped twice |
| EmitterSafety.UnnamedToolBreaks | internal/httpapi/bridge_anthropic_openai.go:899-918 | such an input: one unnamed tool and text after it; the trace is not well formed and stops a block twice |
| EmitterSafety.TranslationWellFormed | internal/httpapi/bridge_anthropic_openai.go:669-933 | the same criterion for every sequence of upstream lines |
| EmitterSafety.FailureIsSeen | internal/httpapi/bridge_anthropic_openai.go:720-725 | after a read error the client is left with a message that breaks no rule and never ends |
| EmitterSafety.DeliveredWellFormed | internal/httpapi/bridge_anthropic_openai.go:669-725 | with or without a read error, the client holds a whole message if and only if the lines came to their end marker, or to their end without an error, and the criterion is met |
| EmitterSafety.StopReasonDelivered | internal/httpapi/bridge_anthropic_openai.go:669-764 | a whole message stops for what the last finish reason of the stream means, and with end_turn if it has none |
| EmitterPayload.PayloadConserved | internal/httpapi/bridge_anthropic_openai.go:743-918 | for every input: all text arrives in order, and each tool's block receives all its argument fragments in order, whether held back, sent live or flushed at the end; no other block has input |
| EmitterPayload.TranslationConserved | internal/httpapi/bridge_anthropic_openai.go:669-787 | for every sequence of upstream lines: the text deltas are the text of the chunks up to the end marker, and each tool's block has the chunks' arguments for it |
| EmitterPayload.DeliveredText | internal/httpapi/bridge_anthropic_openai.go:669-725 | with or without a read error the client has all the text of the lines up to the end marker |
| EmitterLabels.ToolsAreAnnounced | internal/httpapi/bridge_anthropic_openai.go:812-889 | every tool is announced once, on its own block, under the id and name of its first fragment that has either, with made-up ones where that lacks them |
| EmitterLabels.OwnLabelExactly | internal/httpapi/bridge_anthropic_openai.go:830-879 | so a tool is announced under its own id and name if and only if that fragment has both, or what is made up is what comes late |
| EmitterLabels.LateNameIsLost | internal/httpapi/bridge_anthropic_openai.go:830-879 | an input whose tool has its id in one fragment and its name in the next: its block is announced under the name `tool` |
| EmitterLabels.ClientHoldsTools | internal/httpapi/bridge_anthropic_openai.go:812-933 | a client that can read the message holds one tool block for each tool, under that label and with all its arguments in order, and no other tool block |
| BedrockStream.WriteToolUseStart | internal/httpapi/bridge_bedrock.go:161-231 | a tool-use start relabels the tool and starts its block |
| BedrockStream.WriteToolInput | internal/httpapi/bridge_bedrock.go:161-231 | tool input starts an unknown tool before it is written |
| BedrockStream.ProxyAnthropicViaBedrockStream | internal/httpapi/bridge_bedrock.go:110-234 | what the client receives is `Delivered`: the `Translation` of the Bedrock events, or no end when the stream fails, and that error |
| BedrockStream.TranslationWellFormed | internal/httpapi/bridge_bedrock.go:161-231 | every sequence of Bedrock events gives a well-formed message, with no condition on ids or names |
| BedrockStream.FailureIsSeen | internal/httpapi/bridge_bedrock.go:221-226 | after a stream error the client is left with a message that breaks no rule and never ends |
| BedrockStream.DeliveredWellFormed | internal/httpapi/bridge_bedrock.go:110-234 | the client holds a whole message if and only if the stream did not fail |
| BedrockStream.ReasonArrives | internal/httpapi/bridge_bedrock.go:984-995 | the message stops for the reason of the last stop event: limits as max_tokens, filters and guardrails as refusal, tool uses as tool_use, any other and none as end_turn |
| BedrockStream.PayloadConserved | internal/httpapi/bridge_bedrock.go:161-231 | all text and all tool input arrive in order, each tool's at a block of its own, and none at any other block |
| BedrockStream.DeliveredText | internal/httpapi/bridge_bedrock.go:110-234 | with or without an error the client has all the text of the events that came |
| BedrockStream.ToolsAreAnnounced | internal/httpapi/bridge_bedrock.go:161-231 | every tool is announced once, on its own block, under the id and name of its first start, made up where that lacks them or input comes before it |
| OpenAIBridge.ProxyAnthropicStreamAsOpenAI | internal/httpapi/bridge_openai_anthropic.go:568-716 | the lines and the error are those of `Proxy` on the Anthropic events and the error, if any, that ended them |
| OpenAIBridge.FailureIsFinal | internal/httpapi/bridge_openai_anthropic.go:568-716 | nothing is written after an upstream error event |
| OpenAIBridge.DoneLastExactly | internal/httpapi/bridge_openai_anthropic.go:568-716 | for every input the end marker is written once if the message stops, or the input ends without an error, before the upstream reports one, and otherwise never; it is the last line if and only if moreover no content event follows the message stop |
| OpenAIBridge.TranscribesExactly | internal/httpapi/bridge_openai_anthropic.go:568-716 | for every input the lines are those of the events one by one, read off the events alone (role, text, tool calls numbered in order of their starts, arguments under the last start of their block) until the upstream reports an error, with the finish reason of the last stop reason, usage if asked for and the end marker at the first message stop or at the end; the error is the upstream's message, or a fixed text if blank, or else the read error |
| OpenAIBridge.ContentAfterDone | internal/httpapi/bridge_openai_anthropic.go:568-716 | an input whose text after the message stop is written after the end marker |
| StreamRoundTrip.ReasonRoundTrip | internal/httpapi/bridge_openai_anthropic.go:392-403 | the finish reason and `anthropicStopReason` together keep end_turn, max_tokens, tool_use and refusal and turn the rest into end_turn |
| StreamRoundTrip.BridgeCarries | internal/httpapi/bridge_openai_anthropic.go:568-716 | up to the end marker the OpenAI lines stand for the blocks of the Anthropic stream, in order, whatever pings stand between its events |
| StreamRoundTrip.ArrivesBlocks | internal/httpapi/bridge_anthropic_openai.go:789-897 | those lines bring the client the same blocks, up to merged text |
| StreamRoundTrip.RoundTrip | internal/httpapi/bridge_anthropic_openai.go:669-933 | a sequential stream with named tools, pings anywhere and any number of message deltas, sent through both proxies, arrives as a correct message with the same blocks (kind, id, name, content) in order, dropping thinking and empty text and merging adjacent text, and with the last stop reason; the tail after the message stop and a read error in it have no effect |
| StreamRoundTrip.RoundTripExact | internal/httpapi/bridge_openai_anthropic.go:568-716 | with no two adjacent texts nothing is merged: the blocks are the same |
| Messages.DataUrlRoundTrip | internal/httpapi/bridge_openai_anthropic.go:231-259 | parsing a printed data URL (section 3 of RFC 2397) gives the image back if and only if its media type has no comma |
| Messages.ParsesExactly | internal/httpapi/bridge_openai_anthropic.go:231-259 | for every string: no image if blank, a remote image unless it begins with `data:`, and an inline image if and only if it is the data URL of a media type without comma and of data |
| AnthropicToOpenAI.UserMessageToOpenAI | internal/httpapi/bridge_anthropic_openai.go:114-195 | the loop over a user turn is `User`: runs of text and images flushed at each tool result |
| AnthropicToOpenAI.AssistantMessageToOpenAI | internal/httpapi/bridge_anthropic_openai.go:197-247 | the loop over an assistant turn is `Assistant`: texts joined, named tool uses as calls |
| AnthropicToOpenAI.MessagesToOpenAI | internal/httpapi/bridge_anthropic_openai.go:80-112 | the whole list is `Translate`, error cases included |
| AnthropicToOpenAI.ResultsReadAsText | internal/httpapi/bridge_anthropic_openai.go:249-271 | a conversation whose tool results are parts, JSON or absent is translated like the one in which each is a string, the non-empty texts of parts on lines of their own |
| AnthropicToOpenAI.ResultsStandAlone | internal/httpapi/bridge_anthropic_openai.go:114-195 | a tool result becomes a tool message with its id, text and error flag, or a user message if it has no id, and what stands before and after it is translated as if alone |
| AnthropicToOpenAI.MessagesAreProper | internal/httpapi/bridge_anthropic_openai.go:80-247 | a list is refused if and only if it is empty or an entry is no object; every translated message has a known role, an id if and only if it is a tool message, calls only if it is the assistant's, and content of the kind its role allows |
| AnthropicToOpenAI.SystemBlock | internal/httpapi/bridge_anthropic_openai.go:366-406 | a block of a system prompt becomes a text part, an image part with its data URL, or nothing |
| AnthropicToOpenAI.SystemBlocks | internal/httpapi/bridge_anthropic_openai.go:366-406 | and a system prompt is translated block by block |
| AnthropicToOpenAI.SystemOmitted | internal/httpapi/bridge_anthropic_openai.go:366-406 | it is one system message with its text or its parts, and none if it is blank or has no part |
| OpenAIToAnthropic.UserMessageToAnthropic | internal/httpapi/bridge_openai_anthropic.go:196-229 | the parts of a user message become blocks in order, or the first error |
| OpenAIToAnthropic.PartsArrive | internal/httpapi/bridge_openai_anthropic.go:204-226 | a text part arrives as text unless blank, a remote image under its URL, an inline one with its media type and data; only a malformed data URL is an error |
| OpenAIToAnthropic.AssistantMessageToAnthropic | internal/httpapi/bridge_openai_anthropic.go:261-290 | text and tool calls become blocks in order, or the first error |
| OpenAIToAnthropic.MessageToAnthropic | internal/httpapi/bridge_openai_anthropic.go:121-173 | one message by its role |
| OpenAIToAnthropic.MessagesToAnthropic | internal/httpapi/bridge_openai_anthropic.go:121-173 | the whole list is `Translate`: same-role messages merged, system texts joined |
| OpenAIToAnthropic.TranslatesExactly | internal/httpapi/bridge_openai_anthropic.go:121-303 | for every list: the first message refused decides, with its reason (no object, a malformed data URL, arguments that are no JSON or of another type); else, if anybody speaks, the system prompt is what system and developer messages say, a blank line between them, and the turns are the grouping of what the others say, message by message |
| OpenAIToAnthropic.TranslateGroups | internal/httpapi/bridge_openai_anthropic.go:121-173 | a translated conversation is not empty, has no empty turn, alternates roles, and says block by block what the messages say |
| OpenAIToAnthropic.GroupingIsUnique | internal/httpapi/bridge_openai_anthropic.go:121-173 | it is the only alternating grouping of those blocks, and equals the reference grouping |
| ConversationRoundTrip.ConversationRoundTrips | internal/httpapi/bridge_anthropic_openai.go:80-247 | every conversation in normal form, with its system prompt, comes back from Anthropic to OpenAI to Anthropic exactly as it was |
| OpenAIToBedrock.BedrockConverseInput | internal/httpapi/bridge_bedrock.go:436-511 | the message loop is `Translate`: tool results held back and flushed before the next spoken message and at the end, error cases included |
| OpenAIToBedrock.NothingLost | internal/httpapi/bridge_bedrock.go:436-511 | holding results back loses and reorders nothing: the Bedrock messages say what the OpenAI messages say one after the other |
| BedrockReference.TranslatesExactly | internal/httpapi/bridge_bedrock.go:436-724 | for every list: the first message refused decides, with its reason; else the request is the draft that holds nothing back: a result goes into the message with the results just before it, whoever speaks ends that message, texts between two images are on lines of one block, and instructions that are not blank make the system prompt |
| ToolPairing.BedrockSeesTurns | internal/httpapi/bridge_anthropic_openai.go:114-247 | both translations together give exactly the messages of the conversation, in order, also where user turns meet: an assistant turn is one message, and results gather until something is spoken or the list ends |
| ToolPairing.ToolUsesMeetTheirResults | internal/httpapi/bridge_bedrock.go:441-505 | in the request, after the messages of the turns before it, comes the message with an assistant turn's tool uses, immediately followed by a user message with exactly the next turn's results if and only if that turn says nothing before its first result and nothing between two, and speaks after the last one unless the next turn, if any, begins with no result |
| ToolPairing.NoResultLost | internal/httpapi/bridge_bedrock.go:441-505 | however turns are arranged, the request holds every tool result once, in order, also at the end of the list, and no other |
| ToolPairing.CallsBecomeUses | internal/httpapi/bridge_bedrock.go:689-724 | tool uses printed as calls and parsed again are the same uses; a missing id is made up, a missing input is the empty object, text input is read as JSON, and a use without a name is dropped |
| PlanExecution.TryCandidate | internal/httpapi/routing.go:115-143 | the attempts on one candidate: after a failure of the last one the candidate is given up |
| PlanExecution.ExecutePlan | internal/httpapi/routing.go:96-148 | the attempts made form a `Trace` that is `Over`, and the result is its final report |
| PlanExecution.EligibleExactly | internal/httpapi/routing.go:99-114 | a candidate is attempted if and only if its provider is of one of six types, its circuit in the snapshot is closed or not asked about, and, unless it is the first, it is admitted |
| PlanExecution.PlanByStatus | internal/httpapi/routing.go:115-143 | status by status: the n-th attempt has the n-th reply's status or 422 if its output is blocked; only 429, 401, 403 and 5xx are followed by another attempt, on the same candidate if and only if 429 or 5xx and a try is left; the plan is over if and only if the last status is none of these, or no try and no eligible candidate is left |
| PlanExecution.FailureIsReported | internal/httpapi/routing.go:99-148 | a plan without an answer reports the last candidate of a supported type: its last attempt, its open circuit or its refusal, and that there is none if there is none |
| PlanExecution.SelectStreamCandidate | internal/httpapi/routing.go:198-248 | a stream goes to the first candidate that may be attempted, if any |
| PlanExecution.StreamsBeginAlike | internal/httpapi/routing.go:96-248 | which is where a plan over the same candidates begins |
| PlanExecution.PlanIsSafe | internal/httpapi/routing.go:96-196 | at most candidates times (retries + 1) attempts, all but the last failed, only eligible candidates (admitted, circuit closed in the snapshot), never back to an earlier one, and again on the same one only after 429 or a server error |
| PlanExecution.PlanIsComplete | internal/httpapi/routing.go:96-196 | the first attempt that does not fail is answered and is the last; if all fail, every eligible candidate was attempted |
| PlanExecution.PlanIsUnique | internal/httpapi/routing.go:96-148 | the declarative description admits one sequence of attempts only |
| RoutePlan.PickShare | internal/httpapi/routing.go:86-93 | the walk finds the share the pick falls on; the return after the loop is unreachable |
| RoutePlan.SelectWeightedCandidate | internal/httpapi/routing.go:64-94 | a candidate is picked exactly when the resolvable weights add up to more than zero, and the pick falls on its share |
| RoutePlan.OneShare | internal/httpapi/routing.go:86-93 | a pick falls on one share only |
| RoutePlan.SharesAreExact | internal/httpapi/routing.go:64-94 | each resolvable entry is chosen by exactly as many picks as it has weight |
| RoutePlan.PicksAreWeights | internal/httpapi/routing.go:64-94 | from the setting to the choice: a model is chosen by exactly as many picks as the entries that resolve to it weigh together |
| RoutePlan.ResolvesExactly | internal/store/models.go:129-160 | a name, trimmed, is that of a model if and only if it has a slash and the model is the first with that route, or has none and the model is the only one with that model id |
| Text.SpacesAre | internal/store/models.go:129-133 | white space is the 25 characters Unicode calls so |
| Text.TrimExactly | internal/store/models.go:129-133 | trimming a name takes the white space off both ends, all of it and nothing else |
| RoutePlan.WithFallbacks | internal/httpapi/routing.go:40-61 | the loop with its seen-names set is `Candidates` |
| RoutePlan.ResolveRoutePlan | internal/httpapi/routing.go:32-62 | a plan exists exactly when the requested model resolves; it starts with the weighted pick or the model itself |
| RoutePlan.NoModelTwice | internal/httpapi/routing.go:40-61 | no two candidates share an id or a route |
| RoutePlan.FallbackExactly | internal/httpapi/routing.go:40-61 | a fallback joins the plan, at its end, if and only if it resolves and neither the name it is listed under nor its id or route is taken |
| RoutePlan.FallbacksCovered | internal/httpapi/routing.go:40-61 | every fallback that resolves is in the plan, unless another candidate goes by one of its names |
| Gates.CheckAPIKeyPolicy | internal/httpapi/policy.go:60-82 | 403 if a non-empty allow list has none of the three names of the model, 402 if the model is priced and the key's rows of this month cost the budget or more, 429 if its rows of the last minute are RPM or more or their tokens TPM or more, else pass |
| Gates.BudgetStatus | internal/store/budgets.go:98-156 | an item for each budget in force for the user or the department, with the rows' cost this month, blocking from the limit and warning from the given percentage of it; blocked exactly when one blocks, warning exactly when one warns; nothing for a model without a price |
| Gates.CheckRateLimits | internal/httpapi/policy.go:84-109 | refused exactly when, for an active limit on the user, department, provider or model, its rows of the last minute number RPM or more, or their tokens TPM or more |
| Gates.CheckRouteAdmission | internal/httpapi/routing.go:250-261 | admitted exactly when the key allows the model and neither its limits, nor a budget, nor a rate limit is used up on the ledger; otherwise the status of the first check that fails |
| Gates.FreeModels | internal/httpapi/policy.go:13-25 | no budget stops a model without a price |
| Gates.StepsAreTheGate | internal/httpapi/routing.go:250-261 | a request that looks at a candidate without interruption passes the allow list and all its checks exactly when the gate passes |
| AdmissionBounds.NextOk | internal/httpapi/routing.go:109-142 | each step keeps rows and flights consistent: rows in the scopes their request was checked in, free models at no cost |
| AdmissionBounds.OvershootBound | internal/httpapi/policy.go:84-109 | in every interleaving, at every moment, every window of a rule holds at most limit - 1 + K * quota * (weight of the heaviest attempt) |
| AdmissionBounds.RequestsPerMinute | internal/store/ratelimits.go:114-123 | every 60-second window holds at most RPM - 1 + K * 6 rows of a scope with K requests in flight |
| AdmissionBounds.OneAtATimeKeepsLimit | internal/httpapi/policy.go:84-109 | with one request of the scope at a time and no retries the limit is kept exactly |
| AdmissionBounds.MonthlyBudget | internal/store/budgets.go:128-156 | the month's spend of a budgeted scope stays below limit + K * 6 * (cost of the dearest attempt) |
| AdmissionTightness.BoundIsAttained | internal/httpapi/policy.go:84-109 | for every rule, every K, every quota that retries allow and every weight there is a run under that load with a window of the rule that holds exactly the bound |
| FlightPlans.FlightsRunPlans | internal/httpapi/routing.go:96-196 | in every interleaving the attempts of a request form the trace of a plan over its candidates with the retries of its quota, and so keep what `PlanIsSafe` says |
| FlightPlans.AttemptsAreCharged | internal/httpapi/routing.go:118-133 | each of those attempts has its ledger row, but for one still being recorded |
| FlightPlans.EveryCandidateLookedAt | internal/httpapi/routing.go:96-148 | a request that ends after a failure has stood before every one of its candidates, unless it is a stream |
| FlightPlans.StreamsTryOnce | internal/httpapi/routing.go:198-222 | a streaming request is attempted at most once |
| AdmissionProgress.MovesExactly | internal/httpapi/routing.go:96-148 | which moves a request can make, phase by phase |
| AdmissionProgress.MovesLead | internal/httpapi/routing.go:96-148 | and where each leads: a refusal or an open circuit on to the next candidate, of the first candidate to the end |
| AdmissionProgress.NeverStuck | internal/httpapi/routing.go:96-148 | in every run a request that is not finished has a move other than reading the clock again |
| AdmissionProgress.RequestsEnd | internal/httpapi/routing.go:96-148 | in every run, whatever the others do, a request makes at most 1 + candidates * (rules + 2 * attempts + 2) moves besides reading the clock again |
| AdmissionProgress.ClockTicks | internal/httpapi/policy.go:69-70 | time can pass by any amount at any moment, and nothing else moves the clock |
| FlightCharges.StampIsCharged | internal/httpapi/routing.go:118-133 | in every run an attempt once stamped has, in the ledger or about to be inserted, a row for its tokens at its model's prices, in its user's, department's, key's, provider's and model's name, at its moment |
| FlightCharges.RowsAreStamped | internal/store/usage.go:114-127 | and every row is that of an attempt stamped in an earlier step |
| Ledger.CostIsPrice | internal/store/usage.go:509-512 | the cost is the one whole number of micro-dollars within half a micro-dollar of input tokens times input price plus output tokens times output price |
| Ledger.PricedExactly | internal/store/usage.go:514-516 | a model is priced if and only if some use of it costs something |
| Ledger.AttemptIdReads | internal/httpapi/routing.go:267-272 | the first attempt has the base id, the n-th the base id, a fixed text and n in decimal |
| Ledger.UnpricedIsFree | internal/store/usage.go:509-516 | an unpriced model costs nothing whatever it uses |
| Ledger.CheckCoversWindow | internal/store/ratelimits.go:114-123 | a check made inside a window looks at every row of the window up to then |
| Ledger.AttemptIdInjective | internal/httpapi/routing.go:267-272 | attempt ids of base ids of one length are equal only for the same base and attempt |
| LedgerCompleteness.NoConflict | internal/store/usage.go:114-127 | no row to be inserted has the id of a row already there |
| LedgerCompleteness.InsertKeepsUnique | internal/store/usage.go:114-127 | whatever is inserted, no request id is there twice, what was there stays, and the id is there |
| LedgerCompleteness.LedgerIsComplete | internal/store/usage.go:114-127 | in every run each recorded attempt has its row and each row its attempt; between records the row count is the attempt count |
| Calendar.OneMonth | internal/store/usage.go:518-521 | each instant lies in exactly one month between its bounds |
| Calendar.MonthsAreGregorian | internal/store/usage.go:518-521 | every month from 1970 on begins where the closed formula of the Gregorian calendar has it |
| CircuitBreaker.ProviderStore.RecordProviderSuccess | internal/store/providers.go:107-122 | the row is healthy with no failures and no open circuit; an unknown provider changes nothing |
| CircuitBreaker.ProviderStore.RecordProviderFailure | internal/store/providers.go:124-164 | one more failure; from the threshold on the circuit opens for the cooldown; defaults 3 and five minutes |
| CircuitBreaker.ProviderStore.RecordProviderOutcome | internal/httpapi/policy.go:27-38 | 429, 401, 403 and 5xx add a failure, open the circuit for five minutes from the third on and label the row; any other status resets it |
| CircuitBreaker.RowsAreHistory | internal/store/providers.go:107-164 | after any outcomes on any providers a row counts the failures since the provider's last success, and label and circuit follow from them |
| CircuitBreaker.CircuitIsHistory | internal/httpapi/models.go:116-121 | open at t if and only if the failures in a row reached the threshold and t is before the last of them plus the cooldown |
| CircuitBreaker.OpenAfterThree | internal/httpapi/policy.go:27-38 | whatever was reported on whom, a circuit is open if and only if the provider's last three reports are 429, 401, 403 or 5xx and the last is less than five minutes ago |
| CircuitBreaker.ProvidersAreIndependent | internal/store/providers.go:107-164 | outcomes of one provider never change another |
| CircuitBreaker.TrialDecides | internal/store/providers.go:124-164 | once tripped, the next failure opens the circuit for a new cooldown at once, and a success closes it |
| Rebind.RebindPostgres | internal/store/store.go:145-228 | the byte loop with its four flags is the printer of the lexer's tokens |
| Rebind.LexSpells | internal/store/store.go:145-228 | the tokens of a query spell it: outside placeholders nothing is added or dropped |
| Rebind.NumberedInOrder | internal/store/store.go:145-228 | the k-th `?` in code becomes `$k`, whatever stands around it |
| Rebind.NothingToRebind | internal/store/store.go:145-228 | a query with no `?` in code is left alone |
| Rebind.RebindTwice | internal/store/store.go:145-228 | rebinding twice is rebinding once, and leaves no placeholder in code |
| Rebind.RebindCanBeUndone | internal/store/store.go:145-228 | taking the numbers back from the rebound text gives the query if and only if no `$` in the query's own code stands before the number due there, which the query alone decides |
| Rebind.RebindIsInjective | internal/store/store.go:145-228 | no two queries without `$` in code are rebound to the same text |
| Rebind.DollarsCollide | internal/store/store.go:145-228 | two queries, one of them with `$` in code, that are rebound to the same text |
| Luhn.DigitsOnly | internal/httpapi/guardrails.go:541-549 | the digits of a text, in order |
| Luhn.SeparatorsIgnored | internal/httpapi/guardrails.go:541-549 | taking out a character that is no digit changes nothing, and a number of digits only is taken as it is |
| Luhn.LuhnValid | internal/httpapi/guardrails.go:551-566 | the loop from the right computes the sum in which every second digit is doubled |
| Luhn.CardNumber | internal/httpapi/guardrails.go:70-79 | the test of the credit-card rule: 13 to 19 digits with a valid sum |
| Luhn.SingleDigitErrorCaught | internal/httpapi/guardrails.go:551-566 | changing one digit of a valid number, at any place and length, gives a valid one only if nothing changed (Annex B of ISO/IEC 7812-1) |
| Luhn.AdjacentSwapCaught | internal/httpapi/guardrails.go:551-566 | swapping neighbours of a valid number stays valid if and only if they are equal or are 0 and 9 |
| Luhn.CheckDigit | internal/httpapi/guardrails.go:551-566 | a number that is not all zeros has exactly one check digit that makes it valid, and a number of zeros has none |
| Redaction.ApplyGuardrailToText | internal/httpapi/guardrails.go:115-178 | findings, blocking and rewriting of one text, by enabled rules in order |
| Redaction.JudgedExactly | internal/httpapi/guardrails.go:115-178 | a text is blocked if and only if it is not empty, blocked text is not forced to be redacted, and a rule matches it while the action is to block, or a custom rule that blocks while the action is not off; redacting applies the replacements of the built-in and the redacting custom rules in order, or of all rules under force; any other text stays as it is |
| Redaction.StructuralKeys | internal/httpapi/guardrails.go:463-470 | texts are left alone under ten keys, in any capitals, and under no other |
| Redaction.BlockedAnywhere | internal/httpapi/guardrails.go:419-461 | a tree is blocked if and only if a forbidden text stands somewhere in it under a key that is content |
| Redaction.FoundAnywhere | internal/httpapi/guardrails.go:419-461 | a finding is reported if and only if its rule matches a text in the tree under a key that is content, and the action is not off |
| Redaction.ShapeKept | internal/httpapi/guardrails.go:419-470 | redaction keeps keys, positions, leaves that are no text and texts under structural keys |
| Redaction.ChangedExactly | internal/httpapi/guardrails.go:419-461 | a tree changes exactly when one of its scanned texts does |
| GuardrailTree.Clone | internal/httpapi/guardrails.go:472-489 | a new tree with the same content; the original is only read |
| GuardrailTree.RedactInto | internal/httpapi/guardrails.go:419-461 | in place: the tree becomes `Redacted` of what it was, mutated exactly when that differs, blocked and findings over all scanned texts |
| GuardrailTree.RedactMap | internal/httpapi/guardrails.go:421-435 | the same for an object, whatever order its fields are met in |
| GuardrailTree.RedactList | internal/httpapi/guardrails.go:436-449 | the same for an array |
| GuardrailTree.EvaluatedExactly | internal/httpapi/guardrails.go:273-310 | a request is judged by the input action and a response by the output action; blocked if and only if the policy is on and the tree holds a text that action forbids, redacted if and only if that action is to redact and changes something, with what is found in the tree as findings |
| GuardrailTree.ApplyGuardrailToMap | internal/httpapi/guardrails.go:287-310 | the caller's tree is unchanged; the result is a fresh redacted tree, or the caller's own when blocked or unchanged |
| ParamRetry.CloneJSONMap | internal/httpapi/gateway.go:204-210 | a new object with the same fields |
| ParamRetry.OpenAIPayloadForUnsupportedParams | internal/httpapi/openai.go:515-538 | adjusts a fresh copy exactly when a 400 names a parameter that is there; the original is unchanged |
| ParamRetry.AnthropicPayloadForUnsupportedParams | internal/httpapi/bridge_openai_anthropic.go:370-390 | the same for temperature, top_p and top_k |
| ParamRetry.OpenAIAdjustsExactly | internal/httpapi/openai.go:515-538 | key by key: a 400 that speaks of `max_completion_tokens` moves the value of `max_tokens` there, one that quotes `temperature` takes it away, nothing else changes |
| ParamRetry.AnthropicAdjustsExactly | internal/httpapi/bridge_openai_anthropic.go:370-390 | key by key: temperature, top_p and top_k go if the 400 names them between quotes or backquotes, nothing else changes |
| ParamRetry.Shrinks | internal/httpapi/openai.go:515-538 | an adjustment strictly shrinks the set of adjustable parameters and touches nothing else but the new name of max_tokens |
| ParamRetry.CallOpenAINonStreamingWithParamRetry | internal/httpapi/openai.go:78-89 | the loop with at most two adjustments is `Capped` |
| ParamRetry.CallAnthropicWithParamRetry | internal/httpapi/bridge_openai_anthropic.go:28-38 | the same loop for Anthropic payloads |
| ParamRetry.OpenAICapIsExact | internal/httpapi/openai.go:78-89 | against every upstream the capped loop equals the uncapped one and makes at most three calls |
| ParamRetry.AnthropicCapExactly | internal/httpapi/bridge_openai_anthropic.go:28-38 | capped and uncapped agree against every upstream if and only if one of the three sampling parameters is missing |
| ParamRetry.OpenAIRequestToAnthropic | internal/httpapi/bridge_openai_anthropic.go:62-95 | a translated request has temperature and top_p exactly when the client sent them, and never top_k |
| ParamRetry.CallOpenAIViaAnthropic | internal/httpapi/bridge_openai_anthropic.go:23-38 | so translated requests make at most three calls and end where the uncapped loop ends |
| Chargeback.GroupsAddUp | internal/store/usage.go:246-255 | adding up the grouped rows adds up the month's ledger rows, for everyone and for each department |
| Chargeback.GroupingExists | internal/store/usage.go:246-255 | every list of rows has a result of the grouping query |
| Chargeback.CollectDepartments | internal/store/usage.go:260-286 | the loop over the query's rows: totals, departments in order of appearance, their users |
| Chargeback.ApplyBudgets | internal/store/usage.go:291-301 | each department gets the limit of its last active budget |
| Chargeback.BudgetExactly | internal/store/usage.go:291-301 | a department's budget is the limit of the last active one for it, and zero without one |
| Chargeback.ChargebackReport | internal/store/usage.go:237-311 | the report is `ReportOf` the grouped rows and budgets |
| Chargeback.SortedIsSorted | internal/store/usage.go:306-311 | both sorts give descending order and keep equal costs in order |
| Chargeback.ReportTotals | internal/store/usage.go:237-311 | the report's total is the month's total in requests, tokens and micro-dollars, the departments add up to it, and they are in descending order |
| Chargeback.ReportLines | internal/store/usage.go:237-311 | each department stands at its ledger total, its users add up to it, each at their own total, in descending order |
| Chargeback.ReportIsLedger | internal/store/usage.go:237-311 | on the ledger itself: the report, each department and each user in it have the number, the tokens and the cost of their rows of the month |
| Chargeback.DepartmentsOnce | internal/store/usage.go:237-311 | a department has a line if and only if it has rows in the month, and then one |
| Chargeback.UsersOnce | internal/store/usage.go:237-311 | in a line a user has an entry if and only if the user has rows in it in the month, and then one |
| Chargeback.MonthsAddUp | internal/store/usage.go:518-521 | every ledger row counts in exactly one month: the months add up to the ledger |

## Left out

- HTTP, TLS, the AWS SDK, sign-in, telemetry, the dashboard and the command line: input and output, or libraries.
- JSON bytes, event-stream framing, flushing and write errors: streams are sequences of decoded events.
- Redaction of stream payloads: the emitters are modelled with output redaction off.
- Token usage in the stream events, and token estimates: not part of the events modelled.
- Whole (non-streaming) responses translated between the protocols: their blocks, calls and stop reasons are those of the streams.
- The Bedrock stream for OpenAI clients: each event becomes at most one chunk, on its own.
- SQL, migrations and the create, update and delete handlers: each statement used is one step on a sequence or map; failed statements and the 500 replies to them are not modelled.
- Playground, configuration export, request log, model tests and health checks started by an administrator: they add only easy members.
- Beta headers, tool definitions, tool choice, stop sequences and sampling values of a translated request: copied field by field.
- Emitter.StreamState.StartToolBlock: tool blocks are looked up by index instead of being shared by pointer, so aliasing of a block is not captured.
- AnthropicToOpenAI.MessagesToOpenAI: the id generated for a tool use without one is a parameter; that generated ids are distinct is not modelled.
- OpenAIToBedrock.BedrockConverseInput: roles are lower-cased as ASCII text, image formats and base64 are left to the decoder that is passed in, a refusal names neither the part type nor what is wrong with an image, and the inference and tool settings after the message loop are not modelled.
- ToolPairing.BedrockSeesTurns: results without an id, which become spoken text, and turns Bedrock refuses (an image it cannot take, text input that is no JSON, a blank name) are left out.
- FlightPlans.FlightsRunPlans: why a candidate was passed over is not kept; the plan it is compared with sees an open circuit in each such place.
- ConversationRoundTrip.ConversationRoundTrips: tool results carry plain text; results given as parts or as other JSON are flattened on the way and do not come back.
- AdmissionBounds.OvershootBound: rows are compared by instant; stored times are text whose order differs from time order inside one second when trailing zeros of the fraction are trimmed (section 5.1 of RFC 3339).
- AdmissionBounds.MonthlyBudget: costs are rounded to whole micro-dollars as integers, not in floating point.
- LedgerCompleteness.LedgerIsComplete: base ids are taken as fresh and of one length, and inserts as successful.
- Gates.BudgetStatus: the reason texts and the ratio shown for each budget are left out.
- RoutePlan.SelectWeightedCandidate: the entries are given as parsed, with the parse error as no entries; splitting the setting into route and weight is not modelled.
- Redaction.ApplyGuardrailToText: patterns are functions that say what matches and what a replacement makes of a text; compiling custom patterns and naming their findings is not modelled.
- GuardrailTree.RedactInto: findings are returned as a set and joined by the caller instead of being added to one shared map, and the original is a tree, as decoding makes it.
- Chargeback.ChargebackReport: user names, the separate input and output token columns and the list of available months are left out; the sort is an insertion sort in place of the library's.
- Rebind.RebindPostgres: a query is a sequence of characters that stand for its bytes.
