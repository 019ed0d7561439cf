# Switchboard gateway: a verified model

This project models the request path of the Switchboard sidecar gateway, which
forwards chat completions to one of four providers under a signed routing policy,
and the durable state around it. The model is Dafny; `dafny verify dfyconfig.toml`
checks all of it.

The parts and the files they live in:

- **Routing** (`Routing.dfy`, `Interleaving.dfy`, `Runs.dfy`, `Expiry.dfy`,
  `Chat.dfy`, `Embedding.dfy`). One request is a machine whose steps are its atomic operations on
  shared state: breaker calls, retry tokens, the idempotency store, provider sends. Many
  requests interleave step by step over one set of breakers, one retry bucket and one
  store, which may refuse new keys and let entries expire, with time passing, failed
  provider checks and restarts that keep only the store. `Expiry.dfy` adds the stamps by
  which entries expire. `Chat.dfy` is the request loop as imperative code over the
  breaker, bucket and store objects, proved to be a run of the one-request machine in
  order of time; `Embedding.dfy` turns such a run into steps of the interleaved gateway,
  from the state of a newly built gateway through reachable states only.
- **Components of the loop** (`Bucket.dfy`, `Breaker.dfy`, `Circuit.dfy`,
  `Budget.dfy`, `Fault.dfy`, `Idempotency.dfy`). Each fast form is proved against a
  plain one: two numbers against every window of calls, a 32-bit word against the list
  of outcomes, two numbers per model against the whole history of observations, two
  counters against the files of a directory.
- **Streams** (`Stream.dfy`, `Normalize.dfy`, `Bedrock.dfy`, `SSE.dfy`,
  `Pipeline.dfy`). The frame callback with its flags, what each provider's events
  become, Bedrock's two ways of reading one event stream, the event-stream reader over
  bytes, and all of it composed from provider bytes to client writes.
- **Policy** (`Policy.dfy`, `PolicyStore.dfy`). Validation on both sides, the canonical
  bytes, the signed message and the whole check of an envelope, and the policy file with
  crashes between any two disk operations.
- **Telemetry** (`Spool.dfy`, `Delivery.dfy`, `EventSize.dfy`, `Histogram.dfy`). The
  queue, the spool, the control plane's table and the network between them as one
  machine; batching and the length of events; cumulative histograms, the table of routes
  and what is exported of it.

Time is a real number that never runs backwards. Provider replies, clock readings,
cancellation, the health and budget hints of the pre-pass, control-plane answers and
disk failures are parameters: every statement is for all of them. In `SSE.dfy` a
character stands for a byte.

What an operation decides is stated in two ways: as a step of its machine or its plain
form, and by the codes, names and numbers of the source, so that neither can drift with
the other.

## What the proofs found

Each of these is a lemma with a concrete case, beside the exact condition under which
the code does what its comments or documents say.

- An answer that is empty at the token ceiling ends as a broken stream when the
  provider reports the finish reason on its end mark, as Gemini and Bedrock do. The
  callback returns as soon as it holds such a frame back, before it looks at the end
  mark, so the stream is never seen to end; the comment above the callback says the
  check works alike for all four providers (`Streams.AnsweredIsClosedIff`,
  `EmptyAnswerReportedBroken`, `FinishOnEndMarkNeverEmpty`,
  `Normalizing.EmptyIsReportedIff`, `Bedrock.ThroughStream`).
- The finish reason stored for replay differs from the one the first client read last
  when a held ceiling report is sent after a different reason, as on an Anthropic stream
  that reports `max_tokens` and then `end_turn` (`Streams.StoredAnswerMatches`,
  `Normalizing.StoredFinishCanDiffer`); on Gemini streams it never does
  (`Normalizing.GeminiStoresWhatWasRead`).
- The two Bedrock readers disagree when an unknown stop reason is followed by a known
  one, or when an unsupported block appears (`Bedrock.TranslationAgreesIff`,
  `StopOverwrittenExample`, `UnsupportedBlockExample`).
- The policy high-water mark can go down when a process is killed between rename and
  directory sync, started again, and power is lost before the rename reaches the disk:
  a start adopts the file without syncing it. `PolicyStores.StartIsSafeIff` gives the
  exact condition, `RollbackAfterTwoCrashes` the run. With crashes of one kind only it
  holds always.
- Two requests with one key can be at a provider together, exactly when a begin for that
  key was refused for room or found the entry of a request still in flight expired: over
  all interleavings nothing else leads there (`Runs.TwoHoldersMeanUnguarded`), and each
  of the two does (`Runs.RefusedKeyIsSentTwice`, `Runs.ExpiredKeyIsSentTwice`). The
  source documents the full store. Expiry does it exactly if a request may last longer
  than the time to live less one second, since stamps are whole seconds
  (`Expiry.ExpiryNeverSharesIff`); the configuration accepts timeouts of up to 90 seconds
  with a time to live of one.

The batching bound is tight rather than wrong: bodies of decodable events up to a size
fit the receiver's 65536 bytes exactly if that size is at most 7981
(`Spools.EveryBodyFitsIff`), the delivery loop admits 8192, and no event the gateway
writes is longer than 1600 (`EventSizes.OwnEventsFit`).

Where code and documents disagree the model follows the code: docs/API.md says a
`Retry-After` is never waited out and no route is tried twice, while the loop may
repeat a route once; docs/ARCHITECTURE.md names only 429 and 503 as replies that allow
another attempt, while the loop also goes on after 401, 403, 404, account-phrased 400
and 422, a rejected temperature and an empty answer at the ceiling.

## Model

| member | source | states |
|---|---|---|
| `TokenBuckets.TokenBucket.Allow` | internal/gateway/server.go:35-46 | one call refills for the elapsed time up to the burst and spends a token if there is one |
| `TokenBuckets.LevelIsTightestWindow` | internal/gateway/server.go:25-46 | over any run of calls the refilled level is exactly the least room left by any window ending now |
| `TokenBuckets.GrantedIffNoWindowOverdrawn` | internal/gateway/server.go:35-46 | a call is granted if and only if granting it keeps every window within burst + rate x elapsed |
| `TokenBuckets.WindowBound` | internal/gateway/server.go:25-46 | in any window of any run at most burst + rate x elapsed calls are granted |
| `Breakers.TrippedStaysTripped` | internal/gateway/server.go:120-168 | one more failure never untrips either opening rule, though it pushes the oldest outcome out of the window |
| `Breakers.OpenedByResultIsTripped` | internal/gateway/server.go:120-159 | a circuit opened by failures, and not by a requested wait, holds the evidence through any later waits, releases and failures |
| `Breakers.FailedProbeRearms` | internal/gateway/server.go:120-159 | in any run, a failure reported to a circuit that failures opened arms a fresh full wait |
| `Breakers.RecoveryNeedsThreeFailures` | internal/gateway/server.go:120-168 | after a successful probe no run with fewer than three failures and no requested wait reopens the circuit |
| `Breakers.WouldAllowThenAllow` | internal/gateway/server.go:89-118 | what the counting pass saw as available is granted later if nobody claimed it in between |
| `Breakers.AllowClaimsTheProbe` | internal/gateway/server.go:89-118 | a grant was visible to the counting pass, and a granted half-open circuit is withheld from the next caller |
| `Breakers.ProbeIsOut` | internal/gateway/server.go:89-182 | after any run of calls from a closed circuit the probe is out if and only if some allow came when the circuit was open and its wait over, and only allows came after it |
| `Breakers.HistoryIsSinceRecovery` | internal/gateway/server.go:120-168 | after any run the breaker remembers exactly the outcomes reported since the last recovery, a recovery being a success reported while the probe was out; successes count as much as failures |
| `Breakers.SinceExists` | internal/gateway/server.go:120-159 | every run has such a last recovery, or none and then all its outcomes count |
| `Breakers.TrippedIsDown` | internal/gateway/server.go:163-168 | the opening rule is: the last three failed, or at least eight of the last twenty did |
| `Breakers.FailureArmsIff` | internal/gateway/server.go:120-168 | after any run a reported failure arms a fresh fifteen seconds if and only if, with it, the outcomes since the last recovery end in three failures or hold eight in the last twenty, and otherwise leaves the wait alone; a success closes the circuit |
| `Breakers.OpenIffWaiting` | internal/gateway/server.go:89-182 | after any run the circuit is open if and only if a wait was asked for or such a failure came, and no success since |
| `Breakers.CooldownNeverShortens` | internal/gateway/server.go:175-182 | a requested wait ends no earlier than asked and no earlier than the one in force, is one of the two, forgets no outcome and ends the claim |
| `Circuits.ShiftInBinary` | internal/gateway/server.go:120-159 | shifting a bit into the 32-bit word is appending an outcome to the list, modulo the word |
| `Circuits.LowBitsCountFailures` | internal/gateway/server.go:163-168 | the ones among the low k bits are exactly the failures among the newest k outcomes, for every k and history |
| `Circuits.Circuit.Allow` | internal/gateway/server.go:89-100 | the object moves as the outcome-list breaker does |
| `Circuits.Circuit.WouldAllow` | internal/gateway/server.go:114-118 | says what Allow would answer, and changes nothing |
| `Circuits.Circuit.Flapping` | internal/gateway/server.go:163-168 | true exactly when a full window of the last 20 outcomes has at least 8 failures |
| `Circuits.Circuit.Record` | internal/gateway/server.go:120-159 | word, slot count and consecutive count follow the list with the outcome appended |
| `Circuits.Circuit.Result` | internal/gateway/server.go:120-159 | word, slot count and consecutive count follow the outcome list, a reported success included, which a successful probe clears; the list and the wait are those `HistoryIsSinceRecovery` and `FailureArmsIff` describe |
| `Circuits.Circuit.Release` | internal/gateway/server.go:169 | gives the probe back without an outcome |
| `Circuits.Circuit.Cooldown` | internal/gateway/server.go:175-182 | gives the probe back and extends a wait as `CooldownNeverShortens` says |
| `Budgets.SummaryDecides` | internal/gateway/budget.go:68-79 | the largest empty and smallest successful budget decide exactly what the list of observations decides |
| `Budgets.ObserveSummary` | internal/gateway/budget.go:110-137 | after one more observation the table is still the summary of the whole history, across TTL gaps and table drops |
| `Budgets.UpdatedWithinLimit` | internal/gateway/budget.go:110-137 | the table never exceeds its limit |
| `Budgets.BudgetTable.Skip` | internal/gateway/budget.go:68-79 | skips exactly when, since the last gap or drop, some result at that budget or above was empty and none at or below it had text |
| `Budgets.BudgetTable.Observe` | internal/gateway/budget.go:110-137 | records a positive budget and keeps the table the summary of the history |
| `Budgets.BudgetTable.ObserveOutcome` | internal/gateway/budget.go:98-105 | records text, and emptiness only at the token ceiling |
| `Budgets.SkipDownwardClosed` | internal/gateway/budget.go:68-79 | whatever was observed, a skipped budget makes every smaller one skipped |
| `Budgets.SuccessLiftsSkip` | internal/gateway/budget.go:110-137 | one success at or below a budget lifts the skip at once |
| `Streams.TakeFrame` | internal/gateway/server.go:1124-1175 | after each frame the flags, the held frame and what was written are functions of the frames so far; it ends or fails exactly on the frames that end or break a stream |
| `Streams.Conclude` | internal/gateway/server.go:1176-1198 | the held report if any, then [DONE]; empty means not one byte was written |
| `Streams.Stream` | internal/gateway/server.go:1090-1199 | success means the written texts concatenate to the provider's and to the recorded text, followed by one final [DONE]; empty means nothing was written; any other ending has no [DONE]; with room for every write the frames alone decide which |
| `Streams.TakeNext` | internal/gateway/server.go:1124-1175 | the callback on the next frame keeps the stream reading on, over, or given up for good |
| `Streams.EndStream` | internal/gateway/server.go:1176-1198 | when no more frames are taken the client has been told what the frames taken say |
| `Streams.ClosedUnique` | internal/gateway/server.go:1124-1175 | a stream ends at one frame only |
| `Streams.ClosedIff` | internal/gateway/server.go:1124-1175 | exactly which frame lists are over and where, frame by frame: no refused frame, no text after a finish reason, no earlier end mark that counts, then [DONE] or an end mark with a finish reason by then |
| `Streams.OpenIff` | internal/gateway/server.go:1124-1175 | and exactly which are still being read |
| `Streams.AnsweredIsClosedIff` | internal/gateway/server.go:1124-1175 | a provider's proper end is recognised if and only if its end mark does not share a frame with a held-back ceiling report |
| `Streams.EmptyAnswerReportedBroken` | internal/gateway/server.go:1124-1198 | a concrete empty answer whose end mark carries the finish reason is never seen to end |
| `Streams.FinishOnEndMarkNeverEmpty` | internal/gateway/server.go:1124-1198 | no stream whose finish reason comes only with the end mark is reported empty |
| `Streams.Replay` | internal/gateway/server.go:1513-1534 | a replayed stream is one chunk with the stored text and [DONE], which delivers that text and finish reason |
| `Streams.StoredAnswerMatches` | internal/gateway/server.go:1176-1199 | the stored text is what the first client read; the stored finish reason is the last one it read if and only if no ceiling report was held and sent after another reason |
| `Normalizing.ReadParts` | internal/gateway/adapter.go:497-504 | the visible text of a Gemini candidate, or a refusal if any part is foreign |
| `Normalizing.NormalizeGemini` | internal/gateway/adapter.go:485-515 | the Gemini case with its loop gives the frame the other statements are about |
| `Normalizing.FinishIsByTable` | internal/gateway/adapter.go:266-276 | the thirteen finish reasons the gateway knows and its word for each; every other string is unknown |
| `Normalizing.NormalMeans` | internal/gateway/adapter.go:365-519 | every event of the three providers is refused, exactly if it is garbled, of an unknown type, foreign, a second choice or of an unknown reason, or is passed on whole: what it said (OpenAI: content then refusal; Gemini: the parts that are not thoughts), its reason by the table, its end mark and its counts |
| `Normalizing.TextIsWhatWasSaid` | internal/gateway/adapter.go:365-519 | the text of any stream without a refused event is what its events said, run together in order |
| `Normalizing.EndMarks` | internal/gateway/adapter.go:378-518 | Gemini's finish reason and end mark are one frame; Anthropic's end mark carries nothing else |
| `Normalizing.EndIsSeenIff` | internal/gateway/adapter.go:378-518 | for every properly ended event stream of OpenAI, Anthropic or Gemini the end is recognised if and only if it is not a Gemini answer that is empty at the ceiling |
| `Normalizing.EmptyIsReportedIff` | internal/gateway/server.go:1124-1198 | an answer empty at the ceiling is reported as empty if and only if the provider is not Gemini |
| `Normalizing.StoredFinishCanDiffer` | internal/gateway/server.go:1124-1198 | an Anthropic event stream whose stored finish reason is not the one its client read last |
| `Normalizing.GeminiStoresWhatWasRead` | internal/gateway/server.go:1124-1198 | on every properly ended Gemini stream the stored finish reason is the one the client read last |
| `Bedrock.Decode` | internal/gateway/bedrock.go:144-193 | the direct reader gives text, finish and usage, or fails, exactly as the whole event list demands |
| `Bedrock.FinishIsByTable` | internal/gateway/bedrock.go:128-138 | the five stop reasons the gateway knows and its word for each; every other string is unknown |
| `Bedrock.DecodedIff` | internal/gateway/bedrock.go:144-193 | exactly which event lists are read, and as what: the deltas run together within the limit, the last stop reason by the table, the last token counts or none |
| `Bedrock.Translate` | internal/gateway/bedrock.go:220-305 | on success exactly the frames of the events; on failure what was written is the deltas of a prefix |
| `Bedrock.TranslatedPieces` | internal/gateway/bedrock.go:220-327 | the frames are non-final deltas followed by one frame that alone reports completion, wherever metadata falls |
| `Bedrock.TranslationPreservesMeaning` | internal/gateway/bedrock.go:144-327 | without unsupported blocks or an overwritten stop reason, reading the translated frames gives the direct reader's text, finish and usage, or both fail |
| `Bedrock.TranslationAgreesIff` | internal/gateway/bedrock.go:144-327 | on every event stream: the two readers agree if and only if it is not readable, does not end in a known reason, or both or neither of those conditions hold |
| `Bedrock.StopOverwrittenExample` | internal/gateway/bedrock.go:144-305 | two stop events on which the direct reader fails and the translator succeeds |
| `Bedrock.UnsupportedBlockExample` | internal/gateway/bedrock.go:144-305 | a stream with an unsupported block that the direct reader answers and the translator refuses |
| `Bedrock.OneStopIsNotOverwritten` | internal/gateway/bedrock.go:144-305 | at most one messageStop is enough for the second condition |
| `Bedrock.ThroughStream` | internal/gateway/bedrock.go:220-327 | through the common streaming path the translated frames end at their last frame with the direct reader's answer, unless that answer is empty at the ceiling, when they never end |
| `Bedrock.StreamEvents` | internal/gateway/bedrock.go:207-215 | from decoded events to client writes: a completed answer is the one the events mean, and with room for every write it is completed exactly if they mean one that is not empty at the ceiling |
| `Routing.JudgeOnwardIsReplayable` | internal/gateway/server.go:821-958 | a reply after which the loop goes on is a 429, 503, 401, 403, 404, an account-phrased 400 or 422, or an empty ceiling answer with nothing written; a repeat is the route's first |
| `Routing.JudgeSettlesAsDue` | internal/gateway/server.go:811-1073 | a stop settles the key as the last reply demands and the client was given exactly what is stored |
| `Routing.JudgeGoesOnIff` | internal/gateway/server.go:811-1073 | the loop stops at a reply if and only if it is not a 429, 503, 401, 403 or 404, not an account-phrased 400 or 422 and not an empty answer at the ceiling; it repeats the route if and only if the reply is a plain 429 with a short stated wait, for the first time, with an attempt left |
| `Routing.JudgeAnswers` | internal/gateway/server.go:811-1073 | what the client is told when it stops, by code: the answer, the stream, 400 for a 400 or 422, 502 for the rest |
| `Routing.JudgeTellsBreaker` | internal/gateway/server.go:811-1073 | what the breaker is told, by code and in order: a failure, a success or neither; then a wait of the stated time, of at least 60 s for an account or refusal code, or none; and a release if there is nothing else |
| `Routing.ReplyMovesBreaker` | internal/gateway/server.go:811-1073 | so paying what is owed moves the breaker as the code says |
| `Routing.StepKeepsInv` | internal/gateway/server.go:715-1088 | every step keeps replays safe, attempts within the cap, at most two attempts per route and two sends per attempt |
| `Routing.StepKeepsSteered` | internal/gateway/server.go:642-1088 | whatever the shared state holds, every step keeps sends to configured routes that are not passed over, in the policy's order, and the response the one the last reply calls for |
| `Routing.StepGoesDown` | internal/gateway/server.go:714-1074 | despite repeated routes every step goes down in (stage, unrepeated routes, routes left, phase), so every request ends |
| `Interleaving.StepProbes` | internal/gateway/server.go:735-1073 | no step leaves a probe behind: one it finds or sets is still answered for by a request afterwards |
| `Interleaving.StepStore` | internal/gateway/server.go:642-664 | only a claim and an ending touch the store, and only under the request's own key |
| `Interleaving.NextKeepsInv` | internal/gateway/server.go:642-1088 | every step of every interleaving, arrivals, time, failed provider checks, restarts, refused and expired keys included, keeps safe replays and bounds, probe ownership and the retry account |
| `Interleaving.NextKeepsKey` | internal/gateway/server.go:642-664 | every step keeps one holder of a key and its recorded ending, as long as that key's own begins are admitted and unexpired, whatever happens to other keys |
| `Interleaving.NextKeepsHolder` | internal/gateway/idempotency.go:198-224 | a key keeps having one holder at most even where entries expire, if none expires under its holder and its begins have room |
| `Runs.EveryReplayIsSafe` | internal/gateway/server.go:715-1074 | in every reachable state, each send that was followed by another got a reply after which nothing can have been kept |
| `Runs.EveryRequestIsBounded` | internal/gateway/server.go:714-810 | attempts at most the cap, sends at most twice the cap, at most two attempts per route, in every reachable state |
| `Runs.EveryRequestIsSteered` | internal/gateway/server.go:642-1088 | in every reachable state each request has asked only configured routes not passed over, in order; and one that has ended has its last reply's response, or a 500, 503 or 504 if that reply would have let it go on |
| `Runs.WithheldIsLeftAlone` | internal/gateway/server.go:1226-1240 | a provider withheld after a failed check is allowed again exactly from a minute later on, or from the end of a longer wait it was already serving |
| `Runs.ProbeHasLiveOwner` | internal/gateway/server.go:89-182 | a set probe always belongs to a request in flight that still answers for that provider |
| `Runs.IdleCircuitIsNotStuck` | internal/gateway/server.go:89-118 | with no request answering for it, a circuit is available exactly when its wait is over |
| `Runs.SenderHoldsKey` | internal/gateway/idempotency.go:198-224 | whoever sends for a protected key is its only holder and the entry is Running with its body hash |
| `Runs.SettledKeyIsFinal` | internal/gateway/idempotency.go:198-243 | a Done or Unknown key whose begins find it unexpired keeps its entry through every later run, restarts included, and no step of that run sends for it |
| `Runs.LaterRequestIsReplayed` | internal/gateway/server.go:642-664 | end to end, after any later run: a request with the key and body of one that ended sends nothing and is given what the first client was given, its replayed writes deliver the same text, an unknown outcome gives 409 and another body 422 |
| `Runs.EndingIsRecorded` | internal/gateway/server.go:811-1073 | whatever interleaves, the four ambiguous endings of a request with a protected key leave Unknown, and an answer leaves Done with what the client was given |
| `Runs.GivenBackKeyIsFree` | internal/gateway/idempotency.go:235-243 | a request whose last reply leaves nothing to record removes its key as it ends, and the next request with that key claims it and goes to its routes |
| `Runs.TwoHoldersMeanUnguarded` | internal/gateway/idempotency.go:198-224 | over every interleaving, two requests hold one key at once only if a begin for that key was refused for room or found the entry of a request in flight expired |
| `Runs.RefusedKeyIsSentTwice` | internal/gateway/idempotency.go:264-289 | from any state in which a begin is refused for room, with any requests in flight and one closed circuit, a run leads to two requests with that key at the provider together |
| `Runs.ExpiredKeyIsSentTwice` | internal/gateway/idempotency.go:245-258 | from any state in which a request is at a provider and a begin finds its entry expired, with any others in flight and one closed circuit, a run leads to both at the provider together |
| `Expiry.ExpiryNeverSharesIff` | internal/gateway/idempotency.go:198-289 | entries that expire by their whole-second stamps never make two requests share a key, over all runs from all stores, if and only if every request ends at least a second before its entry may expire |
| `Expiry.RunKeepsStamps` | internal/gateway/idempotency.go:245-289 | in such runs the entry of a key in use is stamped with the second its one holder claimed it in |
| `Runs.BeyondIsTotal` | internal/gateway/server.go:738-754 | the counter of attempts beyond the first is the total over all requests of the process |
| `Runs.RetriesAreMetered` | internal/gateway/server.go:738-754 | across all interleaved requests of a process, attempts beyond each one's first are at most rate x (1 + elapsed) |
| `Runs.RetriesMeteredInWindow` | internal/gateway/server.go:738-754 | in any window between two states of one process they are at most rate x (1 + elapsed), and one for each token already held at its start |
| `Idempotency.IdemStore.Write` | internal/gateway/idempotency.go:264-289 | succeeds exactly for a key that has a file, or within the limit for a new one; used and count stay the sum and number of the files |
| `Idempotency.IdemStore.Begin` | internal/gateway/idempotency.go:198-224 | refuses another body, replays an answer and reports a conflict exactly on an entry that is not older than the time to live, and otherwise claims the key if it has a file or there is room; is the machine's first step |
| `Idempotency.IdemStore.Finish` | internal/gateway/idempotency.go:229-233 | replaces a key's own entry always, and stores a new one only within the limit |
| `Idempotency.IdemStore.Release` | internal/gateway/idempotency.go:235-243 | removes exactly this key, and the counters follow |
| `Chats.Gateway.PrePass` | internal/gateway/server.go:687-706 | a route is passed over if and only if it could be asked and is hinted, and some other that could be asked is not hinted; so someone who could be asked is left |
| `Chats.Gateway.TakeToken` | internal/gateway/server.go:738-753 | a retry token and the jitter, or the machine's early stop with the probe given back: 503 with less than one token left, 504 when the caller gave up |
| `Chats.Gateway.SettleStatus` | internal/gateway/server.go:821-958 | by code: stops unless it is 429, 503, 401, 403, 404 or an account-phrased 400 or 422; answers 400 for 400 and 422 and 502 for the rest; repeats exactly at a short first stated wait of a plain 429; and moves the breaker as the code says, each a step of the machine |
| `Chats.Gateway.SettleReply` | internal/gateway/server.go:811-1073 | each reply pays its breaker calls, moves the breaker as its kind and code say, and stops exactly at the replies that do not go on, as the machine's verdict does |
| `Chats.Gateway.Attempt` | internal/gateway/server.go:754-810 | one counted attempt with at most one resend without the temperature, as machine steps; its sends are for this route, and there is none only if a request could not be built |
| `Chats.Gateway.Receive` | internal/gateway/server.go:970-1036 | a streamed reply is what the provider's bytes or Bedrock's events say, and its text what the provider said |
| `Chats.Gateway.Round` | internal/gateway/server.go:715-1074 | one turn of the loop goes on to the next route, repeats this one for the first time, or ends; a route that can be asked is sent to before the loop moves on, no other breaker moves, and an end without an answer has its reason |
| `Chats.Gateway.RouteLoop` | internal/gateway/server.go:714-1088 | the loop is a run of the machine from the first route to a decided response, terminates, and attempts some route if any unskipped one is routable; over distinct providers no routable route is left behind by a later one, and a 503 with attempts and a token left means every routable route was sent to |
| `Chats.Gateway.Plan` | internal/gateway/server.go:687-1088 | the counting pass and the loop over its routes: the same in terms of the state the request found |
| `Chats.Gateway.BeginKey` | internal/gateway/server.go:642-664 | ends early exactly when the store holds an unexpired entry, with 422, 409 or the stored answer as the entry says; otherwise claims the key if there is room |
| `Chats.Gateway.CloseKey` | internal/gateway/server.go:656-664 | records the settlement or gives the key back, and touches no other key |
| `Chats.Gateway.Fulfil` | internal/gateway/server.go:665-1088 | from the claimed key to the response: a run of the machine, someone contacted if anyone is routable, failing over as `Chat` does, the key settled as the last reply demands |
| `Chats.Gateway.Chat` | internal/gateway/server.go:642-1088 | a whole request is a run of the machine in order of time: safe replays, bounds, what the store says and nothing sent for a live key, someone contacted if anyone is routable, exactly the hinted routes passed over while another can be asked, sends in policy order to configured routes not passed over, the response its last reply calls for, no route that could be asked left out while there are attempts and tokens, and the key settled as the last reply demands and stamped no earlier than the last step |
| `Chats.UnansweredAskedEveryone` | internal/gateway/server.go:714-1088 | with attempts and a token left, nothing cancelled and everything buildable, a request whose last reply goes on has a send for every route that could be asked and was not passed over |
| `Embedding.PlayIsRun` | internal/gateway/server.go:642-1088 | the steps of one request, in order of time, are steps of the interleaved gateway with the same outcome |
| `Embedding.LoopIsARun` | internal/gateway/server.go:527-1088 | whatever else is in flight, a request the loop carries through leads from a reachable state to a reachable one in which it stands where the loop left it |
| `Embedding.NewGateway` | internal/gateway/server.go:301-303 | a gateway built with new breakers and a full bucket over any store is where the interleaved gateway starts |
| `Embedding.Serve` | internal/gateway/server.go:527-1088 | any sequence of calls from there leads through reachable states, each call ended with its response |
| `Policies.Verify` | internal/gateway/policy.go:107-142 | what it answers with is acceptable and its canonical bytes are signed by a trusted key under an identifier name in an envelope of at most 65536 bytes; with a decoder of 64-bit numbers and a clock within them it answers with every such policy |
| `Policies.VerifyPolicy` | internal/gateway/policy.go:131-141 | the constraints after the signature accept exactly the acceptable policies: bounds, lifetime, one to four routes over distinct known providers |
| `Policies.ReadDecodes` | internal/gateway/policy.go:128-131 | the reader of canonical bytes is a decoder of the kind `Verify` rests on |
| `Policies.ValidatePolicy` | controlplane/policy.py:10-34 | the publisher's check accepts exactly the same ones |
| `Policies.IdentifierIff` | internal/gateway/policy.go:17 | an identifier is one to 128 letters, digits, `_`, `.`, `:` and `-`, the first a letter or digit, by character code |
| `Policies.AcceptableRoutes` | internal/gateway/policy.go:131-141 | the routes of an accepted policy are to the four providers the gateway has breakers for, each at most once |
| `Policies.SignedStaysAcceptable` | internal/gateway/policy.go:107-156 | what the publisher signs a gateway accepts exactly until it expires, and its cache accepts after that |
| `Policies.CanonicalRoundTrip` | internal/gateway/policy.go:56-65 | reading the canonical bytes of any policy over identifier characters returns the policy |
| `Policies.CanonicalInjective` | controlplane/policy.py:36-37 | equal canonical bytes mean equal policies |
| `Policies.MessageDetermines` | internal/gateway/policy.go:124-133 | the signed message determines both the key id and the policy |
| `Policies.AcceptableIsPlain` | internal/gateway/policy.go:107-142 | every acceptable policy is over identifier characters, so the two above apply to it |
| `PolicyStores.NextKeepsConsistent` | internal/gateway/policy.go:146-183 | every step but a loss of power keeps versions rising and the file at or above them |
| `PolicyStores.NextKeepsInv` | internal/gateway/policy.go:146-248 | every step keeps that of the durable file too, if each start is safe |
| `PolicyStores.HighWaterMark` | internal/gateway/policy.go:146-248 | over any run of offers, disk failures, crashes at any step and safe starts, active versions never go down, one version never names two policies, and neither file is behind memory |
| `PolicyStores.LaterVersionIsTaken` | internal/gateway/policy.go:157-183 | a running store takes a policy if and only if it has none or the version is higher, and it is then current and on both disks; every other offer changes nothing |
| `PolicyStores.KilledProcessesOnly` | internal/gateway/policy.go:146-248 | the same for every run without a loss of power, with no condition on starts |
| `PolicyStores.PowerLossesOnly` | internal/gateway/policy.go:146-248 | where every crash is a loss of power, every start is safe |
| `PolicyStores.StartIsSafeIff` | internal/gateway/policy.go:146-156 | versions rise through every run that follows a start and whose later starts are safe, if and only if the file that start adopts would survive a loss of power at its version or later |
| `PolicyStores.RollbackAfterTwoCrashes` | internal/gateway/policy.go:146-248 | a run from an empty directory in which they do not |
| `PolicyStores.UninterruptedRun` | internal/gateway/policy.go:157-183 | an accepted offer without a crash ends in memory and both files, after the rename only, or nowhere, as the disk operations go |
| `PolicyStores.PolicyStore.AtomicFile` | internal/gateway/policy.go:219-248 | which of the two file contents changes when each disk operation fails |
| `PolicyStores.PolicyStore.Apply` | internal/gateway/policy.go:157-183 | a lower version is a rollback, the same version is accepted again or, with other bytes, an equivocation, all without a change; a higher one is the machine's offer, rename and sync and becomes current unless the disk fails; memory moves only when the file is safe |
| `PolicyStores.PolicyStore.Restore` | internal/gateway/policy.go:146-156 | adopts a verified file whatever its age and whatever is current, and changes nothing otherwise |
| `EventStreams.NextLine` | internal/gateway/adapter.go:550-551 | finds the first newline at or after a position |
| `EventStreams.TakeLine` | internal/gateway/adapter.go:541-566 | one line with the byte buffer does what feeding it to the list of open data lines does |
| `EventStreams.ReadSSE` | internal/gateway/adapter.go:537-571 | the scanner loop over bytes delivers the events of the line list, stopped by the callback, either limit or a read error, after which an open event is not delivered |
| `EventStreams.ReadsBackIffFits` | internal/gateway/adapter.go:537-571 | any document of data lines, comments, other fields and blank lines with LF or CRLF reads back as its events in order if and only if it keeps within the limit |
| `EventStreams.StoppingEarly` | internal/gateway/adapter.go:542-556 | a callback that stops has been given a prefix of the events and accepted all but the last |
| `EventStreams.RoundTrip` | internal/gateway/adapter.go:537-571 | printing payloads as data lines and reading them back returns them in order |
| `EventStreams.WrittenChunk` | internal/gateway/adapter.go:575-581 | what the gateway writes for one chunk is one such event |
| `Pipelines.StreamBytes` | internal/gateway/server.go:1106-1199 | from provider bytes to client writes: for any bytes, limits reached and a read error anywhere, the client is told what the frames of the whole body say, and a client told that the answer is over has read exactly what the provider said up to its end mark |
| `Pipelines.DocumentIsStreamed` | internal/gateway/adapter.go:537-571 | any document within the limits is streamed as the events it means |
| `Spools.InsertAllKeeps` | controlplane/app.py:427-436 | the first row for an id stays, every inserted id has a row, and rows come only from what was inserted |
| `Spools.NextKeepsInv` | internal/gateway/telemetry.go:684-790 | every emit, write, post, late arrival, removal and restart keeps each event placed and the gauges exact |
| `Spools.Conserved` | internal/gateway/telemetry.go:684-1000 | over every run each event emitted is queued, on disk, in the table unchanged, or in a drop counter, unless a process was killed with it queued; used and count equal the files and keep within their caps; processes that drain their queue lose nothing |
| `Spools.FittingRunDropsNothing` | internal/gateway/telemetry.go:684-790 | nothing is dropped in a run whose events would all fit the caps and the queue at once, unless the control plane refuses one |
| `Spools.RowsAreFinal` | controlplane/app.py:276-284 | however often an event is sent again its row is the first one and never changes |
| `Spools.BatchesExact` | internal/gateway/telemetry.go:826-866 | a tick's batches are the events read, in order, each as short as it can be, all but the last ready to send |
| `Spools.BuildBody` | internal/gateway/telemetry.go:875-883 | the body loop gives the joined array |
| `Spools.BodyBound` | internal/gateway/telemetry.go:811-883 | for every directory each body holds at most 200 events and 57343 + largest + 199 + 13 bytes |
| `Spools.EveryBodyFitsIff` | controlplane/app.py:155-164 | every body of every directory of decodable events up to a size fits the receiver's 65536 if and only if that size is at most 7981 |
| `EventSizes.EventIsShort` | internal/gateway/telemetry.go:522-637 | no event the gateway writes is longer than 1600 bytes |
| `EventSizes.OwnEventsFit` | internal/gateway/telemetry.go:811-883 | so none is skipped for its length and every body built from them fits |
| `Delivery.ControlPlane.Telemetry` | controlplane/app.py:276-284 | 422 and no row, or 200 and one row, the first |
| `Delivery.ControlPlane.TelemetryBatch` | controlplane/app.py:422-440 | inserts and names exactly the elements that pass, one row per id |
| `Delivery.Measure` | internal/gateway/telemetry.go:672-681 | the recovery loop counts the files and their bytes |
| `Delivery.Telemetry.Reopen` | internal/gateway/telemetry.go:663-683 | is the machine's restart |
| `Delivery.Telemetry.Emit` | internal/gateway/telemetry.go:684-697 | queued exactly while the queue has room, and otherwise counted as dropped; is the machine's emit |
| `Delivery.Telemetry.Persist` | internal/gateway/telemetry.go:777-790 | the next event of the queue is on disk exactly if it keeps within the byte cap and 10000 files, and otherwise counted as dropped; is the machine's write |
| `Delivery.Telemetry.Drain` | internal/gateway/telemetry.go:744-760 | at an orderly end everything queued goes through Persist |
| `Delivery.Telemetry.Remove` | internal/gateway/telemetry.go:993-1000 | removes one file and corrects the gauges; uncounted only if the event is in the table |
| `Delivery.Telemetry.SendOne` | internal/gateway/telemetry.go:946-978 | no answer, an unreadable one, a status below 400 or from 500 on, or 429: the event stays, uncounted; any other 4xx: it is given up and counted once; the control plane's own answer: it is removed, and counted exactly if it was not taken |
| `Delivery.Telemetry.SendPerEvent` | internal/gateway/telemetry.go:945-981 | removes a prefix of the batch in order, counting exactly what was refused; it stops at the first answer that is lost, garbled, below 400, 429 or from 500 on, and every answer before that one was the control plane's or another 4xx |
| `Delivery.Telemetry.Send` | internal/gateway/telemetry.go:871-941 | a lost answer, a status other than 404 and 405 or an over-long body removes nothing; the control plane's answer removes the batch and counts what it did not take; a garbled answer, 404 or 405 switches to one post per event |
| `Delivery.Telemetry.RemoveAll` | internal/gateway/telemetry.go:921-940 | removes a whole answered batch and counts exactly what was not taken |
| `Delivery.Telemetry.Deliver` | internal/gateway/telemetry.go:826-866 | reads what is present, short enough and decodable, and sends at most five batches, the first of those; with a healthy control plane and fitting bodies it removes exactly the first five |
| `Delivery.ReadableAre` | internal/gateway/telemetry.go:826-853 | the events read are exactly the listed files that are there, at most 8192 bytes long and decodable |
| `Histograms.Observe` | internal/gateway/telemetry.go:187-195 | adds one observation to every figure |
| `Histograms.OfSnoc` | internal/gateway/telemetry.go:187-195 | adding observations one by one gives, and only gives, the histogram of the whole list |
| `Histograms.Differenced` | internal/gateway/telemetry.go:1145-1161 | the clamped differences of the readings, whatever they are |
| `Histograms.DifferencedIsExact` | internal/gateway/telemetry.go:1145-1161 | for any observations and increasing bounds, exactly the number in each (lower, upper] and above the last, summing to the count |
| `Histograms.SumIsCountIff` | internal/gateway/telemetry.go:1145-1161 | for any readings the exported counts sum to the total if and only if no reading is behind the one before it |
| `Histograms.BoundsIncrease` | internal/gateway/telemetry.go:185-309 | the shipped latency and token bounds increase, so the two above apply to them |
| `Histograms.RouteTable.Get` | internal/gateway/telemetry.go:222-248 | the key itself if the table has it or fewer than 128 keys, and otherwise its provider's without the model; a fold is counted |
| `Histograms.Record` | internal/gateway/telemetry.go:280-296 | the latency sample always; the input and the output samples, each in its own distribution, unless both are zero |
| `Histograms.RouteTable.ObserveRoute` | internal/gateway/telemetry.go:269-297 | keeps each key's distributions those of the samples recorded under it, every figure of latency and of tokens per provider and outcome equal to that of the raw observations, and at most 128 keys with a model |
| `Histograms.ModelledStays` | internal/gateway/telemetry.go:222-248 | a key with a model is added only while the table is smaller than 128 |
| `Histograms.TableIsBounded` | internal/gateway/telemetry.go:197-207 | the whole table is at most 128 keys and one for each provider and outcome seen |
| `Histograms.Export` | internal/gateway/telemetry.go:1076-1108 | one differenced histogram for each key that has a latency or at least one token sample |
| `Histograms.ExportPerKey` | internal/gateway/telemetry.go:1145-1161 | what is exported for a key counts exactly the samples recorded under it in each interval, and sums to their number |
| `Histograms.ExportIsExact` | internal/gateway/telemetry.go:1145-1161 | summed over the keys of a provider and outcome, folded ones included, what is exported counts exactly the raw samples in each interval |

## Left out

- Cryptography and hashing: Ed25519, SHA-256 and SigV4 are uninterpreted; body hashes and key hashes are taken not to collide.
- Floating point: the token buckets' float64 arithmetic is over real numbers.
- The provider check itself: that it fails, and withholds the provider for a minute, is a step of the interleaved gateway.
- The text of the frames the Bedrock adapter writes: its events reach the streaming path as frames, without the reader's limit of 1048576 bytes for one of them.
- HTTP, TLS, timers, contexts: replaced by parameters for replies, cancellation and non-decreasing clock readings.
- JSON decoding, provider request building (`upstream`, `ParseChat`, `bedrockBody`) and the whole-body cases of `normalize`: field plumbing; a streamed event is modelled from its decoded fields on.
- Phrase lists for account and temperature errors: predicates on the body.
- Temperature and prompt-cache tables and the capture store: smaller variants of the budget table and the idempotency accounting. Whether the temperature is omitted is a parameter.
- Fleet health: the pre-pass is proved for any hint predicate, so which routes it and the budget table name does not matter to routing.
- `retryAfter` parsing, including its 64-bit wrap-around: the stated wait is any number.
- The wrong-content-type branch of `stream`, which writes a 502 body; client-trace statements are for accepted content types.
- The sweep of expired entries: an expired entry is one that a begin does not count.
- Partial file writes and disk errors in the idempotency store and the spool.
- Delivery.Telemetry.Emit: requires an id that was not used before; ids are 128 random bits.
- Gauge updates between the write of a spool file and the counter that follows it: a write and its counters are one step.
- Concurrent observation during export; `Histograms.SumIsCountIff` covers skewed readings.
- `health_sync`, savings, audit, readiness, metrics text, logging, configuration, policy polling and expiry watching: wrappers and formatting.
- controlplane/honeycomb.py, alerting.py, prometheus.py, replay.py, migrate.py, scripts and deployment files.
