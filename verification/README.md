# Verified model of the gateway's streaming tool turns

This project models how the gateway turns a provider's event stream into a Responses
stream, keeps a finished tool turn, and plays it back to the provider when the client
returns the results. It states what every step of that protocol keeps and proves it for
all inputs, all runs and all interleavings. Nothing here was executed: the statements are
checked by Dafny's verifier, with `dafny verify dfyconfig.toml`.

## How the files fit together

Where the source updates an object, there is a class with the same fields and methods
(`BridgeStreamDecoder`, `StreamSession`, `ContinuationStore`, `SseDecoder`), and where it
runs a loop over local state, a method (`JsonScanner`, `ToolResults`, `Replay`,
`ResponsesHandler`). Each method is proved equal to a step function on values, and the
theorems are about those functions.

- `SseSpec`, `SseDecoder`, `SseTheorems`, `SseRetry`: bytes to server-sent events, against a reference
  reading that splits lines first and knows no limits.
- `DecoderSpec`, `DecoderRun`: the decoder, one provider event at a time, and its runs.
  `Protocol` is a monitor of the event stream that knows neither of its two neighbours.
  `DecoderSafety`, `DecoderFinish`, `DecoderTheorems` prove that every run is legal for the
  monitor; `DecoderEffects`, `DecoderContent` what a completed run contains; `DecoderGuards`
  the completeness of the pre-validation; `DecoderBudget`, `DecoderCaps` the budgets;
  `DecoderTurn` and `DecoderOffers` when a finished turn is offered.
- `SessionSpec`, `WireGrammar`: the session, and an automaton over its frames. The plain
  grammar orders the frames; the strict one also adds up the deltas of each item.
  `SessionSafety`, `SessionHandlers`, `SessionTheorems`, `SessionEscapes` relate the two;
  `SessionShape` says what holds even outside the grammar.
- `Pipeline`, `PipelineTheorems`, `SessionCost`, `Delivery`, `PipelineExamples`: the
  decoder's output fed to a session.
- `ContinuationSpec`, `ContinuationSafety`, `ContinuationSweep`, `ContinuationSteps`,
  `ContinuationTheorems`, `ContinuationRuns`: the store as a state machine over records and
  leases with identities of their own, so that a stale lease and a newer record under the
  same key are different things. Time is an argument of every operation and may run
  backwards; the order in which maps are walked is arbitrary.
- `HandlerSpec`, `HandlerTheorems`, `HandlerFrames`, `ToolTurns`, `RoundTrip`: the event
  loop of the request handler, and the way from one request to the next.
- `JsonScanner`, `JsonTheorems`: the structural scanner against a definition of JSON values.
- `Bridge` and `Sums` hold what they share.

Strings are sequences of bytes. Clocks, identifiers, write failures, cancellations, JSON
coding and the wrapping of patch arguments are parameters; what is assumed of them stands
in the predicates `ConfigOk`, `InputOk`, `SessionMatches`, `ConfigValid` and `Utf8Facts`.

## Findings

1. `internal/codex/stream.go:608-610` closes an item that was never announced: a tool item
   is registered, its identity no longer fits the aggregate budget, and the limit path
   writes the done frames of an item without an added frame.
   `SessionTheorems.WireGrammarExact` shows that in a run without write failures the frames
   leave the plain grammar exactly if the guard `Unannounced` holds at some call, and
   `SessionEscapes.UnannouncedExample` gives a run of two calls. Fed by the decoder under
   limits no larger than the session's, this cannot happen (`Pipeline.NoEscape`).
2. `internal/codex/stream.go:698-707` lets a completion replace streamed arguments by
   different ones, so that the done frame contradicts the deltas.
   `SessionTheorems.WireGrammarExact` shows that this is the only other way out of the
   strict grammar, under the guard `Diverges`; `SessionEscapes.DivergesExample` gives a run
   of four calls. The decoder never sends such a completion.
3. `internal/opencodego/stream.go:884-886` marks the turn as final before the last event is
   queued. If exactly that event no longer fits, the stream ends in a failure and
   `PendingTurn` offers the turn all the same.
   `DecoderOffers.OfferedAlthoughFailedInRun` gives the window exactly, for every run, one
   event overhead wide, and `DecoderTurn.OfferedAlthoughFailedExample` an input that hits
   it. The handler is not misled: it saves a turn only on the completed event.
4. The session charges the arguments of a completed call a second time
   (`internal/codex/stream.go:692-694`), the decoder does not. A run that the decoder
   completes within its budgets can therefore stop at the session's limit.
   `SessionCost.StreamOutcome` shows that it does so exactly if the charges of its events,
   summed by `SessionCost.SessionCost`, exceed the session's aggregate limit, and
   `PipelineTheorems.PipelineExactly` that this can only be at a completion, or at arguments
   that follow one. `PipelineExamples.LimitExample` is such a run: one call with 400 argument
   bytes and 800 bytes on both sides, of which the session needs 837.
5. The decoder passes the provider's call ids on without looking into them
   (`internal/opencodego/stream.go:619-624`). `SessionCost.StreamOutcome` shows that a run
   without write failures reaches the session's invalid transition exactly if one of the
   released calls is announced under an id that is no valid stream value;
   `PipelineExamples.BadIdExample` is such a run, with a line break for an id.
6. Server-sent events: the retry field is read by an integer parser
   (`internal/opencodego/sse.go:312-322`), where section 9.2.6 of the WHATWG HTML Standard
   takes ASCII digits only. `SseRetry.RetryDepartsExactly` shows that the two differ exactly
   for accepted signs (plus before digits, minus before zero) and for numbers beyond the
   longest duration; `SseRetry.PlusFive` and `SseRetry.TenBillionSeconds` are one value of
   each kind. Further, events without data are skipped, an input that ends inside an event
   ends in a sticky error, and the limit checks inside the field parser can never fail,
   because the line reader has made them already (`SseTheorems.LineChecksRedundant`).

## Model

| member | source | states |
|---|---|---|
| `PipelineTheorems.PipelineExactly` | internal/codex/stream.go:328-424 | for every upstream response, feeding the decoder's events to a started session reaches an invalid transition exactly if a call is announced under an id that is no valid stream value while the session runs; otherwise it ends with the decoder's terminal event, a write failure, or the limit at a completion or at arguments after one; the frames stay in the strict grammar |
| `PipelineTheorems.PipelineSafe` | internal/codex/stream.go:506-777 | with valid released ids no event of any run meets an invalid transition |
| `SessionCost.StreamOutcome` | internal/codex/stream.go:1007-1062 | what the decoder releases alone decides how the session ends, unless a write fails: in an invalid transition exactly if a released id is no valid stream value, else at the limit exactly if the charges of the events exceed the aggregate limit, else with the decoder's terminal event; with reliable writes nothing else can happen |
| `SessionCost.FeedReliable` | internal/codex/stream.go:1109-1115 | without a failing write no feed marks the session as failed |
| `PipelineExamples.LimitExample` | internal/codex/stream.go:692-694 | a run that the decoder completes within 800 bytes and that a session with the same limit stops |
| `PipelineExamples.BadIdExample` | internal/opencodego/stream.go:619-624 | a run that the decoder completes and whose call id the session refuses |
| `Delivery.ResponseShowsAll` | internal/codex/stream.go:875-963 | when a completed run is accepted to its end, the completed frame holds exactly one item per call and per choice that spoke: first id, joined name and joined (for custom tools unwrapped) argument fragments, and the joined content of the choice over all chunks |
| `Pipeline.NoEscape` | internal/codex/stream.go:575-619 | no legal event closes an unannounced item or replaces streamed arguments, given limits that fit |
| `DecoderTheorems.OutputLegal` | internal/opencodego/stream.go:304-371 | every run yields a legal event stream ended by one terminal event, with totals within the decoder's own limits |
| `DecoderTheorems.OneTerminal` | internal/opencodego/stream.go:304-371 | only the last event of a legal stream can be terminal |
| `DecoderTheorems.ToolEventsMeanCompleted` | internal/opencodego/stream.go:796-887 | all or nothing: a run that releases any tool-call event ends in Completed |
| `DecoderTheorems.StartedFirst` | internal/opencodego/stream.go:401-420 | ResponseStarted comes first, once, or the stream is a single failure |
| `DecoderContent.FragmentConservation` | internal/opencodego/stream.go:598-659 | a completed run releases the plain events of its chunks and then, in (choice, tool) order, each call started once and completed once, with the id of its first fragment and its name and argument fragments joined across interleaved chunks, under a declared name and an id of its own |
| `DecoderContent.TurnMatchesStream` | internal/opencodego/stream.go:894-944 | the turn kept for the continuation lists exactly the calls the stream announced, in the same order |
| `DecoderGuards.PreValidationComplete` | internal/opencodego/stream.go:534-596 | a chunk that passes the pre-validation is consumed as if the index, type, count, name and id checks of the consumption were not there; a rejected chunk leaves the state untouched |
| `DecoderCaps.AlwaysAccounted` | internal/opencodego/stream.go:729-784 | after any number of provider events, in ended and failed runs too, outputBytes is the retained text plus all argument bytes, and call count, indexes, name, id, argument, text, reasoning, output and aggregate caps hold; the run continues from that state alone |
| `DecoderCaps.RunResumes` | internal/opencodego/stream.go:304-371 | a run over two parts of an input is the run over the first, then the run of the reached state over the second |
| `DecoderBudget.AcceptedBound` | internal/opencodego/stream.go:348-370 | each accepted chunk raises the aggregate by at least 64 bytes, so accepted chunks times 64 stay within what was left |
| `DecoderBudget.EndlessInputCutOff` | internal/opencodego/stream.go:729-735 | after more than maxAggregate / 64 events nothing the provider still sends can change the output |
| `DecoderOffers.TurnOfferedInRun` | internal/opencodego/stream.go:884-900 | after any run a turn is offered exactly if the end marker met a running decoder with a deliverable tool turn whose batch fits the aggregate |
| `DecoderOffers.OfferedAlthoughFailedInRun` | internal/opencodego/stream.go:884-886 | after any run a turn is offered although the stream did not complete exactly if the batch fitted and one event more did not |
| `DecoderOffers.ReachedStreaming` | internal/opencodego/stream.go:304-371 | wherever a run stands before it ends, its released events are legal and its retained text, calls and counters agree |
| `DecoderTurn.TurnOfferedExactly` | internal/opencodego/stream.go:884-900 | the same for one end marker, taken in any such state: when the turn is offered and when the stream completes |
| `DecoderTurn.OfferedAlthoughFailed` | internal/opencodego/stream.go:884-886 | the window for one end marker, taken in any such state |
| `DecoderTurn.OfferedAlthoughFailedExample` | internal/opencodego/stream.go:884-886 | an input that ends in that window |
| `BridgeStreamDecoder.SortedToolKeys` | internal/opencodego/stream.go:946-964 | the insertion sort yields the one strictly increasing list of all keys, whatever the map order |
| `BridgeStreamDecoder.Decoder.Next` | internal/opencodego/stream.go:304-371 | each call hands out the next event of what the run still has to release, and the end when nothing is left |
| `BridgeStreamDecoder.Decoder.PendingTurn` | internal/opencodego/stream.go:894-944 | the turn is the one the theorems about finished states speak of |
| `DecoderRun.KeyOrderUnique` | internal/opencodego/stream.go:946-957 | there is only one such order, so releasing does not depend on map iteration |
| `SessionTheorems.WireGrammarExact` | internal/codex/stream.go:1064-1107 | after any calls in any order, in the grammar or not, the frames are numbered 0, 1, 2, ... and the items stand at their output indexes; without write failures the frames leave the grammar exactly if one of the two guards held at some call |
| `SessionTheorems.GrammarEnds` | internal/codex/stream.go:461-481 | frames in the grammar begin with created and in_progress, which occur nowhere else, and only the last one can be terminal |
| `SessionEscapes.UnannouncedExample` | internal/codex/stream.go:608-610 | a run of two calls that closes an item never announced |
| `SessionEscapes.DivergesExample` | internal/codex/stream.go:698-707 | a run of four calls whose done frame contradicts the deltas |
| `StreamSession.Session.Handle` | internal/codex/stream.go:328-424 | the session in place takes the step the theorems are about |
| `ContinuationRuns.EveryRunFromNew` | internal/opencodego/continuation.go:175-198 | in every state reachable by saves, lookups, claims, commits, aborts, cleanups and a close, at any times and in any map order, the index is the inverse of the records' call ids, disjoint from the tombstones, the byte total is the sum of the sizes, all capacities hold, and leases and records obey the lease protocol |
| `ContinuationRuns.LeaseProtocol` | internal/opencodego/continuation.go:425-443 | a Consuming record is the one its key finds and has exactly one unfinished lease; a Pending one has none |
| `ContinuationRuns.StaleLease` | internal/opencodego/continuation.go:516-530 | finishing any lease removes or changes at most the record it was granted for, never a newer one under the same key |
| `ContinuationRuns.CommittedAtMostOnce` | internal/opencodego/continuation.go:626-677 | over any run every record, there at the start or saved on the way, is committed at most once |
| `ContinuationRuns.CommittedFromNew` | internal/opencodego/continuation.go:626-677 | in the whole life of a store each record has been committed exactly once if it is consumed and never otherwise |
| `ContinuationRuns.LifetimeBound` | internal/opencodego/continuation.go:484-504 | no cycles of claim and abort keep a record Pending past its original expiry, nor at all past that plus lease time and grace, with no assumption on the clock |
| `ContinuationRuns.LifetimeFromNew` | internal/opencodego/continuation.go:484-504 | the same for every record that any operation in the life of a store has saved |
| `ContinuationRuns.WaitingTurnIsAccepted` | internal/opencodego/continuation.go:376-443 | a waiting turn is claimed by one result per call, in any order, before its expiry, whatever happened in between short of another claim for these calls, a close or the expiry |
| `ContinuationRuns.SavedTurnIsAccepted` | internal/opencodego/continuation.go:250-310 | a saved turn is leased to the results that answer it, and the lease finds the normalised turn |
| `ContinuationTheorems.BeginExactly` | internal/opencodego/continuation.go:376-443 | Begin succeeds exactly if the store is open and the results are one per call, with matching kinds, of one Pending record before its expiry; a failed Begin changes nothing beyond the cleanup |
| `ContinuationTheorems.ApplyKeeps` | internal/opencodego/continuation.go:200-241 | every operation keeps the whole invariant |
| `ContinuationSteps.SaveCleanOutcome` | internal/opencodego/continuation.go:250-310 | after the cleanup a save either stores the normalised turn as a new Pending record with its expiry, within every capacity, or changes nothing |
| `ContinuationSteps.RecordForFresh` | internal/opencodego/continuation.go:445-482 | after a cleanup at the same time the expiry branches are dead: a lookup changes nothing and fails exactly for an id no record retains |
| `ContinuationSweep.CleanupExact` | internal/opencodego/continuation.go:484-504 | a cleanup drops exactly the overdue records and keeps exactly the tombstones that still count; beside these it leaves tombstones for the expired calls only, and for all of them unless the map is full; what is left otherwise does not depend on the order of the walk |
| `ContinuationSafety.RemovedExactly` | internal/opencodego/continuation.go:516-530 | removing a retained record deletes exactly its own index entries and its size, so the clamp of a negative total is dead |
| `ContinuationSafety.TombstonedAll` | internal/opencodego/continuation.go:506-514 | if the old and the new ids together fit, every id of an expired turn leaves a tombstone with the given end |
| `ContinuationSafety.TombstonedOrFull` | internal/opencodego/continuation.go:506-514 | an id of an expired turn goes without a tombstone only when the map is full |
| `ContinuationStore.Store.SaveContext` | internal/opencodego/continuation.go:250-310 | the whole new state of the maps, the tombstones and the byte total, and the error, for some order of the cleanup |
| `ContinuationStore.Store.BeginLease` | internal/opencodego/continuation.go:376-443 | the whole new state, the granted lease and the error |
| `ContinuationStore.Store.FinishLease` | internal/opencodego/continuation.go:626-677 | the whole new state and the error of a commit or an abort |
| `ContinuationStore.Store.CleanUp` | internal/opencodego/continuation.go:484-504 | walking the record map in any order does what the sweep over that order does |
| `RoundTrip.RequestCommitsFirst` | internal/server/responses.go:189-259 | in every run of a request with a lease, the frames written before the commit are created, in_progress or failed; without a commit there are no others |
| `RoundTrip.RequestSavesFirst` | internal/server/responses.go:216-233 | a completed frame with tool items is preceded by the saving of a turn with exactly these call ids and kinds, whatever is canceled or refused on the way |
| `RoundTrip.ToolTurnRoundTrip` | internal/server/responses.go:88-97 | after such a frame, one output per tool item, in any order, translates, is claimed by Begin before the expiry unless another claim came first, and replays for the same model as one assistant message with all calls answered |
| `HandlerTheorems.CommitBeforeOutput` | internal/server/responses.go:236-259 | commit before output, for any event stream that starts properly |
| `ResponsesHandler.ServeStream` | internal/server/responses.go:189-259 | the loop over the session object leaves the frames, the commit point and the saved turn of the model |
| `ToolResults.OrderDoesNotMatter` | internal/opencodego/tool_results.go:26-80 | moving calls before or after their outputs does not change the results |
| `ToolResults.ResultsMatchOutputs` | internal/opencodego/tool_results.go:26-80 | one result per output, in output order, under distinct non-empty ids |
| `ToolResults.TranslateToolResults` | internal/opencodego/tool_results.go:26-101 | the single pass, which patches earlier results, equals the reading in two passes |
| `Replay.ReplayShape` | internal/opencodego/request.go:333-358 | a successful replay is the mapped ordinary messages in order with one block at the first tool item: one assistant message with the stored calls in stored order, then the answers; no other message calls or answers, and the answers' ids are a permutation of the calls' ids |
| `Replay.OutputsAlwaysReplay` | internal/opencodego/request.go:211-295 | requests that bring only outputs, accepted by the translation and by Begin, always replay, given a fitting model and mappable messages |
| `Replay.MapContinuationInputItems` | internal/opencodego/request.go:211-295 | the walk with its sets of seen ids accepts exactly the inputs that fit the stored turn, and returns their replay |
| `JsonTheorems.AcceptsExactly` | internal/codex/request.go:244-360 | the scanner accepts exactly the token lists of one JSON value within nesting, collection and token limits and without repeated keys |
| `JsonTheorems.OneValue` | internal/codex/request.go:244-360 | a token list determines its value |
| `JsonScanner.ValidateDocument` | internal/codex/request.go:244-360 | the loop with its explicit stack gives the verdict those theorems speak of |
| `SseTheorems.DecoderExactly` | internal/opencodego/sse.go:114-171 | on every byte string that can be read to its end the decoder returns what the reference reading returns, except that it stops, after the same events, where an overlong line or event comes before any line that is not UTF-8 |
| `SseTheorems.DecoderRefinesReference` | internal/opencodego/sse.go:114-171 | on every byte string within the limits the decoder returns what the reference reading returns |
| `SseTheorems.LimitHitExactly` | internal/opencodego/sse.go:223-246 | the limits are hit exactly by byte strings in which an overlong line or event comes before any line that is not UTF-8 |
| `SseRetry.RetryDepartsExactly` | internal/opencodego/sse.go:312-322 | the parser of the retry field departs from the standard's rule exactly for accepted signs and for numbers beyond the longest duration |
| `SseRetry.RetryDeparts` | internal/opencodego/sse.go:312-322 | then it takes the number after the sign, and drops the number that is too large |
| `SseRetry.PlusFive` | internal/opencodego/sse.go:312-322 | five to the parser, nothing to the standard |
| `SseRetry.TenBillionSeconds` | internal/opencodego/sse.go:312-322 | a number to the standard, nothing to the parser |
| `SseTheorems.LineChecksRedundant` | internal/opencodego/sse.go:248-288 | the limit checks of the field parser cannot fail |
| `SseTheorems.FramesRoundTrip` | internal/codex/stream.go:1064-1107 | on frames as the session writes them the decoder returns exactly the payloads |
| `SseDecoder.Decoder.Next` | internal/opencodego/sse.go:114-171 | each call hands out the next event still to come, or the result that ended the stream, again and again |
| `Bridge.Utf8ValidHasFacts` | internal/codex/stream.go:294-304 | real UTF-8 validity meets what is assumed of the test |

## Left out

- Listener, HTTP client, headers, deadlines, flushing, host checks, request tracking and shutdown: input and output.
- The watcher goroutine and its timers: an abort reason and a cancellation may strike before any round of the loop.
- Provider JSON decoding, request decoding, schema checks, error tables, tagged models, catalog, configuration editor, credentials, logging, capture and command line: branch-by-branch code or input and output.
- Times stored in records (CreatedAt) and response identifiers: nothing in the model depends on them.
- Failure messages: a failure is its code; where several errors could be reported for one request, the translation and the replay model only that one is.
- ToolRegistrations and CallIDs of a pending turn, and the custom-candidate flag of a call: copies of what the calls already say.
- The size pre-check of a save, and the JSON size itself: `fits` and `encode` are arbitrary functions.
- Records, items and leases are identified by numbers rather than heap objects; two references to one record are two uses of one number.
- The mutexes: every locked method is one atomic step.
- A frame that was written but whose flush failed counts as not written.
- The status test of results and the wrapping of patch arguments are arbitrary functions.
- In the handler the store's answers are arbitrary; that a saved turn really is in the store is the business of the store's own runs, joined in `RoundTrip.ToolTurnRoundTrip`.
- mapInputItems, the mapping of requests that are no continuation, and the fields of ordinary messages other than role and content.
