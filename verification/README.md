# xdog: delegation, streaming, history and protocol models in Dafny

The project models the parts of xdog where state, recursion and interleaving meet, and proves what they keep.

* **Schema delegation.** `JsonValues`, `Schemas`, `SchemaMeet` and `Delegation` model JSON values, schema documents and the
  intersection a child's tool schema goes through. A document holds assertions (type, bounds, const, anyOf, not), enum,
  properties, required, items, additionalProperties, allOf and notes; `Valid` gives its meaning.
* **Responses facade.** `TextCodecs` and `ReasoningIds` are the id codec (UTF-8, base64url of section 5 of RFC 4648 without
  padding, JSON string escapes, an uninterpreted 32-byte hash). `ResponseSpec` is the stream as a state machine over arbitrary
  upstream events, `ResponseLaws`, `ResponseIdentities`, `ResponseDeltas` and `IdentityBuffer` prove what its log keeps, and
  `ResponseStream` is the object itself, method by method, proved equal to the machine.
* **History.** `History` has the grammar of well paired conversations, the two scans that look for boundaries, and their
  agreement. `Compaction` has the token estimates, the plan and the commit.
* **Agent.** `InputQueues`, `QueuePlans` and `AgentInputs` model the two lanes and the tables of identified inputs, the
  write-ahead plan of a change, and the Agent's own methods. `AgentRun` runs the loop on two copies of the history and records
  every model request; an exception and a cancellation leave it in different ways. `AgentRunExamples` has two runs that its exact
  conditions shut out. `ToolBatch` executes the calls of one reply in sequence, or in parallel as a protocol between the owner
  of the batch and its tasks, and `ToolResults` ties its results to what the run records.
* **Protocols.** `ContextQueue` is the durable queue of next-prompt context as crash steps, `EventStream` the bounded stream as
  atomic steps, `CrossLoop` the hand-over to another thread's loop.
* **Snapshots.** `JsonCopy` has the bounds every document passes, `SnapshotCodec` the strict message codec over the permissive
  one, with both decode routes.

What the outside world decides is a parameter: model replies, tool outcomes, hooks, cancellation, completion orders, crashes
and the outcome of disk writes. `ResponseSpec.Env` carries the tool kinds and the source of generated ids. Ratios are exact:
80% of the limit is compared as 5 times the cost against 4 times the limit, half the limit rounds down.

## Where the code differs from what it says

* The intersection says that constraints are never discarded. Two documents that are equal in Python but not in JSON (an enum
  of 1 and one of true) are taken for the same schema. `AgreesOn` says for a pair of schemas and a value whether a comparison
  on the way lost something, `MeetExactly` makes it an equivalence, `EqualityAgrees` is a guard to evaluate before the call.
* A nested empty literal intersection refuses the whole schema although values without that property satisfy both sides
  (`RefusalCanBeTooStrict`); where every common value has to meet the clash the refusal is right (`ForcedClashIsEmpty`).
* An empty `encrypted_content` is not replayed, and ids over 64 characters travel without content.
* Upstream deltas for a block that has ended are still sent after the item was reported done; `DeltasAddUpExactly` has the
  exact condition, `UntamedExample` an upstream.
* The write-ahead plan of a move looks at identified inputs only, the move itself at every queued message; `PlanPredicts` has
  the exact condition, `PlainMessageExample` a state.
* A transform that returns one object for two inputs leaves one of them selected for ever (`SharedObjectOrphans`);
  `ReboundAllIsValid` has the exact condition.
* `replace_messages` with the very same history, while a summary is made, goes unnoticed at the commit but resets the record;
  the dump can then be refused by its own decoder. `RunRestorable` has the exact condition over all runs,
  `ReplacedHistoryMiscounts` a run.
* `steer` and `follow_up` take any message. An assistant message with a tool call is passed on as it is, and the next request
  is made with that call unanswered. `RunAnswered` has the exact condition over all runs, `SteeredCallIsUnanswered` a run.
* A context id can enter the history twice: after a compaction that drops a message whose row still waits, after its id is
  enqueued again, or after two overlapping admissions, because the `uncertain` flag is read when an admission begins and not
  when it commits. `EnteringOnceExactly` has the exact condition over all runs.

## Model

| member | source | states |
|---|---|---|
| Schemas.EqualDocumentsCanDiffer | packages/agent/src/xdog/agent/child_policy.py:50-51 | the two enums [1] and [true] are equal documents in Python and accept different values |
| Schemas.SameButNotes | packages/agent/src/xdog/agent/child_policy.py:87-88 | documents that differ in descriptions, titles, defaults and examples only, at any depth, accept the same values |
| SchemaMeet.Intersect | packages/agent/src/xdog/agent/child_policy.py:43-109 | for every pair: refusal exactly when the two schemas clash somewhere the recursion reaches; otherwise the result accepts nothing the scoped side refuses, and on every value it is the meet exactly when the equality shortcuts met along that value were harmless; the scoped notes stay |
| SchemaMeet.FilterLiterals | packages/agent/src/xdog/agent/child_policy.py:64-71 | always the exact meet; refusal exactly when no candidate is accepted by both sides |
| SchemaMeet.MergeFields | packages/agent/src/xdog/agent/child_policy.py:72-109 | the field-wise merge of two documents without literals is exact in the same sense, and refuses exactly on a clash below |
| SchemaMeet.MergeNamed | packages/agent/src/xdog/agent/child_policy.py:75-84 | every property the parent names ends up with the exact intersection of both sides, through the scoped additionalProperties where the scoped side does not name it |
| SchemaMeet.RestrictScoped | packages/agent/src/xdog/agent/child_policy.py:98-105 | properties only the scoped side names are intersected exactly with the parent additionalProperties, and popped where that is false |
| SchemaMeet.MergeSub | packages/agent/src/xdog/agent/child_policy.py:92-93 | items and additionalProperties are replaced by their exact intersection |
| SchemaMeet.MergeAsserts | packages/agent/src/xdog/agent/child_policy.py:85-95 | on every value, the keywords kept and the conflicting ones together say what both originals say, exactly when equal keywords agree on it |
| SchemaMeet.ConjunctsMean | packages/agent/src/xdog/agent/child_policy.py:94-108 | the extended allOf list says what the extras and both lists say, exactly when equal lists agree on the value |
| SchemaMeet.FieldwiseIsExact | packages/agent/src/xdog/agent/child_policy.py:72-109 | exact keyword by keyword, property by property, is exact on every value |
| SchemaMeet.MergeRequired | packages/agent/src/xdog/agent/child_policy.py:85-86 | the merged required list names exactly what either side requires; where the parent has a list it is in ascending order without repetition |
| SchemaMeet.MeetExactly | packages/agent/src/xdog/agent/child_policy.py:50-51 | the result is the meet of both schemas exactly when no accepted value runs into a comparison that lost something of the parent |
| SchemaMeet.GuardedIsMeet | packages/agent/src/xdog/agent/child_policy.py:50-93 | a guard to evaluate before the call: where every compared pair is told apart by Python or equal but for annotations, the result is the meet |
| SchemaMeet.ItselfAgrees | packages/agent/src/xdog/agent/child_policy.py:50-51 | every document passes the guard against itself, whatever its literals, defaults and examples |
| SchemaMeet.LiteralClashIsEmpty | packages/agent/src/xdog/agent/child_policy.py:64-70 | an empty literal intersection at the top means that no value satisfies both schemas |
| SchemaMeet.ReachedClashRejects | packages/agent/src/xdog/agent/child_policy.py:69-81 | a value that reaches a nested literal clash satisfies at most one of the two schemas |
| SchemaMeet.RefusedExactlyWhenReachable | packages/agent/src/xdog/agent/child_policy.py:43-109 | the intersection is refused exactly when some value reaches an empty literal intersection |
| SchemaMeet.ForcedClashIsEmpty | packages/agent/src/xdog/agent/child_policy.py:64-93 | a refusal whose clash every common value has to meet (at the top, under a required name of a demanded object, in a nonempty demanded array, recursively) means that no value satisfies both schemas |
| SchemaMeet.RefusalCanBeTooStrict | packages/agent/src/xdog/agent/child_policy.py:69-81 | otherwise it can be too strict: two object schemas that differ in the enum of an optional property are refused, and both accept the empty object |
| Delegation.ActionSchemaMeans | packages/agent/src/xdog/agent/child_policy.py:203-205 | the action schema accepts exactly the objects whose action, if there is one, is selected |
| Delegation.ScopedParameters | packages/agent/src/xdog/agent/child_policy.py:193-208 | the advertised schema accepts only what the own schema and the selected actions accept, and exactly what these and the frozen grant accept wherever the first intersection lost nothing, in particular under the guard; withheld exactly for a whole-object enum or a clash in one of the two intersections |
| Delegation.ActionsAgree | packages/agent/src/xdog/agent/child_policy.py:203-205 | narrowing to actions never loses anything |
| Delegation.AdvertiseThenCheck | packages/agent/src/xdog/agent/child_policy.py:193-230 | a call that keeps to the advertised schema of an unchanged tool is refused in two cases only: exactly when a comparison lost something of the grant on these arguments, or actions were selected and none is named; and what is allowed and fits the own schema fits the advertised one |
| TextCodecs.Utf8RoundTrip | packages/ai/src/xdog/ai/proxy_responses.py:52-103 | decoding the UTF-8 encoding of a text gives the text back |
| TextCodecs.Base64Shape | packages/ai/src/xdog/ai/proxy_responses.py:52-54 | unpadded base64url of n bytes has the length section 3.2 of RFC 4648 implies, over its alphabet; 43 characters for a digest |
| TextCodecs.Base64RoundTrip | packages/ai/src/xdog/ai/proxy_responses.py:52-103 | decoding unpadded base64url gives the bytes back |
| TextCodecs.ScanEscaped | packages/ai/src/xdog/ai/proxy_responses.py:71-103 | scanning an escaped JSON string gives the text back and stops at its end |
| ReasoningIds.ClientIdFits | packages/ai/src/xdog/ai/proxy_responses.py:49-68 | every id shown to a client has at most 64 characters, for every upstream id |
| ReasoningIds.ClientIdKind | packages/ai/src/xdog/ai/proxy_responses.py:57-68 | plain, lossless and compact client ids never overlap |
| ReasoningIds.ClientIdInjective | packages/ai/src/xdog/ai/proxy_responses.py:57-68 | two upstream ids share a client id only if both are compact and their digests collide |
| ReasoningIds.EnvelopeRoundTrip | packages/ai/src/xdog/ai/proxy_responses.py:71-103 | reading a printed envelope gives its id and content back |
| ReasoningIds.UnpackEnvelope | packages/ai/src/xdog/ai/proxy_responses.py:71-103 | unpacking the envelope made for an id, under the compact form of that id, gives id and content back |
| ReasoningIds.UpstreamOfClient | packages/ai/src/xdog/ai/proxy_responses.py:105-119 | decoding a client id that is not compact gives the upstream id back |
| ReasoningIds.LosslessIdsAreCanonical | packages/ai/src/xdog/ai/proxy_responses.py:105-119 | a lossless id is accepted exactly when some upstream id encodes to it |
| ReasoningIds.EnvelopesAreCanonical | packages/ai/src/xdog/ai/proxy_responses.py:80-103 | an envelope is accepted exactly when it is the printed envelope of some id and content for that item |
| ReasoningIds.EmitReplayRoundTrip | packages/ai/src/xdog/ai/proxy_responses.py:553-575 | an upstream id of 1 to 64 characters and its content come back through emission and request parsing, exactly when the content is not empty |
| ReasoningIds.LongIdsAreNotReplayed | packages/ai/src/xdog/ai/proxy_responses.py:553-575 | a longer upstream id is shown in compact form without content, and replayed without an origin |
| ResponseSpec.XdogCodecLawful | packages/ai/src/xdog/ai/proxy_responses.py:527-575 | content travels only with a named upstream id and under the client form of that id |
| ResponseSpec.FinishCoherent | packages/ai/src/xdog/ai/proxy_responses.py:712-777 | finishing a block keeps the tables of items, indices and closed blocks consistent, also when it raises |
| ResponseSpec.HandleCoherent | packages/ai/src/xdog/ai/proxy_responses.py:835-883 | one event of the main loop keeps those tables consistent |
| ResponseLaws.AddKeeps | packages/ai/src/xdog/ai/proxy_responses.py:659-691 | announcing a block keeps the log laws; a fresh block gets the next output index |
| ResponseLaws.GrowKeeps | packages/ai/src/xdog/ai/proxy_responses.py:693-710 | a delta keeps the log laws and adds to the streamed text of its own item only |
| ResponseLaws.CatchUpKeeps | packages/ai/src/xdog/ai/proxy_responses.py:726-777 | before the block is closed the streamed text catches up with a final text that extends it |
| ResponseLaws.FinishKeeps | packages/ai/src/xdog/ai/proxy_responses.py:712-777 | finishing a block keeps the log laws, on every way out |
| ResponseLaws.ObserveKeeps | packages/ai/src/xdog/ai/proxy_responses.py:625-652 | observing an event keeps the log laws and remembers what it declares final |
| ResponseLaws.ConcludeKeeps | packages/ai/src/xdog/ai/proxy_responses.py:779-784 | the terminal chunk lists every announced item once, under its announced id |
| ResponseLaws.HandleKeeps | packages/ai/src/xdog/ai/proxy_responses.py:835-883 | every event of the main loop keeps the log laws |
| ResponseLaws.DriveKeeps | packages/ai/src/xdog/ai/proxy_responses.py:828-896 | the rest of a stream, from any reachable state and for any further events, ends in a lawful log |
| ResponseLaws.StreamIsLawful | packages/ai/src/xdog/ai/proxy_responses.py:611-896 | for every upstream sequence, raising or not: numbers 0, 1, 2, ... without gaps, exactly one terminal chunk, last; dense announcements before any mention; one id per item; at most one done; encrypted content only under the client form of the id it came with |
| ResponseLaws.DoneOnce | packages/ai/src/xdog/ai/proxy_responses.py:718-777 | a lawful log reports an item done at most once |
| ResponseIdentities.ConflictExactly | packages/ai/src/xdog/ai/proxy_responses.py:625-652 | observing an event raises exactly when a final part it declares, in its own fields, a snapshot or the terminal message, clashes with the known or announced identity of its block, or two of them disagree about one block |
| ResponseIdentities.NeverRebound | packages/ai/src/xdog/ai/proxy_responses.py:625-652 | otherwise no known identity and no announced item changes, and every declared identity is known |
| ResponseIdentities.ConflictEndsStream | packages/ai/src/xdog/ai/proxy_responses.py:632-896 | over whole runs: a conflicting event ends a running stream with one failed chunk that shows the items as announced; the client gets what it gets when the upstream breaks off just before |
| ResponseIdentities.TwoIdentitiesFail | packages/ai/src/xdog/ai/proxy_responses.py:625-896 | an upstream that declares two identities for one block, in whatever events and fields, never gets past the second |
| ResponseDeltas.DeltasAddUp | packages/ai/src/xdog/ai/proxy_responses.py:693-777 | an upstream that extends no ended block is never late: all deltas of an item are its final text whenever that text extends what was streamed |
| ResponseDeltas.DeltasAddUpExactly | packages/ai/src/xdog/ai/proxy_responses.py:693-896 | on every upstream: all deltas of a finished item are its text followed by the late deltas, so exactly its text unless a handled, nonempty delta met its closed block |
| ResponseDeltas.UntamedExample | packages/ai/src/xdog/ai/proxy_responses.py:693-710 | such an upstream: a text block is ended with "a" and then extended; the item is done with "a", the deltas say "ab" |
| IdentityBuffer.NothingIsLostOrReordered | packages/ai/src/xdog/ai/proxy_responses.py:787-825 | what is yielded and what is still held is the input in order, changed only in the snapshot field of buffered deltas |
| IdentityBuffer.ReasoningWaitsForItsIdentity | packages/ai/src/xdog/ai/proxy_responses.py:787-825 | a thinking event is released only once its block is settled or the stream ends |
| IdentityBuffer.RunIdsGrow | packages/ai/src/xdog/ai/proxy_responses.py:787-825 | along every run of the stream the set of known identities only grows |
| IdentityBuffer.RunWaitsForIdentity | packages/ai/src/xdog/ai/proxy_responses.py:787-896 | so every run releases thinking events only then |
| ResponseStream.ResponseStream.Event | packages/ai/src/xdog/ai/proxy_responses.py:654-657 | one chunk with the next number |
| ResponseStream.ResponseStream.Add | packages/ai/src/xdog/ai/proxy_responses.py:659-691 | the object after add, and what it yields or raises, as the state machine has it |
| ResponseStream.ResponseStream.Delta | packages/ai/src/xdog/ai/proxy_responses.py:693-710 | the same for delta |
| ResponseStream.ResponseStream.CatchUpText | packages/ai/src/xdog/ai/proxy_responses.py:726-760 | the same for the catch-up part of finish |
| ResponseStream.ResponseStream.CloseItem | packages/ai/src/xdog/ai/proxy_responses.py:760-777 | the same for the closing part of finish |
| ResponseStream.ResponseStream.Finish | packages/ai/src/xdog/ai/proxy_responses.py:712-777 | the same for finish: the exception leaves exactly the state the machine predicts |
| ResponseStream.ResponseStream.Terminal | packages/ai/src/xdog/ai/proxy_responses.py:779-784 | the same for terminal |
| ResponseStream.ResponseStream.ObserveReasoning | packages/ai/src/xdog/ai/proxy_responses.py:625-652 | the same for observe_reasoning, with its conflict |
| ResponseStream.HandleReleased | packages/ai/src/xdog/ai/proxy_responses.py:835-883 | handling released events one by one is the fold of the machine |
| ResponseStream.StreamToSse | packages/ai/src/xdog/ai/proxy_responses.py:828-896 | the chunks the client receives are those of the state machine, for every upstream |
| History.AcceptedIsPaired | packages/agent/src/xdog/agent/compaction.py:308-336 | the scan ends without error and with nothing pending exactly on the histories that are sequences of complete batches with unused call ids |
| History.SafeCutIndices | packages/agent/src/xdog/agent/compaction.py:308-336 | an error exactly on the other histories; otherwise exactly the positions that split the history into two well paired halves, in order |
| History.CutsSplit | packages/agent/src/xdog/agent/compaction.py:333-334 | a well paired history splits into well paired halves exactly where the scan has nothing pending |
| History.OpenIdsAreUnanswered | packages/agent/src/xdog/agent/history.py:24-32 | the permissive pending set is exactly the ids of calls without a later result |
| History.HistoryPoints | packages/agent/src/xdog/agent/history.py:18-40 | a point exactly where every call so far has a later result |
| History.PointsAreCuts | packages/agent/src/xdog/agent/history.py:18-40 | on a well paired history the points are exactly the ends of the safe cuts |
| History.ValidateCheckpoint | packages/agent/src/xdog/agent/history.py:43-47 | accepted exactly for a point, or -1 on an empty history |
| Compaction.EstimateMessage | packages/agent/src/xdog/agent/compaction.py:266-287 | the sum of the part estimates, the overhead and the call identity |
| Compaction.EstimateInput | packages/agent/src/xdog/agent/compaction.py:290-305 | the estimate of a request splits into its own cost and a cost of the options that does not depend on it |
| Compaction.RecentStart | packages/agent/src/xdog/agent/compaction.py:118-127 | the longest suffix within the target, but at least the last message |
| Compaction.FindCut | packages/agent/src/xdog/agent/compaction.py:391-412 | the latest boundary at or before the wanted start at which history and request both split into complete halves |
| Compaction.MakePlan | packages/agent/src/xdog/agent/compaction.py:363-434 | a plan only for aligned, well paired input, with the recent window, boundary, kept and removed indices and exact costs; nothing planned below 80% of the limit; every refusal has the reason it gives |
| Compaction.Place | packages/agent/src/xdog/agent/compaction.py:377-412 | the aligned groups, the costs, the window and the cut, or an early refusal with its reason |
| Compaction.KeptAndRemovedPartition | packages/agent/src/xdog/agent/compaction.py:413-424 | kept and removed indices partition the history, in order; the suffix from the cut and the last message are kept |
| Compaction.Summarize | packages/agent/src/xdog/agent/compaction.py:484-545 | a commit exactly when the reply exists, the summary request and the candidate fit, the candidate costs less than the original request with its options, and the kept front pairs |
| Compaction.CompactedStaysPaired | packages/agent/src/xdog/agent/compaction.py:526-531 | in particular whenever no call or result is protected |
| Compaction.HistoryPairsExactly | packages/agent/src/xdog/agent/compaction.py:526-531 | whatever is protected: the compacted history is well paired exactly when what it keeps from before the cut is, for every summary |
| Compaction.RequestPairsExactly | packages/agent/src/xdog/agent/compaction.py:529-532 | the compacted request exactly when its prefix is, alone and with what it keeps from before the cut |
| Compaction.PairingExactly | packages/agent/src/xdog/agent/compaction.py:526-532 | so pairing is decided before the summary is asked for |
| Compaction.OnlyCapacityCanFail | packages/agent/src/xdog/agent/compaction.py:526-535 | it holds whenever nothing but plain messages is kept from before the cut |
| Compaction.RepeatedCompactionEnds | packages/agent/src/xdog/agent/compaction.py:533-535 | compacting n times without new messages costs at least n less than the first request: it cannot go on for ever |
| InputQueues.EachPendingOnce | packages/agent/src/xdog/agent/agent.py:1356-1364 | every identified input on the books is pending exactly once, and nothing else is |
| InputQueues.QueuedKeepsValid | packages/agent/src/xdog/agent/agent.py:1332-1354 | queueing an input keeps the lanes and tables in agreement |
| InputQueues.PushedKeepsValid | packages/agent/src/xdog/agent/agent.py:1294-1319 | a plain message changes no pending input |
| InputQueues.RemoveKeepsValid | packages/agent/src/xdog/agent/agent.py:1376-1380 | removing an input keeps the agreement |
| InputQueues.EditKeepsValid | packages/agent/src/xdog/agent/agent.py:1381-1386 | editing an input, which replaces its message, keeps the agreement |
| InputQueues.MoveKeepsValid | packages/agent/src/xdog/agent/agent.py:1387-1391 | moving an input by one step keeps the agreement |
| InputQueues.RemoveTakesRow | packages/agent/src/xdog/agent/agent.py:1376-1380 | removing takes out exactly the pending row of the input |
| InputQueues.EditChangesContent | packages/agent/src/xdog/agent/agent.py:1381-1386 | editing changes exactly the content of its row |
| InputQueues.MoveRight | packages/agent/src/xdog/agent/agent.py:1387-1391 | moving right swaps the row with that of the neighbour, or changes nothing for a plain neighbour |
| InputQueues.MoveLeft | packages/agent/src/xdog/agent/agent.py:1387-1391 | the same to the left |
| InputQueues.DequeuedKeepsValid | packages/agent/src/xdog/agent/agent.py:1494-1517 | taking messages from a lane selects exactly their inputs and keeps the agreement |
| InputQueues.OffTakesRows | packages/agent/src/xdog/agent/agent.py:1886-1896 | taking inputs off the books takes out exactly their rows |
| InputQueues.OffKeepsValid | packages/agent/src/xdog/agent/agent.py:1886-1896 | and keeps the agreement |
| InputQueues.DrainedKeepsValid | packages/agent/src/xdog/agent/agent.py:1396-1407 | draining a prefix removes exactly the rows with it, and keeps the agreement |
| InputQueues.ClearedKeepsValid | packages/agent/src/xdog/agent/agent.py:1162-1170 | clearing a lane forgets exactly the inputs of that delivery |
| InputQueues.ReboundIsValid | packages/agent/src/xdog/agent/agent.py:1604-1609 | rebinding to a transformed message keeps the agreement exactly when the input is still on the books and the message is the original or new to them; a shared object breaks it |
| QueuePlans.PlanPredicts | packages/agent/src/xdog/agent/child_queue.py:100-145 | the write-ahead plan succeeds exactly when the change does and predicts its rows, exactly unless the move passes a message that is no identified input |
| QueuePlans.PredictsRest | packages/agent/src/xdog/agent/child_queue.py:134-137 | edit, remove and return are always predicted |
| QueuePlans.PredictsRight | packages/agent/src/xdog/agent/child_queue.py:138-142 | a move to the right is predicted exactly when its neighbour is absent or identified |
| QueuePlans.PredictsLeft | packages/agent/src/xdog/agent/child_queue.py:138-142 | the same to the left |
| QueuePlans.PlainMessageExample | packages/agent/src/xdog/agent/child_queue.py:138-145 | two steering inputs with a plain message between them, the first moved right: the plan writes the two swapped, the move passes the plain message and leaves them in their order |
| AgentInputs.ReboundAllIsValid | packages/agent/src/xdog/agent/agent.py:1604-1609 | a batch of receipts keeps the agreement exactly when every new object is in no lane, is no object of an earlier receipt, and was the message of another input only if that was replaced earlier |
| AgentInputs.SharedObjectOrphans | packages/agent/src/xdog/agent/agent.py:1604-1609 | one object for two inputs: the first stays selected on the books whatever message reaches the history afterwards |
| AgentInputs.SharedObjectExample | packages/agent/src/xdog/agent/agent.py:1604-1609 | two selected inputs, one shared object, both messages consumed: the first input is still pending, and no handle leads to it |
| AgentInputs.InputBook.QueueInput | packages/agent/src/xdog/agent/agent.py:1332-1354 | the new books, or a refusal exactly for a bad or repeated id, empty input or too much context |
| AgentInputs.InputBook.PendingInputs | packages/agent/src/xdog/agent/agent.py:1356-1364 | the pending rows: lanes first, then the selected ones in insertion order |
| AgentInputs.InputBook.ChangeInput | packages/agent/src/xdog/agent/agent.py:1366-1394 | the new books of an edit, remove or move, or unchanged ones with False |
| AgentInputs.InputBook.Dequeue | packages/agent/src/xdog/agent/agent.py:1494-1517 | the taken messages and the books after it, in both queue modes |
| AgentInputs.InputBook.Rebind | packages/agent/src/xdog/agent/agent.py:1604-1609 | the books after all receipts, in agreement exactly when the objects are separate; the KeyError exactly when a rebound input has left the books |
| AgentInputs.InputBook.Consume | packages/agent/src/xdog/agent/agent.py:1886-1896 | the consumed input and the books without it |
| AgentInputs.InputBook.Drain | packages/agent/src/xdog/agent/agent.py:1396-1407 | the drained inputs and the books without them |
| AgentInputs.InputBook.ClearLane | packages/agent/src/xdog/agent/agent.py:1409-1414 | the books without the inputs of the lane |
| AgentInputs.InputBook.ClearAll | packages/agent/src/xdog/agent/agent.py:1172-1178 | empty books |
| AgentInputs.InputBook.PlannedChange | packages/agent/src/xdog/agent/child_queue.py:121-145 | the planned rows for the current pending inputs |
| AgentRun.InjectedOpen | packages/agent/src/xdog/agent/agent_loop.py:326-331 | after injected messages no call is open exactly when they leave none open among themselves |
| AgentRun.BatchCloses | packages/agent/src/xdog/agent/agent_loop.py:353-361 | a complete batch leaves no call open |
| AgentRun.PairedIsClosed | packages/agent/src/xdog/agent/compaction.py:531-532 | a compacted history has no open call |
| AgentRun.CommitAccepted | packages/agent/src/xdog/agent/agent.py:938-945 | a commit leaves a record that decoding and restoring accept exactly when the messages counted since the last reset are at least as many as the compactions |
| AgentRun.TurnRestorable | packages/agent/src/xdog/agent/agent.py:917-945 | a round keeps the dump restorable, except exactly when the host has put the planned history in place again while the summary was made and this compaction removes fewer messages than there were compactions |
| AgentRun.LoopRestorable | packages/agent/src/xdog/agent/agent.py:917-945 | along the whole loop: the dump is restorable after every round and at the end exactly when no round it comes to miscounts in that way |
| AgentRun.RunRestorable | packages/agent/src/xdog/agent/agent.py:833-945 | along every run, whatever ends it: decoding and restoring accept the Agent's own dump once the prompts are recorded, after every round and in the end, exactly when no round miscounts |
| AgentRun.TurnAnswered | packages/agent/src/xdog/agent/agent_loop.py:326-335 | a round makes a request with an unanswered call exactly when it asks on the history as it is and the messages handed over since leave a call open |
| AgentRun.LoopAnswered | packages/agent/src/xdog/agent/agent_loop.py:312-376 | along the whole loop: every request is made with all calls answered exactly when no round it comes to does that |
| AgentRun.RunAnswered | packages/agent/src/xdog/agent/agent_loop.py:288-391 | along every run, with its context and prompts: at every request all calls are answered exactly when the run is quiet in that sense |
| AgentRun.ClosedRunIsQuiet | packages/agent/src/xdog/agent/agent.py:1535-1592 | so are they whenever the messages of every hand-over leave no call open among themselves |
| AgentRun.CheckedCallsAreDistinct | packages/agent/src/xdog/agent/agent_loop.py:979-996 | the calls of a reply that enters the history have ids of their own |
| AgentRun.AcceptedStays | packages/agent/src/xdog/agent/agent.py:839-841 | appending messages changes nothing about the record |
| AgentRun.Agent.Commit | packages/agent/src/xdog/agent/agent.py:936-945 | refused exactly when history, system prompt, model, adapter or options are not those of the plan; history, record and restorability after it |
| AgentRun.Agent.PrepareRequest | packages/agent/src/xdog/agent/agent.py:917-956 | the compaction before a request, with what the host does meanwhile: both histories change together or neither; refused exactly when the plan is not one of this history, or history or settings have changed at the commit |
| AgentRun.Agent.Restore | packages/agent/src/xdog/agent/agent.py:1075-1130 | restored exactly when the snapshot is resumable, the compaction record fits the messages, and model and skills pass; otherwise nothing changes |
| AgentRun.Agent.ReplaceMessages | packages/agent/src/xdog/agent/agent.py:833-847 | replacing forgets the compaction record |
| AgentRun.Agent.Inject | packages/agent/src/xdog/agent/agent_loop.py:326-331 | both histories get the messages, in order |
| AgentRun.Agent.Stream | packages/agent/src/xdog/agent/agent_loop.py:402-527 | the request is made on equal histories; partial messages never reach the canonical one; a reply with repeated ids becomes an error |
| AgentRun.Agent.RunTools | packages/agent/src/xdog/agent/agent_loop.py:559-704 | one result per call in source order reaches the canonical history, however the batch is left; the unconfirmed tools are exactly the announced calls without a recorded or uninterrupted end, besides those of before |
| AgentRun.Agent.DoTurn | packages/agent/src/xdog/agent/agent_loop.py:316-372 | one round: both histories, the compaction record, the request and the next pending messages are those of the round function; the two histories stay equal; its request is answered exactly under the condition on the pending messages |
| AgentRun.Agent.Answer | packages/agent/src/xdog/agent/agent_loop.py:346-372 | after a reply: one result per call, then the next poll; a complete batch leaves no call open |
| AgentRun.Agent.Rounds | packages/agent/src/xdog/agent/agent_loop.py:312-376 | the inner loop: its rounds are those of the recursive run function, both histories equal at every request, and no request unanswered while the loop is quiet |
| AgentRun.Agent.Loop | packages/agent/src/xdog/agent/agent_loop.py:288-391 | the nested loops do exactly what the recursive run function says; at every request both histories are equal, and at every one all calls are answered exactly when the loop is quiet |
| AgentRun.Agent.Run | packages/agent/src/xdog/agent/agent.py:1619-1872 | a run starts exactly when no call is open and no tool unconfirmed, else nothing changes; its whole effect is that of the run function, where an exception leaves an error message and a cancellation does not; its requests see equal histories, all answered exactly when the run is quiet; the dump stays restorable when no round miscounts |
| AgentRunExamples.SteeredCallIsUnanswered | packages/agent/src/xdog/agent/agent.py:1535-1592 | a new Agent, prompted and steered with an assistant message that has a call: the request is made with that call unanswered |
| AgentRunExamples.ReplacedHistoryMiscounts | packages/agent/src/xdog/agent/agent.py:936-945 | an Agent compacted once, whose host puts the same history in place again under the second summary: the run goes through and its dump is refused |
| ToolBatch.Sequential | packages/agent/src/xdog/agent/agent_loop.py:559-605 | one result per call, in source order; from the point where the run is cancelled on the cancelled result |
| ToolBatch.PrepareAll | packages/agent/src/xdog/agent/agent_loop.py:626-655 | the prepared calls and the started tasks |
| ToolBatch.StepKeepsValid | packages/agent/src/xdog/agent/agent_loop.py:612-704 | every step of owner and tasks keeps: results in source order for the calls so far, whose tasks have ended, and no cancellation requested while collecting |
| ToolBatch.EveryRunSettles | packages/agent/src/xdog/agent/agent_loop.py:612-704 | over every run, with any outcomes, ignored requests and repeated owner cancellation: when the batch is left every started task has ended; cancellations are requested only after an exception; a batch that returns has one result per call in source order |
| ToolBatch.JoiningEnds | packages/agent/src/xdog/agent/agent_loop.py:691-704 | once the tasks end, however they end, the joining owner leaves, cancelled again or not |
| ToolBatch.ParallelAsSequential | packages/agent/src/xdog/agent/agent_loop.py:612-704 | with outcomes that depend on the call alone and an undisturbed owner, every run that leaves the batch returns the answers to all calls in source order, whatever the completion order |
| ToolBatch.BothWays | packages/agent/src/xdog/agent/agent_loop.py:559-704 | which are the results of sequential execution |
| ToolResults.ResultsAreRecorded | packages/agent/src/xdog/agent/agent_loop.py:673-704 | in every batch that was left, the results it returned are what the run records, in order; when it raised at most one more |
| ToolResults.BatchIsRecorded | packages/agent/src/xdog/agent/agent_loop.py:612-704 | from the start of a batch over every run of owner and tasks: if it returned, the round records one result per call and no call is open; otherwise the round throws, with the results so far recorded |
| ToolResults.HistoryIgnoresOrder | packages/agent/src/xdog/agent/agent_loop.py:559-704 | with outcomes that depend on the call alone, the recorded history after a parallel batch is that of the sequential one, whatever the completion order |
| ContextQueue.StepKeepsSafe | packages/agent/src/xdog/agent/context_messages.py:80-241 | every step keeps: no id twice in the queue or the history, nothing enqueued is lost |
| ContextQueue.EveryRunIsSafe | packages/agent/src/xdog/agent/context_messages.py:80-241 | so does every run of enqueue, capture, admission, cancellation, crash and reload, in any order |
| ContextQueue.OnlyCapturedEnter | packages/agent/src/xdog/agent/context_messages.py:224-237 | only a commit brings ids into the stored history, and only captured, pending ones |
| ContextQueue.CommitExtends | packages/agent/src/xdog/agent/context_messages.py:214-223 | a commit extends the stored history at its end, by ids that entered before exactly if a replacement has dropped them |
| ContextQueue.CommitRepeatsExactly | packages/agent/src/xdog/agent/context_messages.py:203-228 | a commit enters an id twice exactly when a captured row waits whose message has left the stored history |
| ContextQueue.EnteringOnceExactly | packages/agent/src/xdog/agent/context_messages.py:80-241 | over every run from the empty queue, overlapping or not: no id enters twice exactly when no commit meets such a row |
| ContextQueue.ReentersInTurn | packages/agent/src/xdog/agent/context_messages.py:203-228 | with admissions in turn such a row is a captured one whose id a replaced history has dropped |
| ContextQueue.EnteringOnce | packages/agent/src/xdog/agent/context_messages.py:203-241 | three rules for the host, one admission at a time, replacements that keep waiting messages, no dropped id enqueued again, are enough |
| ContextQueue.StepExtendsExactly | packages/agent/src/xdog/agent/context_messages.py:203-241 | with admissions in turn a step extends the stored history at its end exactly unless it replaces it by something else |
| ContextQueue.RunsFromEmpty | packages/agent/src/xdog/agent/context_messages.py:80-241 | all three results for runs from the empty queue |
| ContextQueue.HistoryOnlyGrows | packages/agent/src/xdog/agent/context_messages.py:203-241 | over whole runs: the stored history is only extended exactly when every replacement extends it |
| ContextQueue.CrashLeavesBoth | packages/agent/src/xdog/agent/context_messages.py:231-236 | a run that keeps the rules and ends with a message both stored and still queued |
| ContextQueue.CarelessReplaceEntersTwice | packages/agent/src/xdog/agent/context_messages.py:212-228 | the second rule is needed: after that run a compaction that drops the message lets the id enter twice |
| ContextQueue.RowIsDropped | packages/agent/src/xdog/agent/context_messages.py:123-241 | a run that keeps the rules in which a message enters, its row is retired and a reset drops it |
| ContextQueue.DroppedIdEntersAgain | packages/agent/src/xdog/agent/context_messages.py:123-228 | the third is needed: an id that was dropped and is enqueued again enters twice |
| ContextQueue.OverlapIsReached | packages/agent/src/xdog/agent/context_messages.py:203-213 | the first is needed: from the empty queue two admissions can overlap |
| ContextQueue.OverlapRewritesHistory | packages/agent/src/xdog/agent/context_messages.py:206-223 | there the first admission fails after its write and the second takes a stored message out again |
| ContextQueue.OverlapEntersTwice | packages/agent/src/xdog/agent/context_messages.py:206-241 | and after a restart that message enters a second time |
| EventStream.Stream.Send | packages/agent/src/xdog/agent/event_stream.py:66-72 | admitted, dropped after close, or waiting exactly when open and full |
| EventStream.Stream.SendSync | packages/agent/src/xdog/agent/event_stream.py:74-82 | refused exactly when open and full; otherwise admitted at the end |
| EventStream.Stream.SendCleanup | packages/agent/src/xdog/agent/event_stream.py:91-102 | at most three cleanup events |
| EventStream.Stream.SendFinal | packages/agent/src/xdog/agent/event_stream.py:104-113 | only the first final event is kept |
| EventStream.Stream.End | packages/agent/src/xdog/agent/event_stream.py:115-137 | closing wakes every waiter |
| EventStream.Stream.Next | packages/agent/src/xdog/agent/event_stream.py:222-239 | the next event in order; the consumer sleeps exactly when it is open and empty; at the end everything was seen |
| EventStream.SeenInOrder | packages/agent/src/xdog/agent/event_stream.py:222-239 | at any time the consumer has seen a prefix of the admitted, then the cleanup, then the final event |
| EventStream.NoLostWakeup | packages/agent/src/xdog/agent/event_stream.py:66-239 | who still waits has a reason to: open and full, or open and empty |
| EventStream.WaitersHaveNothingToDo | packages/agent/src/xdog/agent/event_stream.py:66-239 | while the stream is open what is buffered is what was admitted and not taken, so a waiting consumer is level and a waiting sender a whole capacity ahead |
| EventStream.PerformSend | packages/agent/src/xdog/agent/event_stream.py:66-82 | a send does to the stream what it does to a plain log of admitted events |
| EventStream.PerformOwner | packages/agent/src/xdog/agent/event_stream.py:91-137 | so do cleanup events, the final event, closing and a cancelled sender |
| EventStream.PerformNext | packages/agent/src/xdog/agent/event_stream.py:222-239 | and the consumer, who takes the next open event of the log |
| EventStream.Scenario | packages/agent/src/xdog/agent/event_stream.py:66-239 | any acts of senders, owner and consumer in any order come to the same as on the plain log: the consumer has the admitted events in order, then the cleanup events, then the final one, all of them at the end, and is never more than the capacity behind |
| CrossLoop.Remote.Start | packages/agent/src/xdog/agent/cross_loop.py:42-56 | started or closed, once; closed exactly when cancelled before or not creatable, and then with its result, and not yet settled |
| CrossLoop.Remote.Cancel | packages/agent/src/xdog/agent/cross_loop.py:71-73 | the running coroutine is asked to cancel at most once |
| CrossLoop.Remote.PublishSettled | packages/agent/src/xdog/agent/cross_loop.py:33-56 | settled once, after the result |
| CrossLoop.Remote.Receive | packages/agent/src/xdog/agent/cross_loop.py:64-82 | the waiter returns a value or an error at once; a work that ended cancelled makes it join the settlement like a cancelled caller |
| CrossLoop.Remote.CancelCaller | packages/agent/src/xdog/agent/cross_loop.py:67-82 | a cancelled caller joins; further cancellations change nothing |
| CrossLoop.Remote.Join | packages/agent/src/xdog/agent/cross_loop.py:83-95 | the cancellation goes on only after the remote side has settled |
| CrossLoop.StepKeepsConsistent | packages/agent/src/xdog/agent/cross_loop.py:28-97 | every step keeps: used, settled and asked at most once, settled only when the work is over, a value only to a caller that was not cancelled |
| CrossLoop.RunKeeps | packages/agent/src/xdog/agent/cross_loop.py:28-97 | along every run a result, a settlement and the end of a wait stay as they are, and a joining waiter can only raise |
| CrossLoop.FirstWins | packages/agent/src/xdog/agent/cross_loop.py:64-95 | in every interleaving the first thing that happens to the waiter decides: a cancellation, of the caller or of the work, makes it raise and nothing else; otherwise it returns exactly what the work came to |
| CrossLoop.RunsExactly | packages/agent/src/xdog/agent/cross_loop.py:42-56 | in every interleaving the coroutine runs exactly when it can be started and the caller was not cancelled before that |
| CrossLoop.EveryRun | packages/agent/src/xdog/agent/cross_loop.py:28-97 | every run from the submission on: used once, settled once, asked once; a cancelled caller gets no value, a value is that of work that was not cancelled, and who raises leaves only when the work is over and settled |
| CrossLoop.CanSettle | packages/agent/src/xdog/agent/cross_loop.py:28-97 | from every state the remote side can settle in steps of its own, and then the caller can leave |
| CrossLoop.CancelledElsewhere | packages/agent/src/xdog/agent/cross_loop.py:64-95 | work cancelled by its own loop: the waiter raises after the settlement |
| CrossLoop.DrainRemote | packages/agent/src/xdog/agent/cross_loop.py:28-97 | the same on the object |
| SnapshotCodec.RoundTrip | packages/agent/src/xdog/agent/snapshots.py:279-404 | what the encoder makes of a message decodes to that very message or is refused, the former exactly for storable messages |
| SnapshotCodec.UserTrip | packages/agent/src/xdog/agent/snapshots.py:354-362 | string and part content, text signatures and timestamps of users come back |
| SnapshotCodec.ToolResultTrip | packages/agent/src/xdog/agent/snapshots.py:354-364 | so do details of any size, error flags and timestamps of tool results |
| SnapshotCodec.AssistantTrip | packages/agent/src/xdog/agent/snapshots.py:385-394 | so do signatures, usage, failure facts and empty strings of replies |
| SnapshotCodec.DecodedIsStorable | packages/agent/src/xdog/agent/snapshots.py:279-364 | whatever is decoded can be encoded, and decodes to itself again |
| SnapshotCodec.AllTrip | packages/agent/src/xdog/agent/snapshots.py:710-746 | the same for whole histories |
| SnapshotCodec.ToolPairs | packages/agent/src/xdog/agent/snapshots.py:407-432 | the pending calls of the pairing scan |
| SnapshotCodec.PendingIsUnanswered | packages/agent/src/xdog/agent/snapshots.py:407-432 | these are exactly the calls without a later result, and there are none exactly when the history is well paired; a diagnostic export counts without its error replies |
| SnapshotCodec.DiagnosticPairs | packages/agent/src/xdog/agent/snapshots.py:407-432 | a diagnostic export pairs exactly as an ordinary one does without its errors |
| SnapshotCodec.PairsAreRun | packages/agent/src/xdog/agent/snapshots.py:407-432 | on storable messages the scan is the one compaction uses |
| JsonCopy.WithinBounds | packages/agent/src/xdog/agent/snapshots.py:176-192 | the explicit stack walk accepts exactly the documents of at most 64 levels and 500000 values |
| JsonCopy.Copy | packages/agent/src/xdog/agent/snapshots.py:176-199 | and the copier those of at most 32 MiB of text |
| JsonCopy.AnyKey | packages/agent/src/xdog/agent/snapshots.py:188-189 | the order in which the members of an object are counted does not matter |
| JsonCopy.FieldCopyable | packages/agent/src/xdog/agent/snapshots.py:176-199 | what is within the bounds has every member, and the rest without it, within the bounds |
| SnapshotCodec.WholeBoundsParts | packages/agent/src/xdog/agent/snapshots.py:684-696 | the bounds of a whole document are bounds of its metadata and of every message header and part |
| SnapshotCodec.TwoRoutesAgree | packages/agent/src/xdog/agent/snapshots.py:566-683 | for every document: the whole route decodes it as metadata plus typed history do, if it is within the bounds of the copier, and refuses it otherwise |
| SnapshotCodec.SnapshotRoundTrip | packages/agent/src/xdog/agent/snapshots.py:749-806 | a snapshot whose own encoding is accepted gives its history back |
| SnapshotCodec.ResumedHistoryIsPaired | packages/agent/src/xdog/agent/snapshots.py:121-128 | every decoded document that may be resumed holds a well paired history |

## Left out

- `$ref`, `$defs`, patternProperties, prefixItems, contains, if/then/else and unevaluated keywords: references are refused by the code, the others are outside the modelled fragment.
- The order of the enum candidates in published schemas, which no contract states, and the order in which parent keywords are visited, which is arbitrary in the model.
- Malformed schemas (repeated names in required, empty anyOf or allOf, empty or repeated types, negative sizes): the validator the code calls refuses them before it looks at a value; `Schemas.Valid` reads them literally.
- ChildDelegation.capture and the validation of selected actions: one-branch checks on names.
- SchemaMeet.ForcedClashIsEmpty: one direction; whether two schemas have a common value at all is a satisfiability question over const, anyOf and not.
- JSON text beyond the canonical printed envelope: any other text is refused by the model's reader, as the code refuses text that does not print back.
- Hash collisions: ids that collide share a compact client id; `ClientIdInjective` says so.
- Response metadata (model, usage, error texts), tool registry parsing, freshness of generated ids, cancellation of the consumer of the SSE stream.
- ResponseDeltas.DeltasAddUp: a sufficient condition on the upstream; `ResponseDeltas.DeltasAddUpExactly` has the exact one.
- Function-call argument deltas against re-serialized final arguments: `DeltasAddUpExactly` speaks about the text the final part carries.
- The wording of the summary request and its instructions: the request is a parameter of `Compaction.Summarize`.
- Compaction.CompactedStaysPaired: caller-protected calls or results are excluded here; `Compaction.HistoryPairsExactly` covers them.
- Compaction.OnlyCapacityCanFail: a sufficient condition; `Compaction.PairingExactly` has the exact one.
- resolve_compaction_budget and the older chars/4 estimates: arithmetic on optional numbers.
- The run's own output list (`new_messages`), skills, images, context reports and event emission order within one message.
- Handled inputs and input checkpoints inside `_prepare_inputs`, except that a run whose inputs are all handled does nothing; the custom delivery queue.
- Host calls during a run that change the Agent's history at other times than while a summary is made: the loop does not look for them.
- ToolBatch.ParallelAsSequential: when outcomes depend on the call alone; progress events of tools and the text of cancelled results are not modelled.
- ContextQueue.EnteringOnce: sufficient rules; `ContextQueue.EnteringOnceExactly` has the exact condition, and one run per rule shows that it is needed.
- File format, locks across processes and scope changes of the context queue: one scope, one lock owner, atomic replacement.
- Listener callbacks and the result future of the event stream.
- CrossLoop.CanSettle: the remote loop stays alive; a loop closed before the start callback ran is not modelled.
- Options, settings and skills of a snapshot, failure facts and custom records: their checks are parameters, as is the number of bytes of a string or number in JSON text. Text with lone surrogates and nonfinite numbers, which the copier refuses, are not in the data model.
