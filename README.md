# tcp-server-queues, modelled in Dafny

This project models the message queueing core of `tcpqueueserver.js`.

- **Queue:** a FIFO over `store`.
- **MessageService:** one input queue, one staging queue (`transfQueue`) and N output queues. It is configured with a transform strategy and a routing strategy.
- **SequentialMessageService:** holds back the parts of a partitioned message (`_sequence` / `_part`) until they can go out in order. It also pins every part of a sequence to the output queue the sequence was first routed to.
- **MessageServiceSocketHandler:** the line protocol. A data event is split into lines, and each line is an `enqueue` or `next` request.
- **The example strategies:** `exampleTransform` and `exampleDispatch`, as built by `getMessageService`.

The unit tests of the "Example Transformation/Dispatching Tests" suite in `test/test.js` are stated as lemmas about the model.

## Layout

| file | module | contents |
|---|---|---|
| values.dfy | `Values` | JSON values, the exceptions, the JavaScript tests `!= undefined`, truthiness and `Number.isInteger` |
| fifo.dfy | `Fifo` | `Queue` as a class over a `seq` field; `Shift`, the function that specifies `next` |
| pipeline.dfy | `Pipeline` | the service as functions of an abstract `State`, one function per method of the two service classes |
| service.dfy | `Service` | `MessageService` as a class of `Queue` objects and `map` fields, each method proved to move the state as its `Pipeline` function says |
| routing.dfy | `Routing` | routeItem and one dispatchOne step: routes, conservation, the base-class finding |
| sequencing.dfy | `Sequencing` | the ordering and stickiness invariant of the sequential service and its preservation; sweep conservation and bounds |
| service_props.dfy | `ServiceProps` | what enqueue and next do, stated for all inputs |
| strategies.dfy | `Strategies` | exampleDispatch and exampleTransform, loop by loop, with reference characterisations |
| example_service.dfy | `ExampleService` | the service of getMessageService; it never raises a routing error |
| protocol.dfy | `Protocol` | serve, enqueueResponder and nextResponder as functions |
| handler.dfy | `Handler` | the socket handler as a class whose writes are the field `sent` |
| delivery.dfy | `Delivery` | what successive next calls hand out: parts of a sequence in increasing order, over whole runs |
| replay.dfy | `Replay` | runs of calls on a service; the run of the mixed test, for any items that route like the test's |
| test_items.dfy | `TestItems` | the test messages, what exampleTransform makes of them and where exampleDispatch sends them |
| test_runs.dfy | `TestRuns` | the single-message tests and the mixed test, end to end |

Exceptions are values.

- Every operation returns the new state together with a `Status` (`Pass` or `Fail(error)`) or a `Result`.
- Any state change made before the exception is kept, as in JavaScript.
- The JSON codec is a pair of functions in the `Codec` parameter.
- The digest used for `_hash` (sha256 of base64 of UTF-8) is a function parameter `digest`.

## Where the code and its comments part ways

- The comment on `dispatchAll` says it runs through the whole `transfQueue`. The loop re-reads `getLength()` before every iteration. `i` grows by one each time, but the length falls only when an item is dispatched; a held-back part goes to the back of the queue and the length stays. So a sweep can stop before it has seen every item (`Sequencing.SweepStopsEarly`). The model follows the code.
- `next(N)` sweeps first and bound-checks `N` afterwards. A call with a bad channel therefore still dispatches (`ServiceProps.NextSpec`). The model follows that order.
- The comment on the sequential `dispatchOne` says held-back parts are re-queued "so that they don't get lost". The index of a sequence is set to the released part before `routeItem` runs. A router that raises, or answers with a queue that does not exist, therefore loses the part while the index moves past it (`Routing.IndexAdvancesBeforeRouting`). The parts that follow still go out in order (`Delivery.PartsComeOutInOrder`), but with a gap. So "no part is lost" holds only for a router that never fails, such as `exampleDispatch` (`ExampleService.ExampleReleaseDelivers`).
- The base class's `dispatchOne` guards its enqueue with the test for an out-of-range route. This is listed under Findings.

## Where the proofs are

Many of the lemmas below hold by unfolding the definitions; they state what a function means in the system's terms rather than carry a deep proof. The arguments by induction are elsewhere:

- `Sequencing`: the ordering invariant, carried through every sweep, enqueue and next.
- `Delivery`: the order of parts over whole runs of calls.
- `Strategies`: the loops of exampleTransform and exampleDispatch against their reference characterisations.
- `Protocol.Split*` and `Protocol.Fold*`: line splitting and serving.
- `ExampleService`: the example service never misroutes.

## Model

| member | source | states |
|---|---|---|
| Fifo.Shift | tcpqueueserver.js:22-27 | `next` removes the oldest item and returns it; an empty queue, or a `null`/`undefined` head (which is also removed), raises "Ran out" |
| Fifo.FirstInFirstOut | tcpqueueserver.js:16-27 | items come out one per call, oldest first, whatever is enqueued behind them, and the rest of the queue is left in order |
| Fifo.Queue.constructor | tcpqueueserver.js:10-12 | a new queue is empty |
| Fifo.Queue.Enqueue | tcpqueueserver.js:16-18 | the item is appended at the back |
| Fifo.Queue.Next | tcpqueueserver.js:22-27 | result and new contents are exactly those of `Shift` on the old contents |
| Fifo.Queue.GetLength | tcpqueueserver.js:31-33 | returns the number of stored items, changes nothing |
| Values.Keys | tcpqueueserver.js:431 | the keys of an object in enumeration order, one per field |
| Values.LookupSpec | tcpqueueserver.js:152 | `obj[key]` is defined exactly when `key` is a key of the object, and is then the value of a field with that key |
| Values.TruthyIffNotFalsy | tcpqueueserver.js:153-156 | of the tests `Values.Truthy` (`!seqId`) and `Values.Present` (`!= undefined`): a truthy property is present, and a present one is falsy exactly when it is `false`, `0` or `""` |
| Values.IsIntegerOnNumbers | tcpqueueserver.js:180 | `Values.IsInteger` (`Number.isInteger`) accepts every integer, rejects a number half-way between integers, `undefined` and `null`, and an accepted number is its own floor |
| Pipeline.RouteItem | tcpqueueserver.js:150-166 | routeItem touches only the output queues and the route cache; the number of output queues is unchanged |
| Pipeline.SeqDispatchOne | tcpqueueserver.js:175-196 | the sequential dispatchOne never adds to the staging queue's length and leaves the input queue and the number of output queues alone |
| Pipeline.BaseDispatchOne | tcpqueueserver.js:70-75 | as written: the base dispatchOne only consumes staged items; see Findings |
| Pipeline.CorrectedBaseDispatchOne | tcpqueueserver.js:70-75 | the base dispatchOne with its bounds test inverted; frame as for BaseDispatchOne |
| Pipeline.DispatchOne | tcpqueueserver.js:175-196 | `this.dispatchOne()` resolved by the kind of service; none of them grows the staging queue |
| Pipeline.Sweep | tcpqueueserver.js:79-83 | the dispatchAll loop, bound re-read each iteration, aborted by an exception; never grows the staging queue |
| Pipeline.Attempts | tcpqueueserver.js:79-83 | the loop makes at most as many dispatchOne calls as there are items left from the start index |
| Service.Stores | tcpqueueserver.js:51 | the output queues' contents, queue by queue, in order |
| Service.MessageService.constructor | tcpqueueserver.js:139-143 | `numOut` distinct, empty output queues (none for a non-positive `numOut`), empty input and staging queues, empty sequence dictionaries |
| Service.MessageService.RouteItem | tcpqueueserver.js:150-166 | moves the state exactly as `Pipeline.RouteItem` |
| Service.MessageService.SeqDispatchOne | tcpqueueserver.js:175-196 | moves the state exactly as `Pipeline.SeqDispatchOne` |
| Service.MessageService.BaseDispatchOne | tcpqueueserver.js:70-75 | moves the state exactly as the base dispatchOne (as written, or corrected) |
| Service.MessageService.DispatchOne | tcpqueueserver.js:175-196 | the overriding dispatchOne runs for a sequential service, the base one otherwise |
| Service.MessageService.DispatchAll | tcpqueueserver.js:79-83 | the while loop with the re-read bound moves the state exactly as `Pipeline.DispatchAll` |
| Service.MessageService.TransformAndDispatchAll | tcpqueueserver.js:89-94 | moves the state exactly as `Pipeline.TransformAndDispatchAll` |
| Service.MessageService.Enqueue | tcpqueueserver.js:100-104 | moves the state exactly as `Pipeline.Enqueue`; text that does not parse raises and changes nothing |
| Service.MessageService.Next | tcpqueueserver.js:110-116 | moves the state exactly as `Pipeline.Next` |
| Service.MessageService.GetLengthOutQueue | tcpqueueserver.js:121-123 | succeeds exactly for an existing queue and returns its length; a missing queue is an error |
| Routing.RouteItemSpec | tcpqueueserver.js:150-166 | routeItem succeeds iff the chosen route (cached route of a truthy, already routed sequence id, else the router's answer) names an output queue; then the item is appended to exactly that queue; on failure no queue changes, with "Bad dispatch route number" for a route out of range or the router's own exception; the route is cached exactly for a truthy id seen for the first time |
| Routing.CachedRouteIgnoresRouter | tcpqueueserver.js:160-162 | once a sequence has a cached route, the router is not consulted |
| Routing.FalsySequenceIsNotSticky | tcpqueueserver.js:150-158 | a present but falsy `_sequence` is held for its turn by dispatchOne, yet routed afresh and never cached by routeItem |
| Routing.SeqDispatchOneConserves | tcpqueueserver.js:175-196 | the sequential dispatchOne neither creates nor duplicates items: a successful step keeps the multiset of held items, a failing one loses exactly the item it took; on an empty staging queue it raises "Ran out" and changes nothing |
| Routing.RouteItemDelta | tcpqueueserver.js:150-166 | a successful routeItem adds exactly the item to the held items; a failing one adds nothing |
| Routing.SeqDispatchOneBranches | tcpqueueserver.js:175-196 | an unsequenced head goes through routeItem; a sequenced head whose `_part` is not an integer raises "Sequence part is not int" and is dropped from the staging queue; a released head goes through routeItem after the index moves to its part; when routeItem runs, the item ends at the tail of exactly one output queue if the step passes, and no output queue changes if it raises |
| Routing.SeqDispatchOneRelease | tcpqueueserver.js:184-192 | a sequenced item is released iff it is part 0 of an unseen sequence or the part after the last one released; then the index becomes its part; otherwise it goes to the back of the staging queue and nothing else changes |
| Routing.IndexAdvancesBeforeRouting | tcpqueueserver.js:187-188 | the sequence index advances even when the router then raises and the item is lost |
| Routing.NegativePartIsHeldBack | tcpqueueserver.js:180-192 | an integer negative `_part` passes the integer test but is never released |
| Routing.SeqDispatchOneKeepsIndexNonNegative | tcpqueueserver.js:187 | every index stays non-negative |
| Routing.BaseDispatchOneNeverDelivers | tcpqueueserver.js:73-74 | as written, the base dispatchOne never changes any output queue |
| Routing.BaseDispatchOneDropsRoutedItem | tcpqueueserver.js:70-75 | concrete input: one output queue, router answering 0; the staged item vanishes without an exception |
| Routing.CorrectedBaseDispatchOneDelivers | tcpqueueserver.js:70-75 | with the test inverted, an item routed to an existing queue is appended to exactly that queue and no item is lost |
| Sequencing.InitialSeqInv | tcpqueueserver.js:139-143 | a new sequential service satisfies the ordering invariant |
| Sequencing.QueueInvMono | tcpqueueserver.js:184-188 | the invariant of a queue survives the index advancing and routes being added |
| Sequencing.AppendKeepsQueueInv | tcpqueueserver.js:165 | appending an item that is the newest released part of its sequence and sits in its sequence's queue keeps the invariant |
| Sequencing.TailKeepsQueueInv | tcpqueueserver.js:115 | removing the head of an output queue keeps the invariant |
| Sequencing.RouteItemKeepsInv | tcpqueueserver.js:150-166 | routeItem of a just-released part keeps the invariant of every queue; the index only grows and cached routes never change |
| Sequencing.SeqDispatchOneKeepsInv | tcpqueueserver.js:175-196 | the sequential dispatchOne keeps the invariant, only advances the index and only adds routes |
| Sequencing.SweepKeepsInv | tcpqueueserver.js:79-83 | so does every sweep |
| Sequencing.StagingIrrelevant | tcpqueueserver.js:89-91 | changing only the input and staging queues keeps the invariant |
| Sequencing.EnqueueKeepsInv | tcpqueueserver.js:100-104 | enqueue on a sequential service keeps the invariant |
| Sequencing.NextKeepsInv | tcpqueueserver.js:110-116 | next on a sequential service keeps the invariant |
| Sequencing.OrderAndStickiness | tcpqueueserver.js:125-128 | in a state satisfying the invariant, two items of one truthy sequence are in the same output queue, and two parts of it in one queue are in increasing order of part |
| Sequencing.SweepConserves | tcpqueueserver.js:79-83 | for `Pipeline.DispatchAll` and every later start index: a completed sequential sweep keeps the multiset of held items; an aborted one loses exactly one item |
| Sequencing.SweepStep | tcpqueueserver.js:80-81 | one loop iteration, with what it does to the held items |
| Sequencing.SweepUnfold | tcpqueueserver.js:80-81 | one loop iteration of dispatchAll: a dispatchOne, then the rest of the loop unless it raised |
| Sequencing.SweepBound | tcpqueueserver.js:79-83 | dispatchAll calls dispatchOne at most once per item staged when it starts, and never grows the staging queue |
| Sequencing.SweepStopsEarly | tcpqueueserver.js:76-83 | concrete input: of two staged unsequenced items only the first is dispatched, because the bound is re-read |
| ServiceProps.EnqueueKeepsInputEmpty | tcpqueueserver.js:89-104 | enqueue leaves an empty input queue empty; text that does not parse raises and changes nothing |
| ServiceProps.EnqueueStagesOne | tcpqueueserver.js:89-94 | a message parsing to `null` raises "Ran out"; a transform exception loses the message; otherwise the transformed item is staged last and a sweep runs |
| ServiceProps.NextSpec | tcpqueueserver.js:110-116 | `Pipeline.Next`: next sweeps first; then a failing sweep's exception, "Bad next route number" for a number out of bounds, a TypeError for a channel naming no queue; otherwise exactly the named queue loses its oldest item, returned as JSON, and "Ran out" for an empty queue |
| ServiceProps.NextOnFreshService | tcpqueueserver.js:110-116 | on a new service next raises "Ran out" on every queue and "Bad next route number" outside them |
| ServiceProps.DispatchAllSpec | tcpqueueserver.js:79-83 | `Pipeline.DispatchAll` leaves the input queue and the number of output queues alone, never grows the staging queue, calls dispatchOne at most once per staged item and does nothing on an empty staging queue; on a sequential service it holds on to every item unless it raises, and then loses exactly one, and it keeps the ordering invariant |
| ServiceProps.TransformAndDispatchAllSpec | tcpqueueserver.js:89-94 | `Pipeline.TransformAndDispatchAll` takes the oldest input item; an empty queue or a `null` head raises "Ran out", a transform exception loses the item and changes nothing else; otherwise, on a sequential service, the transformed item is held with all the others unless the sweep raises and loses exactly one |
| ServiceProps.EnqueueConserves | tcpqueueserver.js:100-104 | `Pipeline.Enqueue` on a sequential service: text that does not parse raises and changes nothing; a parsed message is appended to the input queue and the oldest input item goes through transformAndDipatchAll, with the same errors and the same conservation of items |
| ServiceProps.ChannelTests | tcpqueueserver.js:112 | `Pipeline.OutOfBounds` and `Pipeline.Names`: a number names a queue iff it passes the bounds test and is integral; the model gives no other value either property |
| Delivery.Handed | tcpqueueserver.js:110-116 | the items the next calls of a run hand out, in order: at most one per call |
| Delivery.BehindAfterDispatchOne | tcpqueueserver.js:175-196 | a part already handed out stays at or below its sequence's index, and below every part of its sequence in an output queue, through one sequential dispatchOne |
| Delivery.ItemAddedBehind | tcpqueueserver.js:165 | appending an item that is not an earlier-or-equal part of that sequence keeps this |
| Delivery.BehindAfterSweep | tcpqueueserver.js:79-83 | it survives every sweep from any start index |
| Delivery.AllBehindAfterSweep | tcpqueueserver.js:79-83 | for every part handed out so far |
| Delivery.EnqueueKeepsBehind | tcpqueueserver.js:100-104 | and every enqueue |
| Delivery.ShiftKeepsBehind | tcpqueueserver.js:115 | and the removal of a queue's head |
| Delivery.HeadIsBehind | tcpqueueserver.js:115 | the head a next call hands out, if a part of a truthy sequence, is below every part of its sequence left in the queues |
| Delivery.TakeKeepsOrder | tcpqueueserver.js:110-116 | a next call keeps the ordering invariant, keeps every handed-out part behind, and the part it hands out is above every earlier one of its sequence |
| Delivery.RunKeepsOrder | tcpqueueserver.js:167-196 | along any run of enqueue and next calls on a sequential service satisfying the invariant, the parts of each truthy sequence come out in strictly increasing order of part |
| Delivery.PartsComeOutInOrder | tcpqueueserver.js:125-128 | on a new sequential service, with any transform and router and any calls, next hands out the parts of each truthy sequence in strictly increasing order of part, over all channels together |
| Strategies.Reverse | tcpqueueserver.js:448 | the characters in reverse order, same length |
| Strategies.DispatchFields | tcpqueueserver.js:475-483 | the loop of exampleDispatch returns 2, 3 or 4 |
| Strategies.ExampleDispatch | tcpqueueserver.js:468-486 | the route is one of the five queues; 0 iff `_special` is present; 1 iff `_special` is absent and `hash` present |
| Strategies.DispatchFieldsFirstDecider | tcpqueueserver.js:475-483 | the loop answers with the verdict of the first non-underscored field holding a string containing "elpmaxE" (2) or an integer (3), and 4 iff there is none |
| Strategies.ContainsIffOccurs | tcpqueueserver.js:478 | `Strategies.Contains`, that is `val.match(t) != null` for a plain pattern iff `t` occurs in `val` at some position |
| Strategies.MissingCharNotContained | tcpqueueserver.js:478 | a string lacking a character of the pattern does not match |
| Strategies.ReverseContains | tcpqueueserver.js:447-448 | reversing a string reverses every substring it contains |
| Strategies.ReversedExampleIsRoutedToTwo | tcpqueueserver.js:478-479 | a string the transform reverses is one the router sends to queue 2 |
| Strategies.BitNot | tcpqueueserver.js:450 | `~v` is an int32 |
| Strategies.BitNotIsNegateMinusOne | tcpqueueserver.js:450 | within int32, `~v == -v - 1` |
| Strategies.BitNotTwice | tcpqueueserver.js:450 | `~~v` is the int32 truncation of `v` |
| Strategies.SetFieldSpec | tcpqueueserver.js:438 | `out.hash = …` keeps every key in place and every field with another key; it adds a field exactly when the key is new, at the end |
| Strategies.SetFieldAppends | tcpqueueserver.js:438 | setting a new key appends it |
| Strategies.VisitField | tcpqueueserver.js:432-451 | one visit of the loop of exampleTransform never removes fields |
| Strategies.TransformUpTo | tcpqueueserver.js:431-452 | the loop after `i` visits never removes fields |
| Strategies.FailureIsFinal | tcpqueueserver.js:436 | once a visit raised, the loop's result is that exception |
| Strategies.ExampleTransform | tcpqueueserver.js:429-454 | the `for…in` loop over the message's original keys computes `Transform` |
| Strategies.VisitPlainKeepsShape | tcpqueueserver.js:446-451 | a visit to a non-underscored field rewrites that field only |
| Strategies.VisitHashKeepsShape | tcpqueueserver.js:434-443 | a visit to `_hash` sets or appends `hash` and nothing else |
| Strategies.SetHashKeepsKeys | tcpqueueserver.js:438 | setting `hash` keeps the keys in place, adding at most `hash` at the end |
| Strategies.SetHashKeepsValues | tcpqueueserver.js:438 | setting `hash` keeps the rewritten values of the other fields |
| Strategies.VisitKeepsShape | tcpqueueserver.js:432-451 | each visit keeps the loop's shape invariant |
| Strategies.TransformUpToShape | tcpqueueserver.js:431-452 | after `i` successful visits, the first `i` fields are rewritten, the rest original, and only `hash` may have been added |
| Strategies.ShapeInitial | tcpqueueserver.js:430 | before the loop the message is unchanged |
| Strategies.LookupPresence | tcpqueueserver.js:435 | whether `out[val]` is defined depends only on where `null` values are, which the rewriting never changes |
| Strategies.TransformFailsIff | tcpqueueserver.js:434-437 | `Strategies.Transform`: on a message without repeated keys, exampleTransform raises iff some `_hash` names no present field, and then with "_hash value not a valid msg key" |
| Strategies.TransformFailsUpTo | tcpqueueserver.js:434-437 | the same for the first `i` visits |
| Strategies.VisitFailsIff | tcpqueueserver.js:434-437 | a visit after successful ones raises iff its field is a bad `_hash` |
| Strategies.SameNullsAfterVisits | tcpqueueserver.js:446-451 | before any `_hash` is met, visits keep the keys and the positions of `null` values |
| Strategies.TransformFieldwise | tcpqueueserver.js:429-454 | `Strategies.Transform`: a successful exampleTransform keeps every key and position, rewrites every field other than `hash` by the rule (reversal of strings containing "Example", `~` of integers, underscored fields passed through) and can only append `hash` |
| Strategies.TransformLeavesNonObjects | tcpqueueserver.js:429-431 | `Strategies.Transform` returns a value that is not an object unchanged (unlike JavaScript for arrays; see Left out) |
| ExampleService.ExampleReleaseDelivers | tcpqueueserver.js:184-188 | in the example service a released part is never lost: the step passes, the index moves to the part, and the part is appended to one of the five queues |
| ExampleService.ExampleRouteItemPasses | tcpqueueserver.js:163-165 | routeItem of the example service always succeeds and keeps cached routes in range |
| ExampleService.ExampleSweepNeverMisroutes | tcpqueueserver.js:487-490 | a sweep of the example service raises only "Ran out" or the `_part` error, never a routing error |
| ExampleService.ExampleEnqueueNeverMisroutes | tcpqueueserver.js:487-490 | enqueue on the example service raises only a parse error, "Ran out", the `_part` error or the `_hash` error |
| ExampleService.TransformErrors | tcpqueueserver.js:429-454 | exampleTransform raises nothing but the `_hash` error |
| ExampleService.TransformUpToErrors | tcpqueueserver.js:431-452 | the same for every prefix of the loop |
| Protocol.SplitLines | tcpqueueserver.js:351 | `split("\n")` gives at least one piece, none containing a newline |
| Protocol.SplitJoin | tcpqueueserver.js:351 | splitting joined newline-free lines gives them back |
| Protocol.JoinSplit | tcpqueueserver.js:351 | joining the pieces gives the text back |
| Protocol.SplitNoNewline | tcpqueueserver.js:351 | text without a newline is one line |
| Protocol.SplitAfter | tcpqueueserver.js:351 | a newline-free prefix ended by a newline is the first line |
| Protocol.SplitConcat | tcpqueueserver.js:351 | splitting two chunks joined at a newline splits each |
| Protocol.Written | tcpqueueserver.js:328-340 | each request writes at most once |
| Protocol.Step | tcpqueueserver.js:352-367 | an empty line writes nothing, any other at most one response |
| Protocol.AtMostOneResponsePerRequest | tcpqueueserver.js:349-368 | `Protocol.Serve` writes no more responses than there are nonempty lines |
| Protocol.FoldAppend | tcpqueueserver.js:352-367 | serving a list of lines is serving its halves in turn |
| Protocol.FoldPrefix | tcpqueueserver.js:352-367 | serving a prefix does not depend on later lines |
| Protocol.FoldLast | tcpqueueserver.js:352-367 | one more line continues from the state the earlier lines left |
| Protocol.ServeConcat | tcpqueueserver.js:349-368 | `Protocol.Serve`: two chunks sent as one, separated by a newline, are served as the first followed by the second |
| Protocol.MalformedRequestChangesNothing | tcpqueueserver.js:355-366 | `Protocol.HandleLine`, `Protocol.EnqueueResponder`, `Protocol.NextResponder`: a line that does not parse, lacks `action`, names another action or lacks `data`/`channel` changes nothing and raises |
| Protocol.EnqueueRequest | tcpqueueserver.js:323-329 | `Protocol.EnqueueResponder` through `Protocol.HandleLine`: an enqueue request enqueues exactly its data; the acknowledgement is written iff that raised nothing |
| Protocol.NextRequest | tcpqueueserver.js:336-341 | `Protocol.NextResponder` through `Protocol.HandleLine`: a next request does exactly what `service.next(channel)` does |
| Handler.SocketHandler.constructor | tcpqueueserver.js:314-316 | a handler over the given service, nothing written yet |
| Handler.SocketHandler.EnqueueResponder | tcpqueueserver.js:323-329 | moves the service as `Protocol.EnqueueResponder` and writes exactly its response |
| Handler.SocketHandler.NextResponder | tcpqueueserver.js:336-341 | moves the service as `Protocol.NextResponder` and writes exactly its response |
| Handler.SocketHandler.HandleLine | tcpqueueserver.js:355-366 | moves the service as `Protocol.HandleLine` and writes exactly its response |
| Handler.SocketHandler.Serve | tcpqueueserver.js:349-368 | the loop over the lines moves the service and the socket output as `Protocol.Serve` |
| Replay.RunUpTo | test/test.js:68-119 | a run of `i` calls yields one outcome per call |
| Replay.MixedRun | test/test.js:68-119 | for any ten texts decoding and routing like the test's items: every enqueue passes, the nine next calls return the expected items in the expected order, and part 5 is left waiting with its sequence at index 3, routed to queue 2, and every output queue empty |
| Replay.MixedEnqueues | test/test.js:97-100 | the state and outcomes after the ten enqueues |
| Replay.MixedNexts | test/test.js:101-118 | the state and outcomes after the nine next calls |
| TestItems.TransformMixed | test/test.js:72-96 | exampleTransform turns the ten test objects into the items the test expects (reversed strings, negated integers, `hash` added) |
| TestItems.TransformSpecialAlone | test/test.js:18-20 | what exampleTransform makes of the `_special` message |
| TestItems.TransformHashedAlone | test/test.js:57-64 | what exampleTransform makes of the `_hash` message: `hash` appended with the digest of `str` |
| TestItems.DispatchSpecialAlone | test/test.js:18-21 | the `_special` message goes to queue 0 |
| TestItems.DispatchHashedAlone | test/test.js:42-65 | the hashed message goes to queue 1 |
| TestRuns.MixedItemsHold | test/test.js:72-96 | the transformed test items route as the test's comments say |
| TestRuns.DecodedHolds | test/test.js:97-100 | texts decoding to the test objects are accepted and transformed to the test items |
| TestRuns.MixedCaseWithSequence | test/test.js:68-119 | the mixed test on the example service: 19 outcomes, every enqueue passes, the nine replies are the JSON of the `_special` item, the hashed item, parts 0, 1 and 2, the reversed message, part 3, the negated integer message and the plain message, and part 5 is left staged |
| TestRuns.SingleCase | test/test.js:18-67 | on a new sequential service, one enqueue of an item routed to queue `c` followed by `next(c)` returns that item's JSON and leaves the service as it was built |
| TestRuns.SpecialCase | test/test.js:18-23 | `next(0)` returns the `_special` message, whose `_special` is "nonempty" |
| TestRuns.IntegerNegationCase | test/test.js:24-29 | `next(3)` returns the message with `int_value` -513 |
| TestRuns.ReversibleStringCase | test/test.js:30-35 | `next(2)` returns the message with `test` "elpmaxE egassem" |
| TestRuns.NonReversibleStringCase | test/test.js:36-41 | `next(4)` returns the message with `test` "message" |
| TestRuns.HashCase | test/test.js:42-67 | `next(1)` returns the message whose `hash` is the digest of `str` |

## Findings

| source | as written | input that shows it | evidently intended | confidence | as-written member | corrected member |
|---|---|---|---|---|---|---|
| tcpqueueserver.js:73-74 | `MessageService.dispatchOne` enqueues only when `outN < 0 \|\| outN > outQueues.length - 1`. That is exactly when `outQueues[outN]` does not exist, so it raises a TypeError, and an in-range item is silently dropped | one output queue, a router answering 0, one staged item: the item leaves the staging queue and reaches no output queue, and nothing is raised | enqueue in `outQueues[outN]` when the route is in range | high (not executed) | Routing.BaseDispatchOneDropsRoutedItem | Routing.CorrectedBaseDispatchOneDelivers |

Both variants exist in the model as `Pipeline.Kind` values: `Plain` is as written and `PlainCorrected` is corrected. An out-of-range route is dropped in the corrected version; that is the one reading under which nothing raises. `getMessageService` builds a sequential service, which overrides `dispatchOne`, so the example service is not affected.

## Left out

- Networking: `TcpServer`, `MessageServiceServer`, `MessageServiceClient`, socket events, `listen` and `close`. Writes to the socket are the `sent` field of `Handler.SocketHandler`.
- Logging: `debugPrint`, and the `console.log` of a caught exception in serve. The exception is returned as an `Err` value instead.
- JSON.parse and JSON.stringify are the abstract `Codec` parameter. Text is a plain `string`; the Buffer conversion of the data event is not modelled.
- A request split across two data events is not reassembled, as in the source. Each event is served on its own (`Protocol.ServeConcat` relates the two).
- sha256, btoa and utf8.encode are the `digest` parameter. So the `_hash` test cases are stated for any digest, and no concrete hash is computed.
- Object keys are modelled as plain field lists. JavaScript's coercion of keys to strings for the sequence dictionaries is not modelled (they are keyed by the `_sequence` value itself). Neither are keys inherited from `Object.prototype` or the integer-first enumeration order of `for…in`.
- Only decoded JSON values are modelled. Property access on a non-object gives `undefined`, so strings, arrays and numbers have no properties here.
- Strategies.HashTarget: a non-string `_hash` value names no field in the model. JavaScript would coerce it to a key string.
- Protocol.HandleLine: `req.action == "enqueue"` uses loose equality. The model matches only the string value itself, not values that coerce to it (an array `["enqueue"]`).
- Pipeline.OutOfBounds, Pipeline.Names: the model treats every channel that is not a number as naming no queue, and `next` then raises the TypeError of a missing queue. JavaScript coerces for the comparisons and the index: `next("7")` on five queues raises "Bad next route number" because `"7" > 4`, while `next("2")` and `next([2])` pass the test and return the head of queue 2, since `outQueues["2"]` is queue 2. Both can come from a wire request.
- Pipeline.RouteItem: routers return integers (the `Router` type gives a `Result<int>`). A non-integer route from a caller-supplied router is outside the model.
- Strategies.Reverse: JavaScript's `split('')` reverses UTF-16 code units, and the model reverses Unicode scalar values (Dafny `char`). A string with a surrogate pair comes out differently: JavaScript splits the pair, the model keeps it.
- Strategies.Transform, Strategies.ExampleDispatch: `for…in` over an array or a string visits its indices. JavaScript's exampleTransform turns `[5]` into `[-6]`, and exampleDispatch then routes it to queue 3. The model gives arrays and strings no keys: `[5]` stays `[5]` and is routed to queue 4.
- Values.Value: a number is an exact real, not an IEEE double. In JavaScript, at index 2^53 `seqOutIndex[seqId] + 1` is 2^53 again, so part 2^53 would be released a second time (tcpqueueserver.js:186). The model cannot show this.
- Protocol.EnqueueResponder: `JSON.stringify(undefined)` and a `null` req are outside the model. A request is always a decoded value.
- `test/test.js` is not run. Its "Example Transformation/Dispatching Tests" are restated as lemmas (`TestRuns`), and the TCP client/server tests are left out with the networking.
