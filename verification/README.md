# A verified model of the usage collector's cores

The collector pulls usage messages from a CPA service, stores them durably, and keeps mergeable
statistics over them. This project models the parts whose correctness is hard to see from any one
function, and proves what each part is for:

| files | core |
|---|---|
| `SampleOrder`, `WorstHeap`, `SampleSets`, `SampleRefusal`, `SampleMerger`, `SampleRoutes`, `SampleRuns` | bounded latency samples: the 1000 points smallest by (priority, event ID), kept by a max-heap, merged along two paths |
| `LogBuckets`, `Sketches`, `SketchQuantile`, `SketchRoutes`, `SketchRuns` | the logarithmic latency sketch, its merge paths and its 95th percentile |
| `Uvarint`, `SampleCodec`, `SketchCodec` | varints, zigzag and the two strict binary formats |
| `ControlMessages`, `Ingest` | the inbox writer's filter and the ingest state machine with its parked batch |
| `WorkGate`, `Overview`, `CatchUp` | the pause / drain / exclusive-work gate, overview rows, and the paged catch-up |
| `ActivityGrain`, `ActivityRows` | heatmap buckets and windows, and the rows stored under them |
| `Resp` | the RESP writer and limited reader |
| `SessionCache`, `SessionRefinement` | the write-through session cache and its background activity writer |
| `RateLimiter`, `RateLimiterRuns` | the per-key token bucket with idle eviction and a cap |
| `MetadataSync`, `MetadataFairness` | the debounced metadata refresh loop |
| `RegistrationQueue` | the bounded queue of plugin API keys |

How to read it. Code that updates an object is a class whose methods state the new value of the
object through functions of the old one. Code shared by goroutines is a set of such functions, one
per critical section, and a system that lets any number of goroutines take them in any order; the
theorems hold for every schedule. The ingest runner is a class whose outside world is a script of
answers, one per interaction, with nothing assumed about it. When the script is used up every further
interaction is a cancellation, so each script is one finite run, and every prefix of a longer run is
covered because each interaction demands the invariant of the state it happens in. The outside also
keeps a log of the runner's steps, and its type admits only steps that the mode and the last answer
call for: no step can be skipped, added or taken out of turn.

Specification functions do not stand alone: for each there is a lemma that says what it means without
it, in plain numbers or text (`KeptAreSmallest`, `NinetyFive`, `NoticeMeaning`, `EnterGoesOn`,
`CleanupMeaning`, `ColumnsCount`).

Results that qualify what one would expect of the code:

- The sketch's rank `(count*95+99)/100` is computed in 64 bits. P95 is close to the exact nearest-rank
  sample of every arrangement of the samples if and only if `count*95+99` does not overflow; where it
  does, a latency of 1000 can be reported as 1 (`RankExactness`).
- The controlled catch-up reaches its target only if the target is itself the id of a stored event and
  every event up to it is priced; otherwise it stops with an error where the next page is empty or
  holds an event without a price. `CatchUpOverviewTo` states this both ways.
- A refused `SampleSet.Merge` leaves the set as it was, whatever order the map is visited in, if and
  only if every event offered is already held (`RefusalExactness`); otherwise points of the other set
  can stay behind, untrimmed (`RefusalLeavesBehind`). The query merger never changes anything when it
  refuses.
- Forgetting idle rate-limiter keys is unobservable if and only if an idle bucket has time to fill, or
  is too small ever to grant (`EvictionExactness`); the default settings meet the first condition.
- The search for the limiter's oldest entry finds it in every visiting order if and only if there is no
  empty key, nothing but the empty key, or another key at least as old (`SearchExactness`);
  `EmptyKeyHides` is a map on which it fails. The limiter's
  only caller passes a credential ID, so an empty key needs an empty ID.
- The limiter's advised wait is long enough if and only if the time to the next token is at most a
  second, whole, or at least a millisecond over a whole number of seconds (`RetryAfterExactness`). At a
  token a second or more, the default among them, it always is; at half a token a second it can be half
  a millisecond short (`SlowRateCanBeShort`).
- A control notice that shares a batch with a failed write is reported to the observer once per attempt;
  `Ingest.IngestRunner.Run` accounts for every report.

## Model

| member | source | states |
|---|---|---|
| `Uvarint.AppendUvarint` | internal/latency/sample.go:119-136 | Go's varint writer appends exactly the seven-bit groups of the value |
| `Uvarint.ReadUvarint` | internal/latency/sketch.go:220-233 | Go's varint reader with its two failures (too short, overflow at the tenth byte), as a specification reads it |
| `Uvarint.RoundTrip` | internal/latency/sketch.go:220-233 | every uint64 is read back with its exact length, at any offset and before any bytes |
| `Uvarint.BytesGroups` | internal/latency/sample.go:119-136 | the bytes are seven-bit groups, lowest first, all but the last marked; 300 is written as 172, 2 |
| `Uvarint.ReadGroups` | internal/latency/sketch.go:220-233 | each byte read ends the varint or adds its seven bits; a tenth byte above 1 or an eleventh byte overflows |
| `Uvarint.ReadBounds` | internal/latency/sketch.go:220-233 | an accepted varint is a uint64 of one to ten bytes inside the buffer |
| `Uvarint.ZigzagBijection` | internal/latency/sketch.go:212-218 | zigzag coding is a bijection between int64 and uint64, both ways round |
| `Uvarint.ZigzagValues` | internal/latency/sketch.go:212-218 | n is coded as 2n and -n-1 as 2n+1 |
| `SampleOrder.BottomUnique` | internal/latency/sample.go:281-329 | the k smallest points of a set are uniquely determined |
| `SampleOrder.KeptAreSmallest` | internal/latency/sample.go:281-329 | every kept point has a lower priority than every dropped one, or the same and a lower event ID; all points are kept up to 1000, and 1000 beyond |
| `SampleOrder.BottomAbsorbs` | internal/latency/sample.go:36-70 | trimming a part before adding more never changes the final k smallest |
| `SampleOrder.BottomMerges` | internal/latency/sample.go:55-70 | two parts may be trimmed separately before being merged and trimmed |
| `SampleOrder.BottomStep` | internal/latency/sample.go:281-305 | a new point displaces the worst kept one or is dropped, and the result is again the k smallest |
| `WorstHeap.SiftDownRestores` | internal/latency/sample.go:307-322 | sifting down restores max-heap order and permutes |
| `WorstHeap.SiftUpRestores` | internal/latency/sample.go:199-209 | sifting up after an append restores max-heap order and permutes |
| `WorstHeap.RootIsWorst` | internal/latency/sample.go:281-305 | the root of a heap is a largest point |
| `WorstHeap.SiftDownWorst` | internal/latency/sample.go:307-322 | the in-place loop computes the specified sift-down and touches nothing beyond the heap |
| `WorstHeap.SiftUpWorst` | internal/latency/sample.go:199-209 | the in-place loop computes the specified sift-up |
| `WorstHeap.Heapify` | internal/latency/sample.go:287-294 | the bottom-up loop makes a heap of exactly the given points |
| `WorstHeap.ReplaceRoot` | internal/latency/sample.go:210-214 | replacing the root and sifting down keeps a heap of the set without the old worst and with the new point |
| `WorstHeap.AppendLeaf` | internal/latency/sample.go:199-209 | appending and sifting up keeps a heap of the set with the new point |
| `SampleSets.TrimMap` | internal/latency/sample.go:281-305 | trim leaves in the map exactly the 1000 smallest points and returns the largest of them |
| `SampleSets.SampleSet.AddPoint` | internal/latency/sample.go:72-81 | an exact duplicate is absorbed, a contradiction refused with nothing changed |
| `SampleSets.SampleSet.Add` | internal/latency/sample.go:36-52 | refuses non-positive values and contradictions; otherwise leaves the 1000 smallest of the old points and the new one |
| `SampleSets.SampleSet.Merge` | internal/latency/sample.go:55-70 | fails exactly when the sets contradict each other, naming such an event; otherwise leaves the 1000 smallest of the union; a refusal leaves exactly what the visiting order had filed by the first contradiction |
| `SampleRefusal.RefusalExactness` | internal/latency/sample.go:55-81 | a refused merge changes nothing in any visiting order if and only if every event offered is already held |
| `SampleRefusal.RefusedMergeKeeps` | internal/latency/sample.go:55-81 | so Merge itself leaves the map as it was under that condition |
| `SampleRefusal.RefusalLeavesBehind` | internal/latency/sample.go:55-81 | two concrete sets and the two orders: one leaves a point behind, the other does not |
| `SampleSets.SampleSet.Trim` | internal/latency/sample.go:281-305 | trims exactly when over the limit, and its cutoff is the largest kept point |
| `SampleCodec.EncodePoints` | internal/latency/sample.go:119-136 | the append loop writes the specified encoding |
| `SampleCodec.WalkSampleSet` | internal/latency/sample.go:232-279 | the walker over an offset accepts and rejects, with the same error, as the specified decoder |
| `SampleCodec.DecodeEncode` | internal/latency/sample.go:119-148 | decoding an encoded sample list returns the same list |
| `SampleCodec.DecodedRowIsStrict` | internal/latency/sample.go:232-279 | an accepted row holds valid, strictly ascending points, all of different events, as many as declared |
| `SampleCodec.AcceptedRowAscends` | internal/latency/sample.go:232-279 | an accepted row begins with version 1 and holds at most 2500 points of positive int64 fields, each with its event's priority, ascending by priority and then event ID |
| `SampleCodec.AscendingRowAccepted` | internal/latency/sample.go:119-279 | conversely every such list of points is accepted as written |
| `SampleCodec.RowLayout` | internal/latency/sample.go:119-136 | version, count, then event ID, priority, TTFT and latency as varints, with an example |
| `SampleCodec.NothingTrails` | internal/latency/sample.go:232-279 | a row followed by anything is refused |
| `SampleCodec.RowRefusals` | internal/latency/sample.go:232-279 | empty data, another version and more than 2500 points are refused as such, the first two for nothing else |
| `SampleCodec.StrictMeansDistinct` | internal/latency/sample.go:232-279 | strict order between neighbours implies that all event IDs differ |
| `SampleMerger.SkipHidesNoConflict` | internal/latency/sample.go:165-194 | a point skipped because it lies behind the cutoff cannot concern a retained event |
| `SampleMerger.SkippedDoNotMatter` | internal/latency/sample.go:165-194 | skipped points are not among the 1000 smallest of everything |
| `SampleMerger.Screen` | internal/latency/sample.go:165-194 | the walk's callback sorts a row into skipped, known, new and contradicting points |
| `SampleMerger.QuerySampleMerger.MergePoints` | internal/latency/sample.go:165-218 | a decoded row is merged to the 1000 smallest of the union, or refused with map, heap and size unchanged |
| `SampleMerger.QuerySampleMerger.MergeBinary` | internal/latency/sample.go:165-218 | one encoded row has the common outcome of merging; an error changes nothing; heap and map always hold the same points |
| `SampleMerger.QuerySampleMerger.TakeSamples` | internal/latency/sample.go:221-229 | hands over the set and closes the merger |
| `SampleRoutes.SortedPoints` | internal/latency/sample.go:104-116 | lists exactly the held points in sampling order |
| `SampleRoutes.MarshalBinary` | internal/latency/sample.go:119-136 | succeeds exactly within the point limit, and its bytes decode to the set |
| `SampleRoutes.UnmarshalSampleSet` | internal/latency/sample.go:139-148 | yields exactly the decoded points, with as many map entries as declared |
| `SampleRoutes.DecodeAndMerge` | internal/latency/sample.go:139-148 | the slow path has the common outcome of merging a row |
| `SampleRoutes.MergeOutcomeUnique` | internal/latency/sample.go:165-218 | two outcomes of merging one row agree on verdict and retained points |
| `SampleRoutes.MergeRowsBothWays` | internal/latency/sample.go:165-279 | folding any list of rows through either path stops at the same row with the same verdict and retained set |
| `SampleRoutes.RouteKeepsBottom` | internal/latency/sample.go:36-70 | any tree of adding, encoding, decoding and merging (either path) of conflict-free events leaves exactly the 1000 smallest of them all |
| `SampleRoutes.RouteKeepsSmallest` | internal/latency/sample.go:36-70 | in plain numbers: every kept event has a lower priority than every other event of the route, or the same and a lower ID; at most 1000 are kept, and all when there are no more |
| `SampleRoutes.RouteSucceeds` | internal/latency/sample.go:36-70 | conflict-free events are refused on no such route |
| `SampleRoutes.EncodingDeterministic` | internal/latency/sample.go:104-136 | a set is written as one byte string only |
| `SampleRoutes.RoutesAgree` | internal/latency/sample.go:36-136 | the same conflict-free events on any two routes leave the same set and the same bytes |
| `SampleRuns.Follow` | internal/latency/sample.go:36-229 | any route followed on real sets and mergers: no operation fails, and the set at its end holds the 1000 smallest of all its events |
| `LogBuckets.KeyUnique` | internal/latency/sketch.go:36-54 | a value's bucket is the only one whose half-open range holds it |
| `LogBuckets.KeyMonotone` | internal/latency/sketch.go:36-54 | larger values never have smaller buckets |
| `LogBuckets.KeyBound` | internal/latency/sketch.go:36-54 | every int64 latency has a bucket of at most 3150 |
| `LogBuckets.OnePercent` | internal/latency/sketch.go:199-210 | the unrounded representative of a value's bucket is within one percent of the value |
| `LogBuckets.RoundedOnePercent` | internal/latency/sketch.go:199-210 | rounding and clamping add at most one half |
| `LogBuckets.RepresentativeRange` | internal/latency/sketch.go:199-210 | a representative is a positive int64, and 1 for keys of zero and below |
| `SketchCodec.WalkSketch` | internal/latency/sketch.go:150-188 | the walker accepts and rejects as the specified decoder |
| `SketchCodec.DecodeEncodeBins` | internal/latency/sketch.go:118-188 | decoding an encoded sketch returns its bins and their sum |
| `SketchCodec.DecodedSketchIsStrict` | internal/latency/sketch.go:150-188 | accepted bins are as many as declared, with ascending distinct keys, positive counts and a uint64 sum |
| `SketchCodec.AcceptedSketch` | internal/latency/sketch.go:150-188 | in plain numbers: version 1, ascending int64 keys, positive counts each within the total, a total below 2^64 |
| `SketchCodec.SketchLayout` | internal/latency/sketch.go:118-134 | version, count, then zigzag key and count as varints, with an example |
| `Sketches.Sketch.Add` | internal/latency/sketch.go:36-54 | refused exactly for a non-positive value or a full count; otherwise one more sample in its bucket; count stays the sum of bins |
| `Sketches.MergeBins` | internal/latency/sketch.go:57-75 | the merge loop adds all bins; its per-bin overflow branch is dead |
| `Sketches.Sketch.Merge` | internal/latency/sketch.go:57-75 | all or nothing: fails exactly when the counts overflow together |
| `Sketches.UnmarshalSketch` | internal/latency/sketch.go:137-147 | yields the decoded bins, as many map entries as bins, with count equal to their sum |
| `Sketches.QuerySketchMerger.MergeBinary` | internal/latency/query_sketch.go:19-51 | one encoded row has the common outcome of merging; any failure closes the merger |
| `Sketches.QuerySketchMerger.TakeSketch` | internal/latency/query_sketch.go:54-61 | hands over a sketch only if every row so far was accepted, and it is their sum |
| `Sketches.DecodeAndMergeSketch` | internal/latency/query_sketch.go:19-51 | decode-then-merge has the same verdict and result |
| `SketchQuantile.SortedKeys` | internal/latency/sketch.go:190-197 | lists the bucket keys in ascending order |
| `SketchQuantile.P95` | internal/latency/sketch.go:99-115 | picks the bucket of the sample at the computed rank; the final fallback return is unreachable |
| `SketchQuantile.NearestRankMeaning` | internal/latency/sketch.go:99-115 | the rank is the one number r with 100(r-1) < 95n <= 100r |
| `SketchQuantile.NinetyFive` | internal/latency/sketch.go:99-115 | at least 95 in 100 samples are at most the sample at that rank, and fewer than 95 in 100 are below it |
| `SketchQuantile.P95OfSamples` | internal/latency/sketch.go:99-115 | for samples in sorted order the bucket picked is that of the sample x such that at least 95 in 100 samples are at most x and fewer are below it, and the representative is within one percent of x |
| `SketchQuantile.RankExactness` | internal/latency/sketch.go:99-115 | P95 is close to the nearest-rank sample of every n samples if and only if n*95+99 fits in 64 bits |
| `SketchRoutes.MarshalSketch` | internal/latency/sketch.go:118-134 | never fails for a reachable sketch, and its bytes decode to the same counts |
| `SketchRoutes.RouteCountsSamples` | internal/latency/sketch.go:36-75 | any tree of adding, coding and merging (either path) counts exactly its samples |
| `SketchRoutes.P95OfRoute` | internal/latency/sketch.go:99-115 | however the samples were grouped, P95 is within one percent (and half a unit for rounding) of a sample x such that at least 95 in 100 samples are at most x and fewer are below it |
| `SketchRuns.MergeSketchRowsBothWays` | internal/latency/query_sketch.go:19-61 | folding any list of rows through either path stops at the same row with the same verdict and the same bins |
| `SketchRuns.Follow` | internal/latency/sketch.go:36-147 | any route followed on real sketches and mergers: no operation fails, and the sketch at its end has counted exactly its samples |
| `ControlMessages.NoRequestIdInNotice` | internal/poller/control_message.go:20-37 | a control notice can never contain the quoted text request_id |
| `ControlMessages.ParseControl` | internal/poller/control_message.go:39-90 | recognises exactly the texts of the form { "refresh" or "support_refresh" : true } with white space between tokens |
| `ControlMessages.NoticeMeaning` | internal/poller/control_message.go:39-150 | a notice is exactly a text `{ "field" : true }` with white space anywhere between the tokens |
| `ControlMessages.UsageMeaning` | internal/poller/control_message.go:20-90 | stored is everything but white space, null in white space and the texts of the two notices |
| `ControlMessages.SignalsMeaning` | internal/poller/control_message.go:20-37 | a refresh text asks for a sync and shows support, a support_refresh text only shows support, and nothing else is heard |
| `ControlMessages.Classify` | internal/poller/control_message.go:20-37 | same answer as the full scan: the request_id shortcut is redundant |
| `ControlMessages.IgnorablePayload` | internal/poller/redis_inbox_writer.go:148-161 | true exactly for blank text and for null alone |
| `ControlMessages.FilterUsage` | internal/poller/redis_inbox_writer.go:80-146 | the lazily copied list is exactly the usage messages in order, and the observer is told of exactly the notices |
| `ControlMessages.UsageOnlyCounts` | internal/poller/control_message.go:20-37 | filtering keeps every usage message as often as it came and nothing else |
| `Ingest.UsageOfBatch` | internal/poller/redis_inbox_writer.go:80-139 | filtering a batch's messages and filtering its log entries are the same |
| `Ingest.EntriesAre` | internal/poller/redis_ingest_runner.go:796-812 | every message of a batch is an entry under the batch's source, in order |
| `Ingest.ConsumeKeeps` | internal/poller/redis_ingest_runner.go:796-812 | taking a batch keeps the account: consumed is handed over followed by held |
| `Ingest.HandOverKeeps` | internal/poller/redis_ingest_runner.go:796-812 | writing the first held batch keeps the account, and the log stays the usage part of what was handed over |
| `Ingest.AttemptExplained` | internal/poller/redis_inbox_writer.go:80-139 | a call of the writer reports its notices whether it succeeds or not, and hands over only if it does |
| `Ingest.StoresBeforeMore` | internal/poller/redis_ingest_runner.go:374-427 | in every run what a pull or a window brought goes to the writer before anything else is done, whatever ended the window, and a refused write is followed by a wait |
| `Ingest.HTTPIsAFallback` | internal/poller/redis_ingest_runner.go:163-725 | HTTP is pulled from only in HTTP mode, after a failed Redis pull, while a degraded mode is not due to try Redis, or with a write in between |
| `Ingest.SubscribesWhenDue` | internal/poller/redis_ingest_runner.go:163-528 | a subscription is tried first of all, and again only when its retry is due after one has broken |
| `Ingest.SubscriptionDecides` | internal/poller/redis_ingest_runner.go:163-318 | a new subscription is lived in, beginning with its Redis backfill; without one Redis is pulled from; every other mode begins with a context check |
| `Ingest.FailedPullFallsBack` | internal/poller/redis_ingest_runner.go:320-725 | a failed Redis pull is followed by HTTP, a failed HTTP pull by receiving in subscribe mode and by a wait elsewhere |
| `Ingest.StoredPullGoesOn` | internal/poller/redis_ingest_runner.go:163-725 | a stored pull settles the first mode on its remote, goes on with the backfill or the polling while batches are whole, and decides whether redis_pull mode is degraded |
| `Ingest.TurnsPull` | internal/poller/redis_ingest_runner.go:428-725 | a turn of each mode begins with its own remote, or with a look at the clock in the degraded ones |
| `Ingest.RetriesWhenDue` | internal/poller/redis_ingest_runner.go:428-600 | a subscription or Redis is tried again exactly when its retry is due; until then polling goes on with what works |
| `Ingest.WaitsThenGoesOn` | internal/poller/redis_ingest_runner.go:163-725 | after a wait a polling mode takes its next turn, and a subscription or the choice of a mode starts over |
| `Ingest.SubscriptionGoesOn` | internal/poller/redis_ingest_runner.go:266-427 | receiving goes on after a window that ran out, a broken subscription is polled around, a cancelled one is left |
| `Ingest.StartsOverWhenStopped` | internal/poller/redis_ingest_runner.go:163-318 | the choice of a mode starts over only after a cancelled context, a wait, or the end of a subscription |
| `Ingest.PollingTurn` | internal/poller/redis_ingest_runner.go:428-725 | in the polling loops a whole batch is followed by the next turn at once, anything else by a wait; in redis_pull mode the remote that worked decides whether the mode is degraded |
| `Ingest.IngestRunner.Pull` | internal/poller/redis_ingest_runner.go:746-760 | can only happen with nothing parked; what the outside answers is accounted for under its source |
| `Ingest.IngestRunner.Receive` | internal/poller/redis_ingest_runner.go:374-397 | can only happen with nothing parked; the message joins the batch being collected |
| `Ingest.IngestRunner.Insert` | internal/poller/redis_inbox_writer.go:80-139 | the whole batch is handed over or nothing is, and it succeeds exactly if the store accepts it or there is no usage in it |
| `Ingest.IngestRunner.WriteInboxLocked` | internal/poller/redis_ingest_runner.go:796-812 | writes what is parked and then what is new; a failure is that of an insert that was tried and leaves exactly those batches parked, a success leaves nothing parked and everything consumed handed over |
| `Ingest.IngestRunner.SerialPullAndWrite` | internal/poller/redis_ingest_runner.go:727-781 | a parked batch goes first; while it cannot be written nothing is pulled; otherwise exactly one pull from the given remote; the count is of the messages stored; a remote failure implies nothing is parked; and what comes next is fixed by the outcome and the mode |
| `Ingest.IngestRunner.PullRedisElseHTTP` | internal/poller/redis_ingest_runner.go:459-503 | HTTP is pulled only after a Redis pull failed, or when Redis is not due |
| `Ingest.IngestRunner.DrainBackfillSource` | internal/poller/redis_ingest_runner.go:354-372 | drains one remote only until a short batch, after which receiving may start; only an inbox failure leaves a batch parked |
| `Ingest.IngestRunner.BackfillAfterSubscribe` | internal/poller/redis_ingest_runner.go:320-352 | success means nothing is parked, so receiving may start |
| `Ingest.IngestRunner.ReceiveSubscribeBatches` | internal/poller/redis_ingest_runner.go:374-426 | every received message is written or parked before it returns, parked exactly on an inbox failure; receiving goes on after a window that ran out, degraded polling follows a broken subscription |
| `Ingest.IngestRunner.FinishTurn` | internal/poller/redis_ingest_runner.go:428-725 | a polling turn ends at once after a stored whole batch and otherwise with a wait |
| `Ingest.IngestRunner.RunSubscribeDegradedPolling` | internal/poller/redis_ingest_runner.go:428-528 | keeps the invariant, and polls, subscribes and waits in the one lawful order; it ends in a new subscription or cancelled |
| `Ingest.IngestRunner.RunSubscribeMode` | internal/poller/redis_ingest_runner.go:266-318 | keeps the invariant through backfill, receiving, degradation and reconnection, in the one lawful order |
| `Ingest.IngestRunner.RunRedisPullMode` | internal/poller/redis_ingest_runner.go:530-680 | keeps the invariant; Redis while it works, HTTP after it fails, Redis again when due, in the one lawful order |
| `Ingest.IngestRunner.RunHTTPPullMode` | internal/poller/redis_ingest_runner.go:682-725 | keeps the invariant, and pulls from HTTP only, waiting after anything but a whole batch |
| `Ingest.IngestRunner.Run` | internal/poller/redis_ingest_runner.go:163-264 | whatever the outside does: at most one batch parked, and it is the batch of the latest insert, which failed; consumed is handed over followed by parked in order, the log is exactly the handed-over usage under its own sources, nothing recorded earlier changes, the observer has been told exactly once per call of the writer; and the run takes steps in their order until a cancelled context or wait tells it to stop |
| `WorkGate.AggregationWorkGate.Enter` | internal/poller/usage_aggregation_pause.go:25-45 | the locked section of enter, as the system uses it |
| `WorkGate.AggregationWorkGate.Leave` | internal/poller/usage_aggregation_pause.go:48-55 | leave, with its broadcast at the last turn |
| `WorkGate.AggregationWorkGate.Pause` | internal/poller/usage_aggregation_pause.go:58-69 | the first locked section of pause |
| `WorkGate.AggregationWorkGate.Settle` | internal/poller/usage_aggregation_pause.go:83-103 | one turn of pause's waiting loop |
| `WorkGate.AggregationWorkGate.Resume` | internal/poller/usage_aggregation_pause.go:70-82 | one turn of resume's loop |
| `WorkGate.AggregationWorkGate.BeginControlled` | internal/poller/usage_aggregation_pause.go:107-126 | admits controlled work only when paused, settled and not already running |
| `WorkGate.AggregationWorkGate.FinishControlled` | internal/poller/usage_aggregation_pause.go:121-126 | the end of controlled work, with its broadcast |
| `WorkGate.NextKeeps` | internal/poller/usage_aggregation_pause.go:15-142 | every step of every goroutine keeps the protocol's invariant |
| `WorkGate.RunInv` | internal/poller/usage_aggregation_pause.go:15-142 | the invariant holds after every schedule of any number of goroutines |
| `WorkGate.ControlledIsAlone` | internal/poller/usage_aggregation_pause.go:15-142 | controlled work implies paused, no ordinary turn, and no second controlled worker |
| `WorkGate.NoLostWakeUp` | internal/poller/usage_aggregation_pause.go:15-142 | whoever waits on a still-open channel waits for something still false, on the channel to be closed next |
| `WorkGate.OwnResumeEndsPause` | internal/poller/usage_aggregation_pause.go:58-83 | the gate opens only in the running resume of the newest pause |
| `WorkGate.StaleResumeIsHarmless` | internal/poller/usage_aggregation_pause.go:58-83 | calling an earlier pause's resume again does nothing |
| `WorkGate.OnlyAnUncalledResumeBlocks` | internal/poller/usage_aggregation_pause.go:15-142 | if everybody is blocked, the one thing missing is the call of the settled pause's resume |
| `WorkGate.EnterGoesOn` | internal/poller/usage_aggregation_pause.go:25-45 | in every reachable state a live enter of an open gate begins a turn, at a paused gate it waits on the channel to be closed next, and a cancelled one leaves no trace |
| `WorkGate.LeaveGoesOn` | internal/poller/usage_aggregation_pause.go:48-55 | a turn ends with one fewer active, and the last one wakes whoever waits |
| `WorkGate.PauseGoesOn` | internal/poller/usage_aggregation_pause.go:58-69 | a live pause of an open gate closes it and drains; any other is refused without a trace |
| `WorkGate.DrainGoesOn` | internal/poller/usage_aggregation_pause.go:83-103 | a live pause is settled as soon as no turn is left, listens while one is, and resumes by itself when cancelled |
| `WorkGate.ResumeStarts` | internal/poller/usage_aggregation_pause.go:58-83 | the first call of a settled pause's resume runs it |
| `WorkGate.ResumeGoesOn` | internal/poller/usage_aggregation_pause.go:70-82 | a resume opens the gate and wakes everybody, unless controlled work is going on, for which it waits |
| `WorkGate.ControlledGoesOn` | internal/poller/usage_aggregation_pause.go:107-126 | controlled work is admitted exactly if live and the gate is paused, settled and free |
| `WorkGate.FinishGoesOn` | internal/poller/usage_aggregation_pause.go:121-126 | the end of controlled work frees the gate and wakes the resume that waits |
| `WorkGate.WokenGoesOn` | internal/poller/usage_aggregation_pause.go:25-103 | whoever was woken looks again, and a cancelled wait is given up |
| `Overview.AddEvent` | internal/overview/aggregate.go:53-93 | the field-by-field additions are the event's contribution added to its row |
| `Overview.GroupedAppend` | internal/overview/aggregate.go:31-109 | grouping a concatenation is the keyed merge of the parts |
| `Overview.RowsOfAppend` | internal/overview/aggregate.go:31-109 | the rows of a concatenation of events are the keyed merge of the rows of the parts |
| `Overview.MergeAssoc` | internal/overview/aggregate.go:31-109 | keyed merging is associative |
| `Overview.RowsConserve` | internal/overview/aggregate.go:31-189 | over any listing of the keys the rows add up to the events, none lost or counted twice |
| `Overview.TotalCounts` | internal/overview/aggregate.go:148-189 | requests are the number of events, each a success or a failure, and token columns are the token sums |
| `Overview.HourlyAndDailyAgree` | internal/overview/aggregate.go:31-189 | hourly rows and daily rows each add up to the events, request, outcome and token counts included |
| `Overview.ColumnsCount` | internal/overview/aggregate.go:148-189 | requests, failures, successes, unavailable costs and both speed counts are the numbers of such events; costs and tokens are their sums |
| `Overview.SpeedMeaning` | internal/overview/aggregate.go:73-91 | a speed is 1000 times the output tokens per millisecond of latency, a decode speed per millisecond after the first token; neither exists without output and latency |
| `Overview.RowMeaning` | internal/overview/aggregate.go:31-109 | a key has a row exactly if some event has the key, and the row is the total of precisely those events |
| `Overview.MaxIdMeaning` | internal/overview/aggregate.go:44-47 | no event has a larger id, and it is zero or the id of an event |
| `Overview.BuildRows` | internal/overview/aggregate.go:31-109 | succeeds exactly when every event is priced with a finite cost; then hourly, daily rows and largest id are the specified ones |
| `CatchUp.EventsInSplit` | internal/repository/usage_aggregation_page.go:52-82 | the events of a range are those of its two halves in order |
| `CatchUp.EventsInMeaning` | internal/repository/usage_aggregation_page.go:52-82 | exactly the stored events of the range, by ascending id |
| `CatchUp.LastEventEndsRun` | internal/poller/usage_aggregation_pause.go:192-207 | a page's largest id marks exactly the range the page covers |
| `CatchUp.Store.LoadPage` | internal/repository/usage_aggregation_page.go:52-82 | the lowest ids of (after, target], at most the limit |
| `CatchUp.Store.Apply` | internal/repository/usage_overview_stats.go:121-134 | rows and cursor change together, and only if the cursor is the expected one and advances |
| `CatchUp.Store.ApplyPage` | internal/poller/usage_aggregation_pause.go:192-207 | one page is counted exactly, or nothing changes |
| `CatchUp.Store.CatchUpOverviewTo` | internal/poller/usage_aggregation_pause.go:158-189 | terminates; the rows grow by exactly one BuildRows over the events between start and final cursor, none above the target; success if and only if the target is passed already, or stored with everything priced; a failure without faults stands before an empty or unpriced page |
| `ActivityGrain.FloorDivFloors` | internal/activity/grain.go:223-232 | floorDiv is the mathematical floor for negative values too |
| `ActivityGrain.BoundarySpec` | internal/activity/grain.go:216-221 | the i-th boundary is the floor of i 364ths of the window |
| `ActivityGrain.BoundaryPeriod` | internal/activity/grain.go:216-221 | 364 boundaries later exactly one window has passed |
| `ActivityGrain.EstimateIsClose` | internal/activity/grain.go:191-204 | the estimate is never late, and the bucket after next is never early |
| `ActivityGrain.FixedBucketIndex` | internal/activity/grain.go:191-204 | finds the containing bucket with at most one upward correction and no downward one |
| `ActivityGrain.FixedBucketUnique` | internal/activity/grain.go:206-221 | no two fixed buckets share an instant |
| `ActivityGrain.ShortBucketFor` | internal/activity/grain.go:144-159 | finds the containing share of the local day |
| `ActivityGrain.ShortBucketUnique` | internal/activity/grain.go:144-159 | no two shares of any local days share an instant |
| `ActivityGrain.BucketForTimestamp` | internal/activity/grain.go:43-68 | for every instant, before or after the epoch, the one grid bucket containing it; an error exactly for an unknown grain |
| `ActivityGrain.WindowMatchesStorage` | internal/activity/grain.go:71-127 | every instant in a window is stored under the window's own bucket for it |
| `ActivityGrain.WindowMeaning` | internal/activity/grain.go:71-127 | to the nanosecond: 364 buckets, the reference after the start of the last and not after its end, and every instant in between in one of them |
| `ActivityGrain.FixedWindow` | internal/activity/grain.go:103-126 | 364 contiguous grid buckets ending at the least boundary not before the reference, spanning the whole window |
| `ActivityGrain.DailyWindow` | internal/activity/grain.go:77-101 | 364 contiguous local days, likewise |
| `ActivityGrain.StepBack` | internal/activity/grain.go:161-176 | one nanosecond before a bucket's start lies the bucket that ends there, across midnights |
| `ActivityGrain.ShortWindow` | internal/activity/grain.go:161-176 | the backward walk gives 364 contiguous buckets across unequal days |
| `ActivityGrain.WindowEndingAt` | internal/activity/grain.go:71-127 | all four grains give such a window; medium and long span exactly 7 and 30 days |
| `ActivityRows.BuildActivityRows` | internal/activity/aggregate.go:51-129 | one posting per event and retaining grain, under the bucket of the event's time; rows are the grouped postings |
| `ActivityRows.PostedUnique` | internal/activity/aggregate.go:51-108 | the postings, hence the rows, are determined by the events and the calendar |
| `ActivityRows.ActivityRowsAppend` | internal/activity/aggregate.go:51-129 | the rows of two pages together are the keyed merge of the rows of each |
| `ActivityRows.ActivityRowsConserve` | internal/activity/aggregate.go:85-107 | the rows add up to one success or failure and the event's tokens per event and retaining grain |
| `ActivityRows.DailyAlwaysCounts` | internal/activity/aggregate.go:11-49 | the daily grain counts every event |
| `ActivityRows.RetentionMeaning` | internal/activity/aggregate.go:11-49 | short, medium and long rows take events of the last 3, 8 and 31 days to the nanosecond, daily rows take all |
| `ActivityRows.DutiesMeaning` | internal/activity/aggregate.go:58-66 | an event is counted once in each of the four grains that retain it and in no other |
| `ActivityRows.OutcomesCount` | internal/activity/aggregate.go:85-107 | failures are the failed events and successes all others, one per retaining grain |
| `Resp.AtoiDecimal` | internal/cpa/redis_queue_client.go:247-257 | a written length is read back |
| `Resp.AtoiMeaning` | internal/cpa/redis_queue_client.go:247-303 | a number is its digits under an optional sign, refused outside int64 |
| `Resp.LineRoundTrip` | internal/cpa/redis_queue_client.go:305-325 | a line without newline is read back exactly if it fits the line limit, and refused otherwise |
| `Resp.AcceptedWithinLimits` | internal/cpa/redis_queue_client.go:215-303 | every accepted value respects length, array, line and depth limits, and its bulk bytes are exactly what the budget lost |
| `Resp.PartsRoundTrip` | internal/cpa/redis_queue_client.go:172-182 | written parts are read back binary-safe, or refused when a size limit is exceeded |
| `Resp.CommandRoundTrip` | internal/cpa/redis_queue_client.go:172-182 | a written command followed by any bytes is read back as its parts leaving those bytes, if and only if it is within the limits |
| `Resp.CommandLayout` | internal/cpa/redis_queue_client.go:172-182 | a command is `*`, the number of parts, and per part `$`, its length and its bytes, each followed by CR LF |
| `Resp.LineValues` | internal/cpa/redis_queue_client.go:223-303 | a `+` line is a string, a `-` line an error, and a negative length is nil for bulks and arrays alike |
| `Resp.OtherTags` | internal/cpa/redis_queue_client.go:223-245 | no other first byte begins a value, and nothing is read below the fourth level |
| `Resp.CommandLimits` | internal/cpa/redis_queue_client.go:172-303 | a command is read back exactly up to the array limit, 4194304 bytes a part and 16777216 bytes in all |
| `Resp.WriteCommand` | internal/cpa/redis_queue_client.go:172-182 | writes exactly the specified bytes |
| `Resp.Strings` | internal/cpa/redis_queue_client.go:192-209 | the bulk strings of a response in order |
| `Resp.Reader.ReadLine` | internal/cpa/redis_queue_client.go:305-325 | accepts and consumes as the specified line |
| `Resp.Reader.ReadBulk` | internal/cpa/redis_queue_client.go:247-277 | accepts, consumes and charges as specified |
| `Resp.Reader.ReadArray` | internal/cpa/redis_queue_client.go:279-303 | reads its items one level deeper, refusing as specified |
| `Resp.Reader.ReadValue` | internal/cpa/redis_queue_client.go:223-245 | the recursive reader terminates and agrees with the specified parser |
| `Resp.Reader.ReadResponse` | internal/cpa/redis_queue_client.go:215-221 | a whole response agrees with the parser and is within all limits |
| `Resp.Exchange` | internal/cpa/redis_queue_client.go:172-221 | writer, reader and strings together return the original parts exactly for commands within the limits |
| `SessionCache.SessionManager.Create` | internal/auth/session.go:383-414 | cleanup, policy check, store, then cache |
| `SessionCache.SessionManager.Touch` | internal/auth/session.go:424-457 | the locked part: newest activity pending, and a writer started only if none runs |
| `SessionCache.SessionManager.TakePending` | internal/auth/session.go:461-479 | takes one pending update, or stops running exactly when there is none |
| `SessionCache.SessionManager.GetPersisted` | internal/auth/session.go:607-639 | cache again, then store; invalid sessions are removed from both |
| `SessionCache.SessionManager.CleanupExpiredLocked` | internal/auth/session.go:715-727 | removes exactly the expired sessions from cache and store |
| `SessionCache.CleanupMeaning` | internal/auth/session.go:715-727 | session by session: unexpired ones stay as they are, all others go |
| `SessionCache.CreateMeaning` | internal/auth/session.go:383-414 | a login adds its own session, valid for ttl from now, removes the expired ones and leaves every other one unchanged; a refused or unsaved login only cleans up |
| `SessionCache.RemoveMeaning` | internal/auth/session.go:695-707 | a logout removes exactly its own session |
| `SessionCache.RemoveRoleMeaning` | internal/auth/session.go:670-693 | revoking a role removes exactly its sessions, besides the expired ones |
| `SessionCache.SetAliasMeaning` | internal/auth/session.go:574-605 | an alias reaches the named unexpired admin session in store and cache, and no other session |
| `SessionCache.AllowedMeaning` | internal/auth/session.go:315-335 | local sessions need no policy; an OIDC session needs an enabled one for its issuer, client and subject |
| `SessionCache.TouchMeaning` | internal/auth/session.go:424-457 | activity is recorded exactly when the address changes or a minute has passed, in the cache and for the writer |
| `SessionCache.WriterMeaning` | internal/auth/session.go:461-484 | the writer takes one update and stops when there is none; a row that is gone stays away |
| `SessionCache.NextKeeps` | internal/auth/session.go:383-508 | every step of every request, revocation, cleanup, writer and restart keeps the invariant |
| `SessionCache.CachedAnswer` | internal/auth/session.go:491-508 | a cached session is answered exactly when the store alone would answer, and alike up to last-seen |
| `SessionCache.PersistedAnswer` | internal/auth/session.go:607-639 | so is the slower path, and what it denies is gone |
| `SessionCache.AnswersAreValid` | internal/auth/session.go:491-639 | answered are exactly the stored sessions that are neither expired nor against the policy |
| `SessionCache.GetGoesOn` | internal/auth/session.go:491-508 | a valid cached session answers the request, an invalid one is to be removed, one that is not cached to be read; an empty token is refused |
| `SessionCache.StoreGoesOn` | internal/auth/session.go:607-639 | a valid stored session is cached from then on and any other is gone |
| `SessionCache.RequestEnds` | internal/auth/session.go:417-508 | the removal or the recording, and the request is over; recording starts a writer only if none runs |
| `SessionCache.WriterGoesOn` | internal/auth/session.go:461-484 | the writer stores the last-seen of exactly the session it took, or notes that it could not, and goes back for more |
| `SessionCache.WriterTakes` | internal/auth/session.go:461-484 | the writer takes a waiting update, and ends only when none waits |
| `SessionCache.WriterAccounts` | internal/auth/session.go:417-484 | at most one writer; none running means nothing pending, and cache equals store except where a write failed |
| `SessionCache.NeverResurrected` | internal/auth/session.go:607-727 | after removal no touch, reload, late write or restart brings a session back |
| `SessionCache.LogoutIsFinal` | internal/auth/session.go:607-727 | after a logout the session is denied for ever, whatever happens, and no other session is concerned |
| `SessionRefinement.StepAlike` | internal/auth/session.go:383-727 | one step of the cached manager and of a store-only manager keep the stores alike and settle the same answer, given, denied or not found |
| `SessionRefinement.RunsAlike` | internal/auth/session.go:383-727 | so do whole runs, step by step |
| `SessionRefinement.AnswersAlike` | internal/auth/session.go:491-639 | in every run, at every step, Get answers as the store-only manager beside it, up to last-seen |
| `RateLimiter.EvictionKeepsLevel` | internal/api/export_auth.go:125-131 | an evicted bucket was full when idleTTL*rate >= burst |
| `RateLimiter.EvictionUnobservable` | internal/api/export_auth.go:93-131 | the same requests get the same answers with and without idle eviction |
| `RateLimiter.TokensConserved` | internal/api/export_auth.go:93-120 | grants plus remaining tokens never exceed the initial tokens plus what dripped in |
| `RateLimiter.GrantsBounded` | internal/api/export_auth.go:93-120 | in any span a key is granted at most burst plus rate times the span |
| `RateLimiter.LevelMeaning` | internal/api/export_auth.go:93-114 | a new key has a full bucket; any other what was left and has dripped in since, up to the burst |
| `RateLimiter.GrantsWithinRate` | internal/api/export_auth.go:93-120 | the bound in plain numbers: burst plus rate times the time between first and last |
| `RateLimiter.BurstGranted` | internal/api/export_auth.go:93-120 | a new key's requests at one time are granted exactly as long as the burst lasts |
| `RateLimiter.LevelsTell` | internal/api/export_auth.go:104-122 | limiters whose buckets hold different amounts answer some run of requests differently |
| `RateLimiter.ShortIdleShows` | internal/api/export_auth.go:125-131 | for every configuration with idleTTL*rate below a burst of at least one token, a state and a run of requests on which eviction shows |
| `RateLimiter.EvictionExactness` | internal/api/export_auth.go:93-131 | eviction cannot be observed if and only if idleTTL*rate >= burst or the bucket holds less than one token |
| `RateLimiter.RetryAfterAlmostSuffices` | internal/api/export_auth.go:115-120 | the advised wait is at least one second and short by less than a millisecond |
| `RateLimiter.RetryAfterExactness` | internal/api/export_auth.go:115-120 | exactly when the advised wait reaches the next token |
| `RateLimiter.FastRateNeverShort` | internal/api/export_auth.go:115-120 | at one token a second or more it always does |
| `RateLimiter.SlowRateCanBeShort` | internal/api/export_auth.go:115-120 | at half a token a second, a level from which it does not |
| `RateLimiter.SearchExactness` | internal/api/export_auth.go:135-148 | the search finds a least recently used entry in every visiting order if and only if no strictly oldest empty key stands beside another key |
| `RateLimiter.EmptyKeyHides` | internal/api/export_auth.go:135-148 | a concrete map and order on which it picks the wrong entry |
| `RateLimiter.OldestKey` | internal/api/export_auth.go:135-148 | the loop is the search in some visiting order, and finds a least recently used entry under that condition |
| `RateLimiter.Spend` | internal/api/export_auth.go:104-122 | refill, cap and spend as specified |
| `RateLimiter.IngestRateLimiter.Allow` | internal/api/export_auth.go:93-123 | as specified when the cap is not hit; at the cap, as specified once one entry has made room; never more entries than the cap |
| `RateLimiterRuns.FewKeysFit` | internal/api/export_auth.go:93-148 | a fresh limiter never comes to its cap if no more keys than the cap are used within any idle time |
| `RateLimiterRuns.AllowAll` | internal/api/export_auth.go:93-148 | any run of allow stays within the cap; while the cap pushes nobody out it answers as a never-evicting limiter and grants each key at most burst plus rate times the span |
| `RateLimiterRuns.CapForgets` | internal/api/export_auth.go:135-148 | with one place and two keys each pushes the other out, and the first is granted a second full burst at once |
| `MetadataSync.MetadataSyncRunner.RecordRefreshRequest` | internal/app/metadata_sync.go:283-298 | mode, activation and debounce start under one lock |
| `MetadataSync.MetadataSyncRunner.RefreshDebounceDelay` | internal/app/metadata_sync.go:320-338 | never negative, and the least wait after which a full debounce has passed since the latest request |
| `MetadataSync.NextKeeps` | internal/app/metadata_sync.go:59-187 | every step of the loop and of every request keeps the invariant |
| `MetadataSync.NoRefreshIsLost` | internal/app/metadata_sync.go:59-187 | at every moment an owed request has a queued signal, an armed timer, a sender about to signal, or the loop already acting on it |
| `MetadataSync.FirstSyncCoversEarly` | internal/app/metadata_sync.go:95-106 | requests made before activation wait for the first connected sync, which starts next; no sync starts earlier |
| `MetadataSync.PollSyncs` | internal/app/metadata_sync.go:107-116 | a tick of the period syncs exactly if the runner is activated and not in notification mode |
| `MetadataSync.ConnectionSyncs` | internal/app/metadata_sync.go:95-106 | a connection activates the runner and syncs, whatever the mode |
| `MetadataSync.RequestOwes` | internal/app/metadata_sync.go:166-187 | an activated runner owes the request a sync and restarts the debounce; before that it only notes the mode |
| `MetadataSync.SignalArms` | internal/app/metadata_sync.go:117-126 | a signal arms the timer for one debounce after the latest request, or for now |
| `MetadataSync.TimerSyncs` | internal/app/metadata_sync.go:127-146 | the timer syncs exactly if the latest request is a debounce old, and otherwise is armed for that moment |
| `MetadataSync.QuietWindow` | internal/app/metadata_sync.go:127-144 | in every run, when a refresh sync is about to start, a request of the last debounce was recorded after the loop's look at the quiet window |
| `MetadataSync.EveryRequestCanBeAnswered` | internal/app/metadata_sync.go:59-187 | from every reachable state at most nine steps without new requests answer everything owed |
| `MetadataFairness.NeverFurther` | internal/app/metadata_sync.go:59-187 | without new requests no step of the loop, a sender or the clock puts the sync further off |
| `MetadataFairness.HelpfulIsNear` | internal/app/metadata_sync.go:90-146 | a step that brings it nearer is possible now or after at most two of the loop's own steps |
| `MetadataFairness.FairnessHelps` | internal/app/metadata_sync.go:90-187 | if the loop goes on, ready cases of the select are chosen sooner or later and senders send, such a step is taken or the sync is nearer already |
| `MetadataFairness.EveryFairScheduleAnswers` | internal/app/metadata_sync.go:59-187 | after any past, every endless schedule without new requests that is fair to the loop, its select cases, the senders and the clock answers everything owed |
| `RegistrationQueue.WithoutFacts` | internal/poller/plugin_api_key_runner.go:178-185 | releasing one key takes exactly its bytes off the sum |
| `RegistrationQueue.SoundCount` | internal/poller/plugin_api_key_runner.go:72-104 | the number of accepted keys is within its limit |
| `RegistrationQueue.EveryOfferDecided` | internal/poller/plugin_api_key_runner.go:72-104 | every plugin identity of a notification ends up accepted, unless there was no room at its turn |
| `RegistrationQueue.RefusedMeaning` | internal/poller/plugin_api_key_runner.go:76-94 | refused is exactly a new plugin key that would exceed the number of keys or the bytes of keys and providers |
| `RegistrationQueue.OfferAllMerges` | internal/poller/plugin_api_key_runner.go:72-104 | a notification keeps the books within the limits, changes nothing accepted and adds only its own plugin keys |
| `RegistrationQueue.MergeAll` | internal/poller/plugin_api_key_runner.go:76-94 | the loop offers the identities in turn and counts exactly those without room |
| `RegistrationQueue.FillBatch` | internal/poller/plugin_api_key_runner.go:145-155 | a batch takes at most 1000 waiting keys, all of them if fewer, and they go from pending into the batch unchanged |
| `RegistrationQueue.ReleaseDone` | internal/poller/plugin_api_key_runner.go:173-186 | exactly the keys no longer remaining leave |
| `RegistrationQueue.PluginAPIKeyRunner.NotifyPluginAPIKeys` | internal/poller/plugin_api_key_runner.go:72-104 | the books become those after offering each identity in turn, refusals are counted, every new key is one admission |
| `RegistrationQueue.PluginAPIKeyRunner.TakeBatch` | internal/poller/plugin_api_key_runner.go:145-160 | the window closes only when nothing is left waiting |
| `RegistrationQueue.PluginAPIKeyRunner.Finish` | internal/poller/plugin_api_key_runner.go:173-186 | exactly the batch's keys that are no longer remaining leave, as one recorded attempt |
| `RegistrationQueue.PluginAPIKeyRunner.Attempt` | internal/poller/plugin_api_key_runner.go:124-186 | the batch in flight is tried, else 1000 waiting keys or all of them; every key taken out of pending is in the batch it is tried with |
| `RegistrationQueue.TryAccounted` | internal/poller/plugin_api_key_runner.go:173-186 | after an attempt every admission of every key is still either settled by a registration or accepted |
| `RegistrationQueue.AcceptedUntilSettled` | internal/poller/plugin_api_key_runner.go:72-207 | between any two states a key stays accepted unless a registration in between finished with it, however often it was registered before |
| `RegistrationQueue.PluginAPIKeyRunner.Run` | internal/poller/plugin_api_key_runner.go:113-207 | accepted is the disjoint union of waiting, in flight and what an earlier loop left behind; bytes are the exact sum within limits; admissions minus settlements is one for accepted keys and zero for others; every turn takes in its notices, tries what was left first and else 1000 waiting keys or all of them, and releases exactly what the registration finished; the loop ends early only when told to; an accepted key leaves only when a registration stops returning it |

## Left out

- Floating-point rounding: sketch keys, costs, speeds and token-bucket levels are exact reals.
- The hash splitMix64: priorities are an arbitrary table from event IDs to uint64, so the results hold for every hash.
- int64 overflow of counters, times and ids in `ActivityGrain`, `Overview`, `CatchUp` and `RegistrationQueue`.
- Time-zone rules: local days are an increasing sequence of start seconds, each day at least 364 seconds long.
- The callbacks of walkSampleSet and walkSketch are applied to the decoded list after the walk.
- `internal/latency/aggregate.go`: its grouping loop would repeat the argument of the overview and activity rows; sample and sketch routes cover what a row holds.
- ActivityRows.BuildActivityRows: API group keys arrive normalised, and the sort order of the rows is not modelled.
- BucketKeysForEvent: events carry their hour start, day start and trimmed dimensions; the sort order of the rows is not modelled.
- Repositories: a page, an apply transaction and a session store are modelled by what their queries state; SQL and its failures inside a transaction are not.
- Ingest.IngestRunner.Run: log levels, status strings, connection notifications, backoff lengths and clock values are not modelled; waiting is a yes-or-no answer, and the trimmed dynamic source name is part of the answer.
- Ingest.IngestRunner.Run: a batch still parked when the process ends is lost with it, as in the source.
- WorkGate.NextKeeps: the closures returned by enter and beginControlled are called once by their holder, as every caller in the source does.
- CatchUp.Store.CatchUpOverviewTo: the work gate's answer is a parameter, and events up to the target do not change while it runs.
- SessionCache.CachedAnswer: reading the cache and comparing the expiry time is one step; the memory-only manager, List and token generation are not modelled, and a token stands for its hash.
- SessionCache.NextKeeps: a failing delete in the store, where the source panics, is not modelled.
- RateLimiterRuns.AllowAll: runs in which the hard cap pushes somebody out are only bounded in their entries; at the cap an active key may be forgotten (`CapForgets`).
- MetadataSync.NoRefreshIsLost: a sync that starts counts as an answer even if it then fails, and shutdown is not modelled.
- RegistrationQueue.PluginAPIKeyRunner.Run: the identities of the loop's local batch are kept in a field beside the source's own; the batch in flight when the loop ends stays accepted and is not taken up by a later call, as in the source; window lengths and backoff are not modelled.
- Resp.Reader.ReadLine: reads byte by byte where the source takes buffered chunks; how much input a refused value consumed is not stated.
- `internal/poller/redis_subscribe_source.go`: its reader is close to the one in `Resp`.
- HTTP routes, authentication handlers, pricing, backups, configuration and logging.
