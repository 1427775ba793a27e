# Concourse pipeline engine, modelled in Dafny

This project models the core of the `concourse` Dagger module, which runs
Concourse CI pipelines without a Concourse server. It also models the small
Java example library under `junit/` that the `junit` module builds.

The pipeline engine is made of these parts:

- **Streams** (`concourse/stream.go`). A `Stream` yields values until it
  reports end of stream.
  - `SliceStream` replays a list that is loaded once.
  - `Broadcast` copies every emitted value to each subscriber's queue.
  - `Chained` glues a stream and a continuation into an endless stream. After
    each switch it drops the first value of the new stream.
  - `Aggregated` combines named streams into objects with one field per
    stream.
  - `Intersection` merges objects from several streams into candidates. It
    emits a candidate once every one of its keys has been vouched for by all
    input streams.
- **Resources** (`concourse/resource.go`). The finite stream is one `check`
  of a resource. From an empty cursor it keeps only the latest version. The
  infinite stream chains checks, each one starting from the last version seen.
- **Pipelines** (`concourse/pipeline.go`). `Run` does three things:
  - it wires each job's inputs either to resource broadcasts (inputs without
    `passed`) or to upstream job broadcasts (inputs with `passed`);
  - it picks `Aggregate`, `Intersect` or both as the job's input stream;
  - it runs two kinds of loop. A job loop builds each set of inputs and
    re-emits the inputs of successful builds. A resource loop re-emits every
    version found.
- **Builds** (`concourse/build.go`). A build is a visitor over the step tree.
  - `task` resolves a config and an image, then mounts the inputs.
  - `get` picks a version and stores the fetched directory as an asset.
  - `do` stops at the first error and `try` swallows errors.
  - The hooks `on_success`, `on_failure`, `on_abort`, `on_error` and `ensure`
    run their hook step under their own conditions and combine the errors.
  - `across`, `timeout` and `retry` only visit the step they wrap.
- **Configuration** (`concourse/main.go`). It covers these pieces:
  - the module's built-in resource types;
  - vars and secret vars;
  - `LoadPipeline`: validation, resource-type installation, resources whose
    type must be known, and jobs;
  - name lookups (the first match wins);
  - `Check` requests;
  - `LatestVersion`;
  - the YAML map-key normaliser.

The Java part has two classes:
- `StringUtils`: reverse, palindrome test and `processWithDelay`.
- `Calculator`: 32-bit `int` arithmetic with wrap-around, and division that
  truncates toward zero.

The model is written in the source's own form:
- Objects whose fields the Go code updates become classes whose methods have
  `modifies` clauses: `SliceStream`, `subscription`, `Broadcast`, `Chained`,
  `Aggregated`, `Intersection`, `BuildState`, `Pipeline` and the subscription
  wiring of `Run`.
- Each method is proved against a specification function, for example
  `Offer`/`OfferAll`, `ChainOf`, `Gather`/`Drain`, `EmitStep`, `Exec`,
  `InstallAfter` and `ResourcesAfter`.
- Lemmas prove what the source promises about those functions.

Concurrency is modelled as follows:
- Goroutines, channels and `select` become explicit inputs: a schedule of
  arrivals, the case a `select` takes, and a flag for a cancelled context.
- A value sent on an unbuffered channel keeps its sender blocked until it is
  received. So each `Aggregated` stream has at most one value waiting, and
  `Intersection` has at most one object in flight, because `emit` sends while
  holding the candidates' lock.
- A send on a closed channel, or a second close, panics in Go. The model
  records such a panic in a flag (`panicked`, `crashed`).
- Oracles stand for the outside world, such as container execution, resource
  `check` output and image fetches.

## Model

| member | source | states |
|---|---|---|
| Errors.NonNil | concourse/stream.go:493-506 | the errors kept by `multierror.Append` are the non-nil ones and no others, never more than were given |
| Errors.PositionsExact | concourse/stream.go:493-506 | the positions a filter keeps are exactly the matching slots, each once, in increasing order |
| Errors.NonNilInOrder | concourse/stream.go:493-506 | the j-th error kept is the error at the j-th non-nil slot, so the kept errors keep their order |
| Errors.NonNilAppend | concourse/stream.go:493-506 | filtering two runs of results one after the other gives their filtered errors one after the other |
| Errors.Join | concourse/build.go:313-327 | `errors.Join` of two optional errors is nil exactly when both are nil; otherwise it joins the non-nil ones |
| Objects.Clone | concourse/stream.go:45-51 | a clone has the same keys and the same value under every key |
| Objects.Concat | concourse/stream.go:19-43 | the result has the keys of both objects; `other` wins on shared keys and `obj` keeps the rest |
| Objects.ConcatOfAgreeing | concourse/stream.go:19-43 | concatenating two objects that agree on shared keys extends both and does not depend on the order |
| Objects.ConcatExtendsOther | concourse/stream.go:19-43 | a concatenation always extends its second argument and keeps every key of the first |
| Objects.DistinctCard | concourse/stream.go:375-402 | distinct stream names give as many keys as names, which is what `ready` compares against |
| SliceStreams.Pulls | concourse/stream.go:517-533 | n successive pulls give n results |
| SliceStreams.PullsInOrder | concourse/stream.go:517-533 | pull i gives the load error if loading failed, otherwise the i-th value, and end of stream after the last value, every time |
| SliceStreams.SliceStream.constructor | concourse/stream.go:508-515 | a new stream is open, has not loaded, and will yield its source's values |
| SliceStreams.SliceStream.Next | concourse/stream.go:517-533 | `Next` returns what `Pull` gives on the pending values and advances to the rest; the loader runs at most once |
| SliceStreams.SliceStream.Close | concourse/stream.go:535-538 | closing marks the stream closed and changes nothing it would yield |
| Broadcasts.Subscription.constructor | concourse/stream.go:77-83 | a new subscription has an empty queue, is open and has not panicked |
| Broadcasts.Subscription.Next | concourse/stream.go:114-126 | a cancelled context gives `StreamInterrupted`; otherwise the head of the queue is returned and removed; an empty queue of a closed subscription gives end of stream |
| Broadcasts.Subscription.Emit | concourse/stream.go:109-112 | an emitted value is appended to an open subscriber's queue; a send on a closed one panics and delivers nothing |
| Broadcasts.Subscription.Shut | concourse/stream.go:85-89 | closing the channel closes it; closing it again panics; closing it while a value is queued panics that value's blocked sender and the value is never received |
| Broadcasts.Subscription.Close | concourse/stream.go:128-131 | closing a subscription reports no error |
| Broadcasts.FirstTrue | concourse/stream.go:86-88 | the position found is the first closed channel, or the end when none is closed |
| Broadcasts.Reached | concourse/stream.go:95-102 | the subscribers an emit reaches are the open ones before the first closed channel and before the cancellation |
| Broadcasts.Panics | concourse/stream.go:95-102 | the send that panics is the first uncancelled send to a closed channel |
| Broadcasts.Offer | concourse/stream.go:91-103 | an emit keeps the number of queues |
| Broadcasts.OfferAll | concourse/stream.go:91-103 | a run of emits keeps the number of queues |
| Broadcasts.OfferReachesPrefix | concourse/stream.go:91-103 | subscriber i gets the value if and only if it comes before the point where delivery stopped; the others are untouched |
| Broadcasts.OfferAllDelivers | concourse/stream.go:91-103 | after uncancelled emits every subscriber's queue is its old queue followed by all emitted values, in order |
| Broadcasts.Broadcast.Queues | concourse/stream.go:69-71 | there is one queue per subscriber |
| Broadcasts.Broadcast.constructor | concourse/stream.go:73-75 | a new broadcast has no subscribers |
| Broadcasts.Broadcast.Subscribe | concourse/stream.go:77-83 | subscribing adds one fresh, empty, open queue at the end and leaves the others |
| Broadcasts.Broadcast.Emit | concourse/stream.go:91-103 | emitting appends the value to the queues of the subscribers reached before the cancellation and before the first closed channel, where the send panics; no channel is closed; with every channel open, exactly the subscribers before the cancellation get the value |
| Broadcasts.Broadcast.Close | concourse/stream.go:85-89 | the channels are closed in order up to the first one already closed, which panics and ends the loop; a channel closed under a blocked sender panics that sender and loses its value; with every channel open and nothing queued, all are closed and nothing panics |
| Chains.TailsAppend | concourse/stream.go:342-354 | one more continuation adds its values, less the first, at the end |
| Chains.ChainOfAppend | concourse/stream.go:342-354 | after a switch the chain's values are the old ones followed by the new stream's values less its first |
| Chains.ChainDropsRepeatedFirst | concourse/stream.go:342-354 | a continuation that starts by repeating the last value adds only what is new |
| Chains.PullRemaining | concourse/stream.go:325-329 | a successful pull takes the head of what is left; a failed pull leaves the stream as it was, with nothing left |
| Chains.Chained.constructor | concourse/stream.go:315-320 | a new chain has yielded nothing, called no continuation, and will yield its first stream's values |
| Chains.Chained.Step | concourse/stream.go:322-359 | one loop round: a value is returned and recorded; a non-end error is returned as it is; end of stream calls the continuation with the last value and records what it did |
| Chains.Chained.Record | concourse/stream.go:326-328 | recording a returned value makes it the last one and keeps the chain's invariant |
| Chains.Chained.Continue | concourse/stream.go:331-335 | the continuation is called once, with the last value returned; its error comes back wrapped with "continue" and the chain is unchanged |
| Chains.Chained.Switch | concourse/stream.go:337-354 | the old stream is closed; a new stream whose first pull fails is reported wrapped with "skip first object"; otherwise it is installed less its first value |
| Chains.Chained.Install | concourse/stream.go:346-354 | installing pulls and drops the new stream's first value and adds the new stream to the chain |
| Chains.InstallKeepsChain | concourse/stream.go:346-354 | once a continuation's first value is dropped, what was emitted followed by what the new stream holds is the chain extended by that continuation |
| Chains.OpenSkipping | concourse/stream.go:346-349 | the new stream is fresh and its first pull is the pull of its source |
| Chains.Chained.Round | concourse/stream.go:322-359 | a round emits a value and installs nothing; or calls the next continuation with the last value and installs exactly the stream it returned; or fails, installing nothing, with the current stream's own non-end error (no call) or the wrapped failure of that one continuation call |
| Chains.Chained.Next | concourse/stream.go:322-359 | every segment added is the stream returned by one continuation call, the calls numbered on from the chain's count and each given the last value returned; a returned value is the chain's next value and becomes the last one; on success or after `fuel` rounds every call made was installed; an error is either the current stream's own non-end error, as it is, after all calls were installed, or the failure of one more call, wrapped with "continue" or "skip first object"; on error nothing is emitted |
| Chains.InstalledAt | concourse/stream.go:331-354 | after installing, the chain keeps its old segments and its `j`-th new segment holds the values of the stream that continuation call `k0 + j` returned |
| Chains.InstalledSnoc | concourse/stream.go:346-354 | installing the stream of the next call extends what was installed by that stream's values |
| Chains.Chained.Close | concourse/stream.go:361-364 | closing closes the current stream |
| Resources.FiniteLoad | concourse/resource.go:21-38 | a check error is returned; an empty result stays empty; from an empty cursor only the last version is kept, otherwise all of them |
| Resources.FiniteStream | concourse/resource.go:21-38 | the finite stream is a loading slice stream whose single load is the trimmed check |
| Resources.InfiniteStream | concourse/resource.go:40-49 | the infinite stream is a chain whose first stream checks from `from` and whose k-th continuation checks from the last version seen |
| Resources.ContinuationChecksFromLastSeen | concourse/resource.go:40-49 | after any sequence of returned versions, the next check uses the last one's version as its cursor |
| Resources.EmptyCursorYieldsLatest | concourse/resource.go:31-34 | from an empty cursor the stream yields the latest version and then ends |
| Resources.CursorYieldsAll | concourse/resource.go:21-38 | from a cursor the stream yields every checked version in order, then ends |
| Resources.CheckErrorIsReturned | concourse/resource.go:24-27 | a failed check makes every pull return that error |
| Resources.ReportedCursorNotRepeated | concourse/resource.go:40-49 | a check from the last version, which reports that version first, adds only the newer versions to the chain |
| Resources.EmptyCursorContinuationDiscarded | concourse/resource.go:31-34 | a continuation that checks from an empty cursor yields one version, which the chain drops, so it adds nothing |
| Resources.EmptyContinuationFails | concourse/stream.go:346-349 | a continuation check that finds no versions fails the chain with "skip first object" wrapping end of stream |
| Aggregations.Picks | concourse/stream.go:423-491 | a schedule picks nothing only when interrupted or empty; a blocked select picks one arrival |
| Aggregations.Drain | concourse/stream.go:423-491 | receiving keeps one pending queue per stream |
| Aggregations.Missing | concourse/stream.go:424-443 | the first loop visits only streams whose name has no value yet, in order |
| Aggregations.AvailablePrefix | concourse/stream.go:461-490 | every prefix of an available schedule is available |
| Aggregations.DrainAt | concourse/stream.go:461-490 | after receiving, stream i has lost exactly as many values as it was picked, from the front |
| Aggregations.GatherKeys | concourse/stream.go:461-490 | receiving keeps every key and adds only stream names |
| Aggregations.GatherAt | concourse/stream.go:430-438 | a stream that was not picked keeps its old field; a picked stream's field is the last value it delivered |
| Aggregations.ReadyIff | concourse/stream.go:419-421 | `ready` (as many keys as streams) holds exactly when every stream name has a value |
| Aggregations.CountIn | concourse/stream.go:461-490 | a stream is received from at least once exactly when the schedule picks it |
| Aggregations.MissingNone | concourse/stream.go:424-429 | the first loop has nothing to wait for exactly when every stream name already has a value |
| Aggregations.CountMissing | concourse/stream.go:424-429 | the first loop visits stream i once if it has no value and never otherwise |
| Aggregations.MissingFilledAt | concourse/stream.go:424-443 | after the first loop every stream has a value; existing values stay and missing ones get the stream's next value |
| Aggregations.MissingFilled | concourse/stream.go:424-443 | after the first loop the object has exactly the stream names as keys |
| Aggregations.CloseFailures | concourse/stream.go:493-506 | `Close` collects at most one error per stream, and none exactly when every close succeeds |
| Aggregations.CloseFailuresAppend | concourse/stream.go:493-506 | the failures of two runs of streams are those of the first run followed by those of the second |
| Aggregations.CloseFailuresInOrder | concourse/stream.go:493-506 | the j-th failure reported is the j-th failing stream's error, labelled "close stream <name>" with that stream's own name |
| Aggregations.Aggregated.constructor | concourse/stream.go:375-402 | a new aggregate has an empty object, empty queues and every stream running |
| Aggregations.Aggregated.Update | concourse/stream.go:404-417 | a pulled value is queued for its stream, which pulls again only once that value was received, so at most one value waits per stream; an error or a cancelled context stops that stream's goroutine for good |
| Aggregations.Aggregated.Next | concourse/stream.go:423-491 | interruption gives `StreamInterrupted` with nothing changed; otherwise the missing fields are filled first; once none is missing, the select takes every waiting value before its default fires (or blocks only when none is waiting), so every stream with a value waiting has its field replaced by that value, every other field stays, and nothing is left waiting |
| Aggregations.Aggregated.WaitMissing | concourse/stream.go:424-443 | the first loop fills each missing field from its stream, or is interrupted |
| Aggregations.Aggregated.Take | concourse/stream.go:430-434 | taking from stream i sets its field to the head of its queue and pops it |
| Aggregations.Aggregated.ReceiveAll | concourse/stream.go:461-490 | receiving a schedule gathers its arrivals into the object and drains them from the queues |
| Aggregations.Aggregated.Close | concourse/stream.go:493-506 | `Close` returns nil exactly when every stream closed cleanly, else the joined failures |
| Aggregations.FirstResultComplete | concourse/stream.go:423-443 | the first result has a field for every stream, each being that stream's first value |
| Aggregations.LaterResultFoldsArrival | concourse/stream.go:461-490 | a later result keeps every field and updates the last picked stream's field to the value it delivered |
| Aggregations.LaterResultFoldsEveryArrival | concourse/stream.go:461-490 | when the select takes every waiting value before its default case, each stream with a value waiting gets that value, every other field is kept, and no value is left waiting |
| Intersections.Vouch | concourse/stream.go:262-270 | each pre-merge key gets one more voucher, or the new stream count if it had none; other vouchers stay |
| Intersections.Fresh | concourse/stream.go:273-284 | an object no candidate accepts starts a candidate of one object with one voucher per key |
| Intersections.MergeAll | concourse/stream.go:231-271 | offering an object keeps the number of existing candidates |
| Intersections.FirstComplete | concourse/stream.go:286-305 | the candidate sent is the first one whose every key is vouched for by all streams |
| Intersections.Tally | concourse/stream.go:204-223 | no more streams are in a state than there are streams |
| Intersections.TallyUpdate | concourse/stream.go:208-218 | a stream that ends or fails adds one to that tally and changes no other |
| Intersections.TallyMissing | concourse/stream.go:208-213 | while one stream is still running, not every stream has ended, so `dead` stays open |
| Intersections.CloseError | concourse/stream.go:189-202 | corrected `Close`: nil exactly when every stream closed cleanly, else the joined failures labelled by position |
| Intersections.CloseErrorAsWritten | concourse/stream.go:189-202 | as written, `Close` returns the outer error it started with, whatever the streams report |
| Intersections.CloseErrorLost | concourse/stream.go:189-202 | when the second of two streams fails to close, the code as written returns nil and the corrected version returns the failure |
| Intersections.Intersection.constructor | concourse/stream.go:152-171 | a new intersection has no candidates, nothing sent, no sender blocked, all streams running and `live` equal to their number |
| Intersections.Intersection.Receive | concourse/stream.go:204-223 | a pulled object goes through `emit`, which is possible only while no object is in flight, because `emit` sends under the lock; the stream blocked in that send pulls nothing until `Next` takes the object; end of stream lowers `live` and marks the intersection dead at zero; another error is queued and stops that stream; the invariant keeps at most one object in flight, held by a running stream, and none once dead |
| Intersections.Intersection.Emit | concourse/stream.go:225-306 | `emit` leaves the candidates and sends the object that `EmitStep` specifies, leaving the calling stream blocked in the send, and changes nothing else |
| Intersections.Intersection.OfferObject | concourse/stream.go:231-284 | the candidates become the offered ones: merged into every compatible candidate, or appended as new |
| Intersections.Intersection.MergeEach | concourse/stream.go:231-271 | the loop merges the object into every compatible candidate and reports whether there was one |
| Intersections.Intersection.SendFirstComplete | concourse/stream.go:286-305 | the first complete candidate is sent, with the sender blocked until it is received, and dropped with every candidate before it; if none is complete nothing is sent |
| Intersections.Intersection.CompatibleWith | concourse/stream.go:233-253 | the loop finds an object compatible exactly when no shared key has different values |
| Intersections.Intersection.VouchFor | concourse/stream.go:262-270 | the loop computes the voucher update of a merge |
| Intersections.Intersection.AllVouched | concourse/stream.go:287-292 | the loop answers whether every voucher has reached the number of streams |
| Intersections.Intersection.Next | concourse/stream.go:173-187 | the select returns an intersected object, which releases its blocked sender, `StreamInterrupted`, end of stream once every stream ended, or the first queued error |
| Intersections.Intersection.Close | concourse/stream.go:189-202 | closing closes the output channel and always returns nil, because each close error goes to the loop-local `err`; closing again, or with an unread object, is the panic the source warns about |
| Intersections.NatToString | concourse/stream.go:194 | a position is written as one or more decimal digits |
| Intersections.NoneEnded | concourse/stream.go:158-164 | at the start no stream has ended or failed |
| Intersections.OfferedSound | concourse/stream.go:231-284 | offering an object keeps every candidate well-formed: its vouchers cover its keys and lie between 1 and its object count |
| Intersections.MergeExtendsBoth | concourse/stream.go:255-260 | merging a compatible object extends both the candidate and the object |
| Intersections.OfferedKeepsObject | concourse/stream.go:231-284 | after an offer some candidate holds the object, every old candidate is extended, and one candidate is added exactly when none was compatible |
| Intersections.CompleteMeansEveryStream | concourse/stream.go:286-294 | a complete, non-empty candidate merges at least one object per stream |
| Intersections.EmitStepSound | concourse/stream.go:225-306 | `emit` keeps every candidate well-formed |
| Intersections.TwoStreamsMeet | concourse/stream.go:225-306 | with two streams, objects with different keys are merged and sent as one object |
| Intersections.ConflictingObjectsStaySeparate | concourse/stream.go:231-284 | objects that disagree on a key stay separate candidates and nothing is sent |
| Pipelines.Independent | concourse/pipeline.go:39-49 | inputs without `passed` are subscribed by input name |
| Pipelines.Dependent | concourse/pipeline.go:41-49 | one subscription per `passed` job of every input |
| Pipelines.PartitionSnoc | concourse/pipeline.go:41-49 | handling one more input appends its `passed` jobs or adds its name, in order |
| Pipelines.Wiring.constructor | concourse/pipeline.go:21-29 | one broadcast per resource and per job, with no subscribers yet |
| Pipelines.Wiring.Partition | concourse/pipeline.go:39-49 | every independent input is subscribed to its resource's broadcast and every `passed` job to that job's broadcast, each with a fresh subscription |
| Pipelines.Wiring.Route | concourse/pipeline.go:41-48 | one input is routed by whether it has `passed` |
| Pipelines.Wiring.SubscribeIndependent | concourse/pipeline.go:42-43 | an input without `passed` takes the next subscription of its resource |
| Pipelines.Wiring.SubscribeDependent | concourse/pipeline.go:44-47 | each `passed` job gives one new subscription to that job's broadcast, in order |
| Pipelines.SelectShape | concourse/pipeline.go:51-58 | no dependent inputs gives an aggregate; only dependent inputs give an intersection of them; both give the intersection of the dependent ones and the aggregate |
| Pipelines.SelectReadsEveryInput | concourse/pipeline.go:51-58 | whatever the choice, the job's input stream reads every subscription and nothing else |
| Pipelines.SourcesOfMixed | concourse/pipeline.go:57 | the mixed form reads the dependent subscriptions and every independent one |
| Pipelines.SourcesOfEach | concourse/pipeline.go:55 | an intersection of subscriptions reads exactly those subscriptions |
| Pipelines.OkRun | concourse/pipeline.go:64-72 | the loop runs as long as pulls succeed and stops at the first error |
| Pipelines.SucceededInOrder | concourse/pipeline.go:73-85 | the j-th input re-emitted is the input of the j-th build that succeeded, so exactly the successful builds' inputs are re-emitted, in pull order |
| Pipelines.Values | concourse/pipeline.go:96-103 | every version pulled is re-emitted |
| Pipelines.AllSucceeded | concourse/pipeline.go:81-85 | when every build succeeds, every set of inputs is re-emitted in order |
| Pipelines.NoneSucceeded | concourse/pipeline.go:81-85 | when every build fails, nothing is re-emitted |
| Pipelines.Outcome | concourse/pipeline.go:64-72 | a loop keeps running while pulls succeed; a pull error ends it with nil if the context was cancelled, else with that error |
| Pipelines.OfferAllSnoc | concourse/stream.go:91-103 | one more emit appends one more value to every queue |
| Pipelines.Deliver | concourse/pipeline.go:83-85 | emitting one more value keeps the subscribers' queues equal to their old contents plus all values emitted so far; `Run` never closes its broadcasts, so all stay open |
| Pipelines.JobLoop | concourse/pipeline.go:63-87 | the job loop ends as `Outcome` says and has re-emitted exactly the inputs of the successful builds, in order |
| Pipelines.ResourceLoop | concourse/pipeline.go:90-106 | the resource loop ends as `Outcome` says and has re-emitted every version pulled, in order |
| Builds.Store | concourse/build.go:51-58 | storing creates the asset map if it is missing and adds the name |
| Builds.StoreThenLookup | concourse/build.go:41-58 | a stored asset is found under its name and every other name is unaffected |
| Builds.BuildState.constructor | concourse/build.go:65-73 | a new build state has no asset map |
| Builds.BuildState.Asset | concourse/build.go:41-49 | `Asset` answers as `Lookup` does |
| Builds.BuildState.StoreAsset | concourse/build.go:51-58 | `StoreAsset` updates the assets as `Store` does |
| Builds.Cut | concourse/build.go:85-88 | there is no cut exactly when there is no slash; otherwise the head has no slash and head + "/" + tail is the input |
| Builds.MountsSpec | concourse/build.go:123-132 | mounting succeeds exactly when every input is an asset, giving one mount per input in order; otherwise the first missing input is reported |
| Builds.MountInputs | concourse/build.go:123-132 | the loop mounts the inputs as `Mounts` specifies |
| Builds.MountsAfterNothing | concourse/build.go:123-132 | the loop starts from the specification with nothing mounted |
| Builds.MountsAfterStep | concourse/build.go:123-132 | one loop step either fails with "undefined asset" or mounts the input at its path, its name when the path is empty |
| Builds.VisitTask | concourse/build.go:75-145 | the task visitor returns what `ExecTask` specifies |
| Builds.VisitGet | concourse/build.go:154-191 | the get visitor returns, and stores, what `ExecGet` specifies |
| Builds.Visit | concourse/build.go:225-363 | visiting any step gives the error and assets `Exec` specifies |
| Builds.VisitDo | concourse/build.go:238-252 | the `do` loop gives what `ExecFrom` specifies |
| Builds.ExecFromShift | concourse/build.go:244-249 | running a `do` from position i + 1 is running its tail from i |
| Builds.DoStopsAtFirstError | concourse/build.go:244-249 | a failing first step ends `do` with that step's outcome |
| Builds.DoRunsInOrder | concourse/build.go:244-251 | a successful first step is followed by the rest, on the assets it left |
| Builds.TryNeverFails | concourse/build.go:225-236 | `try` never fails and keeps the assets the step produced |
| Builds.ExecHooked | concourse/build.go:304-363 | a hook step runs its hook exactly when its kind's condition holds and then combines the two outcomes |
| Builds.OnSuccessSkipsHookAfterFailure | concourse/build.go:304-311 | `on_success` after a failure returns the failure without running the hook |
| Builds.OnFailureJoinsErrors | concourse/build.go:313-327 | `on_failure` after a failure joins the step's error and the hook's, and still fails |
| Builds.OnErrorReturnsHookOutcome | concourse/build.go:342-353 | `on_error` after a failure returns only the hook's outcome |
| Builds.EnsureAgreesWithOnFailure | concourse/build.go:355-363 | after a failure `ensure` behaves as `on_failure` |
| Builds.FailureHooksSkippedAfterSuccess | concourse/build.go:313-353 | after a success `on_failure` and `on_error` do not run their hook |
| Builds.OnSuccessRunsHook | concourse/build.go:304-311 | after a success `on_success` returns the hook's outcome |
| Builds.EnsureWrapsHookError | concourse/build.go:355-363 | after a success `ensure` returns nil if the hook succeeds, else the hook's error joined alone |
| Builds.EnsureAfterSuccess | concourse/build.go:355-363 | after a success `ensure` runs its hook on what the step left and joins its error to no error |
| Builds.PassThroughsAreTransparent | concourse/build.go:278-302 | `across`, `timeout` and `retry`, nested to any depth, give exactly the outcome of the step they wrap |
| Builds.OnAbortSkippedWithoutAbort | concourse/build.go:329-340 | without an abort `on_abort` is the step alone |
| Builds.OnAbortJoinsErrors | concourse/build.go:329-340 | after an abort `on_abort` joins the step's error and the hook's |
| Builds.NoOpSteps | concourse/build.go:194-223 | `put`, `run`, `set_pipeline` and `load_var` succeed and change nothing |
| Builds.GetStoresUnderStepName | concourse/build.go:184-190 | a successful `get` stores the fetched directory under the step's name and leaves every other asset |
| Builds.GetPrefersJobInput | concourse/build.go:158-160 | a job input under the step's name is used whatever version the step configures |
| Builds.TaskImageBeforeInputs | concourse/build.go:105-132 | a task never changes the assets, and an image error is reported before any input |
| Builds.CutAtFirstSlash | concourse/build.go:85-88 | a config path is cut at its first slash |
| Builds.TaskConfigFromFile | concourse/build.go:84-100 | a config file path names an asset, which must exist, and a path inside it that is loaded |
| Builds.TaskConfigWithoutFile | concourse/build.go:84-103 | a config path without a slash is invalid; without a path the inline config is used, or an empty one |
| Builds.TaskImageChoice | concourse/build.go:105-121 | an image resource wins over an image artifact; without either a rootfs URI is unsupported and otherwise no image was specified |
| Builds.GetVersionChoice | concourse/build.go:159-179 | without a job input, `every` is unsupported, a pinned version is used as given, and otherwise the latest version is checked |
| Configs.NewConcourse | concourse/main.go:39-118 | a new module has the nine built-in types, in order, and no vars |
| Configs.WithVar | concourse/main.go:201-207 | `WithVar` appends one var at the end and leaves everything else |
| Configs.WithSecretVar | concourse/main.go:184-190 | `WithSecretVar` appends one secret var at the end and leaves everything else |
| Configs.VarsAccumulateInOrder | concourse/main.go:184-207 | vars accumulate in call order, and vars and secret vars do not interfere |
| Configs.FirstNamed | concourse/main.go:402-410 | a lookup finds nothing exactly when no element has the name, else the first one that has it |
| Configs.FirstNamedInPrefix | concourse/main.go:402-410 | appending elements does not change a lookup that already succeeds |
| Configs.Pipeline.constructor | concourse/main.go:289-292 | a new pipeline holds the given module and parts |
| Configs.Pipeline.ResourceTypeNamed | concourse/main.go:402-410 | the first resource type with the name, attached to this pipeline, or none |
| Configs.Pipeline.JobNamed | concourse/main.go:438-446 | the first job with the name, attached to this pipeline, or none |
| Configs.Pipeline.ResourceNamed | concourse/main.go:458-466 | the first resource with the name, attached to the pipeline's module, or none |
| Configs.InstallAfter | concourse/main.go:294-304 | installed resource types are appended after the existing ones, one per config, in order |
| Configs.ResourceOf | concourse/main.go:312-321 | a resource config gives a resource exactly when its type is known, with its name and source |
| Configs.ResourcesAfter | concourse/main.go:306-322 | loaded resources are appended in config order, each built from its config |
| Configs.ResourcesFailOnUnknown | concourse/main.go:312-315 | loading resources fails exactly when some resource has an unknown type |
| Configs.ResourcesFailAtFirstUnknown | concourse/main.go:312-315 | the failure names the type of the first resource whose type is unknown |
| Configs.InstallResourceTypes | concourse/main.go:294-304 | the loop installs resource types as `InstallAfter` specifies and touches nothing else |
| Configs.AddResources | concourse/main.go:306-322 | the loop adds resources as `ResourcesAfter` specifies, or fails as it does |
| Configs.AddJobs | concourse/main.go:324-335 | the loop appends one job per config, in order |
| Configs.LoadPipeline | concourse/main.go:267-338 | loading fails, panics or succeeds exactly as `LoadOutcome` specifies, and a loaded pipeline holds the assembled parts |
| Configs.InvalidConfigRejected | concourse/main.go:278-287 | a config with validation errors is rejected as "invalid pipeline" |
| Configs.LoadedPipelineKeepsConfigOrder | concourse/main.go:289-335 | a loaded pipeline starts with the module's types, then the config's, and keeps the config's resources and jobs in order |
| Configs.ModuleTypesShadowConfigTypes | concourse/main.go:289-315 | a module type and a config type with the same name resolve to the module's |
| Configs.UnknownResourceTypeRejected | concourse/main.go:312-315 | a resource whose type is neither built in nor installed makes loading fail |
| Configs.CheckRequest | concourse/main.go:483-488 | the request always has the source, and a version exactly when a cursor is given |
| Configs.Check | concourse/main.go:471-513 | an interpolation error is wrapped; a check error is returned; otherwise every version the script prints becomes a version of this resource |
| Configs.Quoted | concourse/main.go:541 | `%q` of a plain name is the name between double quotes |
| Configs.LatestVersion | concourse/main.go:535-544 | a check error is returned; no versions is an error naming the resource; otherwise the last version the check returned |
| Configs.LatestVersionIsWhatAnEmptyCursorKeeps | concourse/main.go:535-544 | the latest version is the one the finite stream keeps from an empty cursor |
| Configs.Normalize | concourse/main.go:248-262 | maps become string-keyed maps of the same size, lists keep their length, and scalars are untouched |
| Configs.NormalizeEntries | concourse/main.go:250-255 | each entry's key becomes its string and its value is normalised |
| Configs.NormalizeItems | concourse/main.go:256-259 | each list item is replaced by its normalised value |
| Configs.NormalizeRemovesAnyMaps | concourse/main.go:248-262 | the result has no map with non-string keys left |
| Configs.NormalizePanicsOnBadKey | concourse/main.go:252-253 | normalising panics exactly when some nested map has a key that is not a string |
| Configs.EntriesPanicOnBadKey | concourse/main.go:252-253 | the map loop panics exactly when a remaining entry has a non-string key or a bad value |
| Configs.ItemsPanicOnBadKey | concourse/main.go:256-259 | the list loop panics exactly when a remaining item holds a bad key |
| Configs.NormalizeIdempotent | concourse/main.go:248-262 | normalising twice is normalising once |
| Configs.FixedItems | concourse/main.go:256-259 | a list whose items are already normal is left as it is |
| StringUtils.Reverse | junit/example/src/main/java/com/example/StringUtils.java:14-19 | the reversal has the same length, with position i holding the character at the mirrored position |
| StringUtils.ReverseInvolutive | junit/example/src/main/java/com/example/StringUtils.java:14-19 | reversing twice gives the original string |
| StringUtils.ReverseOrNull | junit/example/src/main/java/com/example/StringUtils.java:14-19 | null stays null and a string is reversed |
| StringUtils.ReverseOrNullInvolutive | junit/example/src/main/java/com/example/StringUtils.java:14-19 | `reverse(reverse(s))` is `s`, null included |
| StringUtils.ReverseExamples | junit/example/src/test/java/com/example/StringUtilsTest.java:24-51 | the reversal cases of the test suite |
| StringUtils.LowerChar | junit/example/src/main/java/com/example/StringUtils.java:31 | an ASCII capital is lowered and any other character is kept |
| StringUtils.UpperChar | junit/example/src/main/java/com/example/StringUtils.java:53 | an ASCII small letter is raised and any other character is kept |
| StringUtils.ToLower | junit/example/src/main/java/com/example/StringUtils.java:31 | every character is lowered in place |
| StringUtils.ToUpper | junit/example/src/main/java/com/example/StringUtils.java:53 | every character is raised in place |
| StringUtils.KeepAlphanumeric | junit/example/src/main/java/com/example/StringUtils.java:31 | the result holds exactly the kept characters of the input, and only those |
| StringUtils.KeepAlphanumericIdempotent | junit/example/src/main/java/com/example/StringUtils.java:31 | filtering twice is filtering once |
| StringUtils.KeepAllKept | junit/example/src/main/java/com/example/StringUtils.java:31 | a string of kept characters is not changed by the filter |
| StringUtils.Cleaned | junit/example/src/main/java/com/example/StringUtils.java:31 | the cleaned string holds only small letters and digits |
| StringUtils.IsPalindrome | junit/example/src/main/java/com/example/StringUtils.java:27-33 | null is not a palindrome; a string is one exactly when its cleaned form reads the same both ways |
| StringUtils.KeepNothing | junit/example/src/main/java/com/example/StringUtils.java:31 | a string of dropped characters filters to empty |
| StringUtils.NothingToCompareIsPalindrome | junit/example/src/main/java/com/example/StringUtils.java:27-33 | a string with no letters or digits is a palindrome |
| StringUtils.ReversePreservesPalindrome | junit/example/src/main/java/com/example/StringUtils.java:14-33 | a string is a palindrome exactly when its reversal is |
| StringUtils.SymmetricReverse | junit/example/src/main/java/com/example/StringUtils.java:32 | a string reads the same both ways exactly when its reversal does |
| StringUtils.CleanedOfReverse | junit/example/src/main/java/com/example/StringUtils.java:31 | cleaning commutes with reversal |
| StringUtils.LowerOfReverse | junit/example/src/main/java/com/example/StringUtils.java:31 | lowering commutes with reversal |
| StringUtils.KeepOfReverse | junit/example/src/main/java/com/example/StringUtils.java:31 | filtering commutes with reversal |
| StringUtils.KeepAppend | junit/example/src/main/java/com/example/StringUtils.java:31 | filtering distributes over concatenation |
| StringUtils.ReverseAppend | junit/example/src/main/java/com/example/StringUtils.java:14-19 | the reversal of a concatenation is the reversed parts in swapped order |
| StringUtils.PlainWordPalindrome | junit/example/src/main/java/com/example/StringUtils.java:27-33 | a word of small letters and digits is a palindrome exactly when it reads the same both ways |
| StringUtils.RadarExample | junit/example/src/test/java/com/example/StringUtilsTest.java:58-90 | "radar" is a palindrome |
| StringUtils.HelloExample | junit/example/src/test/java/com/example/StringUtilsTest.java:58-96 | "hello" and null are not palindromes |
| StringUtils.UpperCasePreservesPalindrome | junit/example/src/main/java/com/example/StringUtils.java:27-33 | a string is a palindrome exactly when its upper-cased form is |
| StringUtils.UpperCaseExample | junit/example/src/test/java/com/example/StringUtilsTest.java:58-90 | "racecar" is a palindrome, and so is its upper case |
| StringUtils.CleanedOfKept | junit/example/src/main/java/com/example/StringUtils.java:31 | a string whose lowered characters are all kept cleans to its lowered form |
| StringUtils.EmptyIsPalindrome | junit/example/src/main/java/com/example/StringUtils.java:27-33 | the empty string is a palindrome, as the code decides |
| StringUtils.LowerAppend | junit/example/src/main/java/com/example/StringUtils.java:31 | lowering distributes over concatenation |
| StringUtils.PunctuationIgnored | junit/example/src/main/java/com/example/StringUtils.java:31 | inserting punctuation or spaces does not change the cleaned string |
| StringUtils.CaseIgnored | junit/example/src/main/java/com/example/StringUtils.java:31 | upper-casing a string first does not change the cleaned string |
| StringUtils.ProcessWithDelay | junit/example/src/main/java/com/example/StringUtils.java:41-54 | null or empty gives the empty string; otherwise the upper-cased input followed by "-PROCESSED" |
| StringUtils.ProcessTwice | junit/example/src/main/java/com/example/StringUtils.java:41-54 | processing twice upper-cases once and appends the suffix twice |
| StringUtils.ProcessExamples | junit/example/src/test/java/com/example/StringUtilsTest.java:103-133 | the processing cases of the test suite |
| Calculator.Wrap | junit/example/src/main/java/com/example/Calculator.java:15-17 | wrapping is congruent to the input modulo 2^32 and is the identity on `int` range |
| Calculator.WrapCongruent | junit/example/src/main/java/com/example/Calculator.java:15-17 | values congruent modulo 2^32 wrap to the same `int` |
| Calculator.Add | junit/example/src/main/java/com/example/Calculator.java:15-17 | the sum is exact when it fits and wraps modulo 2^32 otherwise |
| Calculator.Subtract | junit/example/src/main/java/com/example/Calculator.java:26-28 | the difference is exact when it fits and wraps modulo 2^32 otherwise |
| Calculator.Multiply | junit/example/src/main/java/com/example/Calculator.java:37-39 | the product is exact when it fits and wraps modulo 2^32 otherwise |
| Calculator.SubtractUndoesAdd | junit/example/src/main/java/com/example/Calculator.java:15-28 | subtracting what was added gives back the original, overflow included |
| Calculator.AddUndoesSubtract | junit/example/src/main/java/com/example/Calculator.java:15-28 | adding back what was subtracted gives back the original, overflow included |
| Calculator.TruncDivRemainder | junit/example/src/main/java/com/example/Calculator.java:49-54 | the quotient truncates toward zero: the remainder has the dividend's sign and is smaller than the divisor |
| Calculator.Divide | junit/example/src/main/java/com/example/Calculator.java:49-54 | division by zero fails with "Division by zero"; otherwise the result is the truncated quotient, modulo 2^32 |
| Calculator.DivideUndoesMultiply | junit/example/src/main/java/com/example/Calculator.java:37-54 | dividing a product that did not overflow by a non-zero factor gives the other factor |
| Calculator.ComplexCalculation | junit/example/src/main/java/com/example/Calculator.java:62-71 | the result is the square plus ten, wrapped once to `int` |
| Calculator.ComplexCalculationExact | junit/example/src/main/java/com/example/Calculator.java:62-71 | for inputs whose square fits, the result is exactly the square plus ten, and at least ten |
| Calculator.ComplexCalculationEven | junit/example/src/main/java/com/example/Calculator.java:62-71 | an input and its negation give the same result |
| Calculator.CalculatorExamples | junit/example/src/test/java/com/example/CalculatorTest.java:22-86 | the cases of the test suite; 2 + 2 is 4, not the 5 one test expects |
| Calculator.JavaIntCorners | junit/example/src/main/java/com/example/Calculator.java:15-71 | `int` overflow wraps, MIN_VALUE / -1 is MIN_VALUE, division truncates, and the square of 46341 overflows |

## Left out

- Goroutines, channels, `select`, mutexes and `errgroup` are not modelled as concurrency. Each goroutine's pulls, the arrivals a `select` sees and the choice it makes are explicit parameters (`Schedule`, `Choice`, the index passed to `Receive`). Interleavings are covered only to the extent those parameters can express them.
- Context cancellation is a boolean or an index parameter (`cancelled`, `interrupted`, `cancelledAt`), not a clock or a signal.
- Go map iteration order is not modelled. Streams of an aggregate are numbered in a fixed order. The normaliser's maps are sequences of entries.
- Chains.Chained.Next: the source loops for as long as continuations come back with nothing new, which may be forever. The model stops after `fuel` such rounds and returns `None`, so it does not capture a `Next` that never returns.
- Chains.Chained.Next: the "close previous stream" error is not modelled. The streams chained here are slice streams, whose `Close` always returns nil (concourse/stream.go:535-538), so that branch is never taken.
- Broadcasts.Broadcast.Emit: blocking on a full subscriber until the context ends is modelled as delivery to the subscribers before a cancelling index, with nothing delivered after it.
- Broadcasts.Broadcast.Close, Broadcasts.Broadcast.Emit, Broadcasts.Subscription.Emit, Broadcasts.Subscription.Shut: a Go panic ends the program. The model records it in the subscription's `panicked` flag and returns, and does not treat later calls as unreachable.
- Aggregations.Aggregated.Next: a call is one step with respect to the `update` goroutines. A value that a released goroutine hands over while the same batch is still being received is not part of that batch. An interruption that comes after some receives of the same call is not modelled either; in Go it leaves the fields already received in place and returns `StreamInterrupted`.
- Aggregations.Aggregated.Update: a cancellation that reaches a goroutine already blocked in its send drops that value in Go. The model drops only a value pulled in the same step, and a value already waiting stays in the queue.
- Intersections.Intersection.Receive: a stream that has pulled an object and is waiting for the candidates' lock is modelled as not having pulled yet. Its `Receive` comes after the object in flight has been taken by `Next`.
- `time.Sleep(checkInterval)` in the infinite stream, the `NOW` environment variable in `Check`, logging, tracing spans and telemetry are left out, because they do not change any result.
- Container execution, resource `check` output, directory and file contents, task-config parsing, image preparation, `Get` of a version and `Sync` are oracles. They are functions in `Env`, `CheckRun`, `ImageFetch` and the `checks`/`cont` parameters. What they return is given, not computed.
- JSON and YAML parsing, `json.Marshal`, `atc.UnmarshalConfig` and `configvalidate.Validate` are parameters. Their failures appear only as the errors those parameters return, not as the marshal errors the source can raise.
- `Concourse.Interpolate` is not part of this model. Its result is the `interpolated` parameter of `Configs.Check`, and it is also the only caller of the normaliser.
- `VisitInParallel` is not modelled: it runs its sub-steps concurrently in an error group, optionally failing fast, and the model has no concurrency. `VisitAcross`, `VisitTimeout` and `VisitRetry` are modelled as `PassThrough` steps; their tracing spans are left out.
- `Resource.Get`, `ResourceVersion.Get`, `Job.Run`, `Pipeline.build`, `imageResource`/`fetchedImage` and the database and quickstart helpers of `main.go` are not modelled beyond the oracles named above.
- Nil-pointer dereferences are modelled only where the core relies on them. A map key that is not a string makes the normaliser return `None`, and a missing base type in `imageResource` is `Load.Panic`. Any other nil dereference is outside the model.
- The normaliser rewrites lists in place. The model builds a new list with the same items, so aliasing of the rewritten list is not captured.
- Go's `append` on a copied struct may share the backing array of `Vars` and `SecretVars` between copies. `WithVar` and `WithSecretVar` build new sequences, so that aliasing is not captured.
- Configs.Quoted: Go's `%q` escapes quotes, backslashes and control characters. The model covers only names without such characters.
- StringUtils.LowerChar, StringUtils.UpperChar: only ASCII letters change case. Java's `toLowerCase` and `toUpperCase` also map non-ASCII characters, and that can change `isPalindrome` and `processWithDelay`. For example, U+212A (KELVIN SIGN) lowers to `k`, so Java finds `"\u212Aa"` not a palindrome while the model drops U+212A and finds it one. Also, U+0130 lowers to an `i` plus a combining dot, and `ß` upper-cases to `SS`. The `[^a-z0-9]` filter that follows is ASCII by construction and is modelled exactly by `KeepAlphanumeric`. The model also assumes a root-like default locale: under a Turkish default locale Java lowers `I` to the dotless `ı`, which the filter then drops.
- `Thread.sleep` in `processWithDelay` and its `InterruptedException` path are left out, because the sleep has no effect on the result.

## Findings

| source | as written | input that shows it | evidently intended | confidence | as-written member | corrected member |
|---|---|---|---|---|---|---|
| concourse/stream.go:189-202 | `Intersection.Close` declares a new `err` inside the loop, so each close error is joined into that loop-local variable and discarded, and the outer `err` stays nil | two input streams, the first closing cleanly and the second failing with `e` | return the close errors joined, each labelled with its stream's position | not executed | Intersections.CloseErrorAsWritten | Intersections.CloseError |

`Intersections.CloseErrorLost` shows the discrepancy on the input above. The
code as written returns nil, while `CloseError` returns `e` labelled
"close stream 1". `Intersections.Intersection.Close` keeps the behaviour as
written, since callers of the engine observe it; `CloseError` is the
corrected reference, of the same shape as `Aggregated.Close`.

Where the Java tests and the code disagree, the model follows the code:

- `StringUtilsTest` expects the empty string not to be a palindrome. The code
  cleans it to the empty string and compares it with its reversal, so it
  returns true (`StringUtils.EmptyIsPalindrome`).
- One `CalculatorTest` case expects `add(2, 2)` to be 5. The code returns 4
  (`Calculator.CalculatorExamples`).
