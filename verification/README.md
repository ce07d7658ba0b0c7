# Event pipeline: model and proofs

This project models the event pipeline of the repository: a source hands out payloads, n stages of fifo workers
process them, and m storages receive every result.  All hand-offs are unbuffered channels, and a shared context
cancels everything.  `dafny verify dfyconfig.toml` checks the whole project.

## What is modelled

**The goroutines of `Process`** (Control).  The state holds the program counters of the source worker, of every
fifo worker, of the stage goroutines, the sinks, the closer and the error collector; closed flags; the cancelled
flag; the WaitGroup counter; the errors received; and a log of every transfer over every channel.  A run is a
sequence of labels.  Stage i has any number of workers >= 1 (a FIFO stage is a pool of one), n >= 1 and m >= 1.
A send over an unbuffered channel is one step of the sender and the receiver.  The machine is generic in the body
of a payload.

* CloseDiscipline, Shutdown and Flow prove the laws that hold whatever the bodies are: no panic, who closes what
  and when, the bound on transfers after a cancellation, a ranking function, absence of deadlock, conservation,
  back-pressure and broadcast skew.  Stopping and Endings say exactly what
  cancels a run, where a cancelled run ends, and which cancelled runs finish under every schedule.  Progress says that
  without failures everything taken arrives, and Draining that a cancelled pipeline need not lose anything.  Returns
  says why workers and sinks return, and where errors come from.
* Dataflow, Ordering and Delivery instantiate the bodies with payload values.  The specification is a plain
  filter-map (`FilterMap`: clone, process, drop nil, stop at the first error, clone).  FIFO pipelines refine it as
  sequences, pools of any size payload by payload.  FifoLoop has the loop of one worker as a method over scripted
  channels, against the same specification of a stage (`StageOut`).
* Ownership, PoolSafety and Refinement instantiate them with references to payload objects: structs that are
  recycled through a pool, share their `Value` maps after a clone, and sit in storage queues until they are
  written.  That machine is proved to refine the machine over values, and Realisation proves the converse, that it
  can take every step of it; EndToEnd puts the two together.
* PayloadObjects has the structs, the pools and the processors as classes and methods; Processors has the
  processors as functions on values, which the methods are proved against.  Wiring has the loops that lay out
  channels and workers.

**The Elasticsearch storage** (BulkBody, Elasticsearch, BulkRuns, BulkReplay, BulkStored).  The client is a class with the byte
buffer, the count and the write-total counter, and a ghost store: the buffered documents, the completed batches and
the server's documents.  The server is adversarial: a request fails after taking any number of bytes and applying
any records, or an error status, an unreadable body, or a status per item comes back.

**The file system storage** (Filesystem, DocIds, Float64), **the worker pool** behind both storages (WorkerPool), one
machine of pipeline and worker pools in which a storage's write is its pool's task (StorageRuns), with the
Elasticsearch server at its end (BulkEndToEnd), and **the partition pollers** (KafkaStream, KafkaEndToEnd), which
feed the source; partition and offset travel as binary64 numbers.

Bytes of Go strings are modelled as `char`.  The clock, date formatting and `json.Marshal` are parameters (`Env`), a
processor is any function (`Program`), and the outcomes of Kafka, Elasticsearch and the disk are inputs.

## Where the code and its comments disagree

The model follows the code.

* `Clone` is documented as a deep copy (app/pkg/payloads/payload.go:8).  It shares `Value` and `Data`, and the Kafka
  clone leaves out `Timestamp`.  So every document that passed a Kafka normalizer gets the index of the zero date
  (`OneKafkaIndex`).
* `Process` is documented to block until the data is processed, an error occurs or the context expires
  (app/pkg/pipelines/pipeline.go:32-35).  With the extra WaitGroup count its caller adds
  (app/cmd/event_data/pipeline.go:100) it never returns (`ExtraCountBlocks`).
* Cancelling is meant to stop everything.  The source's send has no cancel branch (app/pkg/pipelines/pipeline.go:122),
  so a cancelled run ends where everything is finished or the source is blocked in that send, and nowhere else
  (`StuckIff`); while the source waits for a message in `Next`, which does not return on cancellation
  (app/pkg/sources/kafka.go:39), it may rest there too (`QuietIff`).  At the moment of cancellation the outcome can be
  told: every schedule finishes everything exactly if the source is then neither fetching nor sending a payload, and
  `Process` returns under every schedule exactly if, besides, the caller's count is zero (`CancelledRunFinishesIff`);
  from where the source has left its loop that is always so (`FinishedSourceFinishesAll`).  Once the workers of the
  first stage are gone a blocked send is for ever (`AbandonedForever`).
* Of the sink channels only the first is ever closed (app/pkg/pipelines/pipeline.go:68); the other sinks stop by
  cancellation alone (`ClosingOrder`).
* `maybeEmitError` speaks of a buffered channel (app/pkg/pipelines/pipeline.go:159-160).  `errCh` has no buffer, so
  an error is lost whenever the collector is not receiving at that moment.  A run is cancelled exactly if the caller
  cancels it or an error was received (`CancelledIff`), so a failure whose error is dropped stops nothing
  (`DroppedErrorsDoNotStop`): `ErrorLost` is a run in which the only worker fails, nobody is told, and the source is
  left in its send, from where not even cancelling helps (`CancellingDoesNotHelp`).
* The retry loop reuses one reader (app/pkg/storage_providers/es.go:146), so a retry offers what is left of it
  (`RetryBound`).  The whole batch is offered if and only if no attempt before took a byte (`WholeBodyIff`);
  otherwise a batch can complete with nothing stored (`RetryLosesBatch`).
* An error status completes the batch without an error (`ErrorStatusDropsBatch`).  `FlushStoresIff` says exactly when a
  flushed batch of new documents is on the server, retries, error statuses and failed items included, where the server
  applies no request that it does not answer item by item; `FlushStoresIffWritten` where it may.
* An error status whose body has no error object, and a body that is null, end the process in a panic (`Fatal`).
* The items of an answer are never counted against the batch (app/pkg/storage_providers/es.go:185-209): one with too
  few items completes the batch, and what it is silent about is lost (`ShortAnswerLosesRecords`).
* A batch goes to the index of the document that triggered it (`PlacedIffSameIndex`).
* Document identifiers are not unique per topic.  Offsets become binary64 numbers, and the JSON round trip on the way
  to the payload (app/pkg/sources/kafka.go:26-32) replaces the bytes of a key that are not UTF-8: two messages share an
  identifier exactly if their partitions agree, their keys as text and their offsets as binary64 numbers
  (`MessageDocIDEqual`, `MessageDocIDCollides`); with keys that survive and offsets up to 2^53 that is the message
  itself (`MessageDocIDUnique`).
  Two RabbitMQ messages of a queue share one exactly if the ids agree and email and gender do when joined by a dot
  (`RabbitMQDocIDEqual`); so an identifier belongs to one message exactly if neither has a dot
  (`RabbitMQDocIDUnique`), and every gender with a dot is ambiguous (`RabbitMQDocIDAmbiguous`).

## Model

| member | source | states |
|---|---|---|
| CloseDiscipline.InvStep | app/pkg/pipelines/pipeline.go:38-108 | every step of every goroutine keeps the invariant tying closed flags, program counters, cancellation and the WaitGroup counter together |
| CloseDiscipline.NoPanic | app/pkg/pipelines/pipeline.go:51-98 | no run sends on a closed channel, closes one twice or makes the WaitGroup counter negative |
| CloseDiscipline.ClosingOrder | app/pkg/pipelines/pipeline.go:67-98 | stage channel k >= 1 closes only after all workers of stage k-1 returned, the sink channels but the first never, `errCh` only when all goroutines are done; the counter is the caller's count plus the live goroutines; a received error has cancelled the run |
| CloseDiscipline.ExtraCountBlocks | app/cmd/event_data/pipeline.go:100 | if the caller holds a count of its own, `errCh` is never closed and `Process` never returns |
| CloseDiscipline.LiveNone | app/pkg/pipelines/pipeline.go:92-98 | the live count is zero exactly if every worker goroutine has called Done |
| Shutdown.CrossingStep | app/pkg/pipelines/pipeline.go:113-157 | once cancelled, no step increases what can still cross a channel plus what has crossed it |
| Shutdown.BoundedShutdown | app/pkg/pipelines/pipeline.go:113-157 | after cancellation a channel carries at most one item for each upstream worker plus one; on sink channels the upstream workers are all workers |
| Wiring.BoundedShutdownBySizes | app/pkg/pipelines/fixed_workerpool.go:32-45 | the same bound as 1 + w_0 + ... + w_(k-1) in terms of the pool sizes |
| Wiring.UpstreamCounts | app/pkg/pipelines/fixed_workerpool.go:32-45 | the workers upstream of stage channel k number w_0 + ... + w_(k-1) |
| Shutdown.RankFalls | app/pkg/pipelines/fifo.go:27-68 | once cancelled, every step of the pipeline makes an explicit rank of source, held payloads, live workers, sinks and closer fall |
| Shutdown.CancelledRunsEnd | app/pkg/pipelines/pipeline.go:113-157 | a cancelled run has at most as many further steps as its rank, whatever the schedule |
| Shutdown.RankBounded | app/pkg/pipelines/pipeline.go:38-108 | a bound on the rank in the numbers of workers, stages and sinks |
| Shutdown.LiveWorkerSteps | app/pkg/pipelines/fifo.go:27-68 | once cancelled, every live worker has an enabled step of its own, whatever its processor answers |
| Shutdown.NextStep | app/pkg/pipelines/pipeline.go:51-107 | no deadlock: in a cancelled run some goroutine can step until everything is finished or the source is blocked in its send, and needs `Next` to return only when everyone else is done |
| Shutdown.ShutdownBounded | app/pkg/pipelines/pipeline.go:51-107 | from a cancelled state no schedule is longer than a fixed number of steps |
| Stopping.StuckIff | app/pkg/pipelines/pipeline.go:113-133 | in a cancelled state no step that the processors' answers allow is left if and only if everything is finished or the source is blocked in its send with everyone else done |
| Stopping.QuietIff | app/pkg/sources/kafka.go:19-48 | the same when `Next` gets no message: then also if the source waits in `Next` and everyone else is done |
| Stopping.ShutdownCompletes | app/pkg/pipelines/pipeline.go:91-107 | boundedly many steps after a cancellation all workers have exited; where no step is left, `Process` has returned if and only if the caller's count was zero and the source is not blocked in its send |
| Endings.CancelledRunFinishesIff | app/pkg/pipelines/pipeline.go:113-133 | from the moment of cancellation: no schedule is longer than a bound; every schedule ends with everything finished if and only if the source is then neither fetching nor sending; `Process` returns under every schedule if and only if, besides, the caller's count is zero |
| Endings.FinishedSourceFinishesAll | app/pkg/pipelines/pipeline.go:91-107 | once the source has left its loop every schedule finishes everything, and `Process` returns under every schedule if and only if the caller's count is zero |
| Endings.AlwaysFinishesIff | app/pkg/pipelines/pipeline.go:113-133 | the same condition for every cancelled state with the invariant |
| Endings.RunToBlock | app/pkg/pipelines/pipeline.go:122 | a source that is fetching or sending at the cancellation has a schedule that leaves it blocked in its send with everyone else done |
| Draining.CanStopWithoutLoss | app/pkg/pipelines/pipeline.go:51-107 | a cancelled run in which nobody has returned and the source has no payload in hand has a schedule, on which no worker and not the first sink looks at the context, after which every payload taken has arrived and everything is finished |
| Draining.ReceivedErrorCancels | app/pkg/pipelines/pipeline.go:101-106 | a failure of a worker, a storage, the source or the consumer can reach a waiting collector, which records it and cancels the run |
| Stopping.AbandonedForever | app/pkg/pipelines/pipeline.go:122 | once the source waits in its send and no worker of the first stage is left it stays there in every continuation, and `Process` does not return |
| Stopping.CancelledBy | app/pkg/pipelines/pipeline.go:96-106 | the collector has exactly the errors whose sends were received, in order, and a run is cancelled exactly if the caller, the collector or the closer did it |
| Stopping.CancelledIff | app/pkg/pipelines/pipeline.go:101-106 | a run is cancelled, or the collector about to cancel it, exactly if the caller cancelled or an error was received |
| Stopping.DroppedErrorsDoNotStop | app/pkg/pipelines/pipeline.go:161-166 | as long as no error was received and the caller did not cancel, whoever failed: not cancelled, the source in its loop, `Process` not returned |
| Stopping.ErrorLost | app/pkg/pipelines/pipeline.go:161-166 | a run of the code in which the only worker fails, its error is dropped, nothing is cancelled and the source is abandoned in its send |
| Stopping.CancellingDoesNotHelp | app/pkg/pipelines/pipeline.go:122 | from there, after the caller cancels and whatever follows, the source is in the same send and `Process` has not returned |
| Flow.Conservation | app/pkg/pipelines/pipeline.go:45-89 | in every reachable state each payload taken is exactly one of discarded, delivered to all sinks, failed, abandoned and in flight |
| Returns.NothingAbandoned | app/pkg/pipelines/fifo.go:27-68 | in a run that nobody cancelled no payload is abandoned: each one taken is exactly one of discarded, delivered to all sinks, failed and in flight |
| Returns.WorkersReturn | app/pkg/pipelines/fifo.go:27-68 | in every run a worker that gave up a payload saw the cancellation, and one that returned without a payload saw it or the end of its input |
| Returns.WorkersStop | app/pkg/pipelines/fifo.go:33-48 | a worker refuses nil payloads and nothing else, and fails exactly on what its processor answers with an error |
| Returns.WorkersDiscard | app/pkg/pipelines/fifo.go:49-58 | what is discarded some stage's processor was given, and answered with no payload and no error |
| Returns.FailuresAreOffered | app/pkg/pipelines/fifo.go:42-48 | no worker fails in silence: its error is received or dropped |
| Returns.SinksReturn | app/pkg/pipelines/pipeline.go:138-157 | a sink that returned saw the cancellation or the end of its channel, or its storage failed |
| Returns.ErrorsReceived | app/pkg/pipelines/pipeline.go:101-106 | every error received has a worker, sink or source behind it that stopped on it; the collector has cancelled the run once for each, but for the one at hand |
| Flow.BackPressure | app/pkg/pipelines/fifo.go:27-68 | the source is ahead of discarded and delivered payloads by at most one a worker plus one |
| Flow.BroadcastSkew | app/pkg/pipelines/fifo.go:60-68 | also after cancellation: a later sink has received a sub-multiset of what an earlier one has, smaller by at most the workers of the last stage |
| Flow.AtMostOnce | app/pkg/pipelines/fifo.go:60-68 | no sink receives a payload twice |
| Ordering.FifoSkew | app/pkg/pipelines/fifo.go:60-68 | with FIFO stages the later sink has received a prefix of what the earlier one has, shorter by at most one |
| Dataflow.TruthfulRun | app/pkg/pipelines/fifo.go:23-71 | with pools of any size every payload in the pipeline has the contents its own chain of stages gives it, and every worker that stopped did so on an error or nil |
| Ordering.OrderStep | app/pkg/pipelines/fifo.go:23-71 | every step keeps each channel of a FIFO pipeline in line with what the stage before computes |
| Ordering.StagesCompose | app/pkg/pipelines/pipeline.go:51-71 | one more stage behind the filter-map of k stages is the filter-map of k + 1 stages, also where it stops |
| Ordering.SinkReceivesPrefix | app/pkg/pipelines/pipeline.go:113-157 | in every reachable state of a FIFO pipeline each sink has received a prefix of the filter-map over the payloads taken |
| Ordering.SettledSinkReceivesAll | app/pkg/pipelines/pipeline.go:28-38 | whenever nothing is under way each sink has received the whole filter-map |
| Delivery.SinkReceivesOnlyResults | app/pkg/pipelines/fifo.go:40-68 | with pools of any size a sink receives only payloads that pass every stage, with the right contents, each once |
| Delivery.SettledDelivery | app/pkg/pipelines/fifo.go:53-68 | whenever nothing is under way a payload was delivered exactly if it passes every stage and else discarded |
| Progress.EverythingArrives | app/pkg/pipelines/pipeline.go:28-38 | while nobody has returned and no payload taken makes a stage stop: at most a fixed number of moves follow under every schedule, and where none is left every payload taken was delivered to all sinks and handed to their storages, or discarded, as its stages say |
| Progress.MoveExists | app/pkg/pipelines/fifo.go:27-68 | as long as somebody holds a payload some payload can be moved on, also without cancellation |
| Delivery.StorageReceivesPrefix | app/pkg/pipelines/pipeline.go:138-157 | each storage was handed a prefix of the filter-map, at most one item behind its sink |
| Delivery.PartitionOrder | app/pkg/pipelines/fifo.go:27-68 | if the source hands out each partition in order, each sink of a FIFO pipeline sees each partition in order, strictly if it was strict |
| FifoLoop.Run | app/pkg/pipelines/fifo.go:23-71 | the worker's loop sends the broadcast of the stage's filter-map over its input, cut where the context is cancelled; each send is a clone of what the processor made of an item, what is discarded are items it made nothing of; it returns on nil exactly if the last item received is nil, on an error exactly if the processor fails on it |
| FifoLoop.OneForwarded | app/pkg/pipelines/fifo.go:60-68 | a forwarded item adds one clone for each output channel, in channel order, to what the stage sends |
| FifoLoop.SendsInTurn | app/pkg/pipelines/fifo.go:60-68 | a worker's sends take the output channels in turn, from the first to the last, the same item to all of them before the next item |
| Wiring.SpawnWorkers | app/pkg/pipelines/fixed_workerpool.go:32-45 | starts exactly the workers of every stage, each running a fifo of its stage's pool |
| Wiring.StartStages | app/pkg/pipelines/fixed_workerpool.go:18-45 | stage i gets sizes[i] workers, which all run its processor |
| Wiring.WireChannels | app/pkg/pipelines/pipeline.go:45-89 | each stage sends on the next channel, the last one on all sink channels; storage idx reads channel n + m - 1 - idx |
| PoolSafety.CloneMeans | app/pkg/payloads/kafka.go:32-46 | whatever object the pool supplies, a clone reads as the payload with a zero Kafka timestamp, and nobody else's view changes |
| PoolSafety.SafeStep | app/pkg/pipelines/fifo.go:40-68 | every step keeps: no held object is pooled, no two holders share an object, only holders behind the last processor share a payload, pooled objects are zero |
| PoolSafety.SafeRun | app/pkg/pipelines/fifo.go:40-62 | the same over every run |
| Refinement.ObjectsRefineValues | app/pkg/pipelines/pipeline.go:138-157 | every run over pooled objects is a run over payload values, and every holder reads the value that run puts there |
| Refinement.PoolOwnership | app/pkg/payloads/kafka.go:54-68 | no object is put in the pool while it is there or while a worker, a sink or a storage queue will still read it, and it is put there with every field zero |
| Refinement.PoolExactly | app/pkg/pipelines/fifo.go:40-68 | nothing else enters or leaves the pool: clones come from it, discarded and drained payloads go to it |
| Refinement.CloneIgnoresThePool | app/pkg/payloads/kafka.go:32-46 | in every reachable state `Clone` depends on its argument only and returns an object nobody holds |
| Refinement.ExclusiveMutation | app/pkg/processors/kafka_meta_injector.go:22-37 | while a processor may write a `Value` map nobody else holds a payload referring to it |
| Refinement.StorageReadsResults | app/pkg/storage_providers/es.go:87-97 | what a storage reads when it writes, however late, is the payload drained there |
| Realisation.ValuesAreRealised | app/pkg/pipelines/fifo.go:23-71 | the converse: every run over payload values in which the source hands out no nil is performed by a run over pooled objects |
| Realisation.RealiseStep | app/pkg/payloads/kafka.go:32-46 | it can go on with each step whatever object the pool supplies for the clone |
| Realisation.PooledIsSupplied | app/pkg/payloads/kafka.go:32-46 | in every reachable state the clone of any payload held may get any pooled object of its type |
| Realisation.PoolMayBeEmptied | app/pkg/payloads/kafka.go:14-22 | the garbage collector may empty the pool at any time without anybody noticing |
| EndToEnd.StorageWritesFilterMap | app/pkg/pipelines/pipeline.go:138-157 | in a FIFO pipeline over pooled objects the i-th clone handed to a storage is read as the i-th result of the filter-map |
| EndToEnd.StorageWritesResults | app/pkg/storage_providers/es.go:87-97 | with stages and worker pools of any size a storage writes only what the stages make of payloads taken, of each at most once |
| StorageRuns.TaskIsPossible | app/pkg/concur/workerpools.go:37-41 | in every run of pipeline and pools a worker with a clone in hand can read and write it |
| StorageRuns.SingleWorkerWritesPrefix | app/pkg/concur/workerpools.go:34-51 | a storage with one worker behind a FIFO pipeline writes a prefix of the filter-map, in order |
| StorageRuns.IdlePoolHasWrittenAll | app/pkg/concur/workerpools.go:34-51 | when a pool has nothing queued or in hand everything handed over has been written |
| Realisation.PlantsRealiseValues | app/pkg/concur/workerpools.go:34-51 | the worker pools stand in the way of no schedule: every run over payload values is possible with pools of any size attached, and everything written |
| BulkEndToEnd.ServerHoldsPrefix | app/pkg/storage_providers/es.go:87-140 | one worker, one index, cooperative answers: whenever the buffer is empty the server holds the last-writer-wins result of a prefix of the filter-map over the payloads taken |
| PayloadObjects.KafkaPayload.Clone | app/pkg/payloads/kafka.go:32-46 | a recycled or new object, taken out of the pool, with every field of the payload and the same map, but a zero timestamp |
| PayloadObjects.KafkaPayload.MarkAsProcessed | app/pkg/payloads/kafka.go:54-68 | the object is zero and in the pool; the map it referred to is untouched |
| PayloadObjects.RabbitMQPayload.Clone | app/pkg/payloads/rabbitmq.go:34-49 | a recycled or new object, taken out of the pool, with every field of the payload and the same map |
| PayloadObjects.RabbitMQPayload.MarkAsProcessed | app/pkg/payloads/rabbitmq.go:57-72 | the object is zero and in the pool; the map it referred to is untouched |
| PayloadObjects.KafkaDefaultProcess | app/pkg/processors/kafka_default_processor.go:30-57 | fails exactly without a value, else the shared map gets the meta entry with its three fields |
| PayloadObjects.RabbitMQDefaultProcess | app/pkg/processors/rabbitmq_default_processor.go:30-52 | the same for RabbitMQ |
| PayloadObjects.InjectMeta | app/pkg/processors/kafka_meta_injector.go:22-37 | the map changes at the meta entry only, in place |
| PayloadObjects.NormalizeKafkaPayload | app/pkg/processors/kafka_normalizer.go:26-45 | succeeds exactly if marshalling the value does; data is the marshalled value, index and identifier are the printed texts, nothing else changes; on an error index and identifier are already written |
| PayloadObjects.NormalizeRabbitMQPayload | app/pkg/processors/rabbitmq_normalizer.go:22-40 | the same for RabbitMQ |
| Processors.StandardKeeps | app/pkg/processors/kafka_normalizer.go:26-45 | the repository's processors keep what identifies a message, and its value but for the meta entry, and work in place, as the pipeline theorems ask |
| Processors.ProcessMeans | app/pkg/processors/kafka_default_processor.go:30-57 | which processor answers which payload with an error, and what exactly the others make of theirs |
| Processors.OneKafkaIndex | app/pkg/payloads/kafka.go:32-46 | in a pipeline with a Kafka normalizer at any stage, whatever a sink receives carries the zero timestamp's index and the identifier of the message the source handed out |
| Processors.SinkReceivesDocuments | app/pkg/processors/rabbitmq_normalizer.go:22-40 | behind a normalizer of either kind everything a sink receives has the index and the identifier of the message the source handed out, and its data is the marshalled value, which but for the meta entry is the message's |
| BulkBody.RoundTrip | app/pkg/storage_providers/es.go:105-121 | records without line breaks are read back from the body exactly, from two lines each |
| BulkBody.EncodeInjective | app/pkg/storage_providers/es.go:105-121 | different record lists have different bodies |
| BulkBody.EncodeText | app/pkg/storage_providers/es.go:105-121 | the text that one more record adds to the body |
| Elasticsearch.ElasticSearchClient.Write | app/pkg/storage_providers/es.go:92-140 | buffer bytes, count and counter always encode the store; the new store, with what the server got, is the specified one; which documents are refused, the number returned, and exactly when the call panics |
| Elasticsearch.ElasticSearchClient.BulkWrite | app/pkg/storage_providers/es.go:142-225 | the bodies offered, the outcome and the server's documents are the specified ones for every kind of answer, fatal ones included; the counter grows by the number returned |
| Elasticsearch.ElasticSearchClient.CountIndexed | app/pkg/storage_providers/es.go:185-206 | counts exactly the items whose status is at most 201 |
| BulkRuns.WriteConserves | app/pkg/storage_providers/es.go:92-140 | one call adds its record, if accepted, to completed batches and buffer together, at the end |
| BulkRuns.BulkConservation | app/pkg/storage_providers/es.go:92-140 | accepted records in lock order are the completed batches followed by the buffer |
| BulkRuns.FlushCountLaw | app/pkg/storage_providers/es.go:111-139 | with f failed flushes since the reset the buffer has at most 999 records if f = 0, and 999 + f otherwise; a completed batch had 1000 + f |
| BulkRuns.CounterAgrees | app/pkg/storage_providers/es.go:129-137 | the write-total counter is the sum of all values `Write` returned |
| BulkRuns.RetryBound | app/pkg/storage_providers/es.go:142-225 | at most maxRetries + 1 requests, each offering a suffix of what the one before offered; the result is at most the number of response items |
| BulkRuns.GaveUpIff | app/pkg/storage_providers/es.go:161-172 | a call gives up exactly if maxRetries + 1 requests got no answer; with a negative limit never |
| BulkRuns.FirstAnswerCounts | app/pkg/storage_providers/es.go:148-224 | otherwise the first answer ends it |
| BulkRuns.WholeBodyIff | app/pkg/storage_providers/es.go:146-171 | the last request offers the whole body exactly if no earlier one took a byte |
| BulkReplay.IdempotentReplay | app/pkg/storage_providers/es.go:92-174 | with one index and cooperative answers the server holds the last-writer-wins result of all accepted records whenever the buffer is empty, despite partly applied failures |
| BulkReplay.RetryLosesBatch | app/pkg/storage_providers/es.go:146-172 | a retry after a fully read body completes the batch and stores none of it |
| BulkReplay.ErrorStatusDropsBatch | app/pkg/storage_providers/es.go:211-222 | an error status empties the buffer and reports no error; the server holds no document but those it applied before it answered so |
| BulkReplay.ShortAnswerLosesRecords | app/pkg/storage_providers/es.go:185-209 | an answer with too few items completes the batch without an error, and only the records it has good items for are stored |
| BulkReplay.ReturnsWhatIsStored | app/pkg/storage_providers/es.go:124-137 | where the answer has an item for every record, `Write` returns, and the counter grows by, the number of records stored |
| BulkStored.FlushStoresIff | app/pkg/storage_providers/es.go:123-222 | where the server applies no request that it does not answer item by item: a flushed batch of new documents is stored exactly if the last request is answered, no attempt before took a byte of the reader, and the answer has an item without error status for every record |
| BulkStored.FlushStoresIffWritten | app/pkg/storage_providers/es.go:123-222 | where the server may apply records of the batch from any request: the batch is stored exactly if each record was applied in some request or passed in the last |
| BulkStored.IngestedIff | app/pkg/storage_providers/es.go:157-209 | a request offering the end of a body stores its batch exactly if it is the whole body and the answer has a good item for every record |
| BulkStored.ParseOnly | app/pkg/storage_providers/es.go:105-121 | a body that can be read is the encoding of what is read: the converse of the round trip |
| BulkReplay.PlacedIffSameIndex | app/pkg/storage_providers/es.go:124-136 | the documents of a batch answered in full without errors all stand under their own index exactly if they share that of the triggering document |
| WorkerPool.StopFindsReceiver | app/pkg/concur/workerpools.go:34-64 | live workers plus received signals are the size, so `Stop` always finds a receiver once a task returns |
| WorkerPool.StopStopsAll | app/pkg/concur/workerpools.go:59-64 | when `Stop` returns every worker has returned, on exactly one signal |
| WorkerPool.DataConserved | app/pkg/concur/workerpools.go:34-51 | data enqueued is data queued, in hand and finished, for every weighing |
| WorkerPool.SingleWorkerOrder | app/pkg/concur/workerpools.go:34-51 | one worker runs the task in the order of the sends |
| WorkerPool.StopLosesQueued | app/pkg/concur/workerpools.go:59-64 | what `Stop` leaves undone is what is still in the channel's buffer |
| WorkerPool.WithinCapacity | app/pkg/concur/workerpools.go:34-64 | the buffer never holds more than its capacity, and no signal is taken before `Stop` |
| WorkerPool.UnbufferedStopLosesNothing | app/pkg/storage_providers/es.go:73-90 | with the unbuffered channel in front of Elasticsearch nothing handed over is undone when `Stop` returns |
| WorkerPool.PoolCanFinish | app/pkg/concur/workerpools.go:34-51 | as long as `Stop` has a signal left, the workers can by themselves finish all that was sent, and then one takes the next data at once |
| WorkerPool.StopMayLoseAll | app/pkg/concur/workerpools.go:34-64 | any data the buffer can hold may be lost when `Stop` returns: the workers may take their signals first |
| Filesystem.FilesystemClient.Write | app/pkg/storage_providers/filesystem.go:71-114 | file, count, disk and result after one attempt; a nil payload changes nothing |
| Filesystem.FilesystemClient.Retry | app/pkg/storage_providers/filesystem.go:86-111 | the loop tries until the first success or the limit |
| Filesystem.FirstSuccessCounts | app/pkg/storage_providers/filesystem.go:86-111 | the loop ends with the first success, whatever later attempts would do, and the file has the data |
| Filesystem.AllBrokenFails | app/pkg/storage_providers/filesystem.go:86-111 | without a success the loop reports the failure |
| Filesystem.PathInjective | app/pkg/storage_providers/filesystem.go:98-99 | documents with proper names get the same file exactly if index and identifier agree; a path is followed name by name |
| Filesystem.NamesAlias | app/pkg/storage_providers/filesystem.go:98-99 | the indexes "" and "." share all their files |
| Filesystem.KeepsItsFile | app/pkg/storage_providers/filesystem.go:71-114 | a document written successfully keeps its file with its own data, whatever is written after it |
| Filesystem.OneFileEach | app/pkg/storage_providers/filesystem.go:71-114 | distinct new documents with proper names make exactly one file for each write that left something |
| Filesystem.OnlyTheirPaths | app/pkg/storage_providers/filesystem.go:98-99 | no other file appears |
| Filesystem.KafkaFilesDistinct | app/pkg/processors/kafka_normalizer.go:35 | two messages of a topic with exact offsets and no slashes get the same file exactly if partition and offset agree and the keys become the same text |
| Filesystem.KafkaFilesAlias | app/pkg/processors/kafka_normalizer.go:35 | with slashes in the key they need not: two keys that lead to one file |
| DocIds.KafkaDocIDRead | app/pkg/processors/kafka_normalizer.go:35 | for a fixed topic the identifier determines key, partition and offset, read from the right |
| DocIds.DecimalText | app/pkg/processors/kafka_normalizer.go:35 | numbers are printed in decimal: some of them |
| DocIds.MessageDocIDEqual | app/pkg/kafka/consumer.go:190-195 | two messages of a topic share an identifier exactly if partitions agree, keys after the JSON round trip, and offsets as binary64 numbers |
| DocIds.MessageDocIDUnique | app/pkg/sources/kafka.go:26-32 | where keys survive the round trip and offsets are exact the identifier is the message's own |
| DocIds.MessageDocIDCollides | app/pkg/kafka/consumer.go:193 | two messages beyond 2^53 that share one, and keys that become the same text |
| DocIds.RabbitMQDocIDRead | app/pkg/processors/rabbitmq_normalizer.go:30 | for a fixed queue and a dot-free gender the identifier determines id, email and gender |
| DocIds.RabbitMQDocIDEqual | app/pkg/processors/rabbitmq_normalizer.go:30 | two messages of a queue share an identifier exactly if ids agree and email and gender, joined by a dot, do |
| DocIds.RabbitMQDocIDAmbiguous | app/pkg/processors/rabbitmq_normalizer.go:30 | every gender with a dot has another email and gender with the same identifier |
| DocIds.RabbitMQDocIDUnique | app/pkg/processors/rabbitmq_normalizer.go:30 | an identifier belongs to one message of its queue exactly if neither email nor gender has a dot |
| Float64.OfIntMonotone | app/pkg/kafka/consumer.go:192-193 | the conversion to binary64 keeps the order, and is exact up to 2^53 |
| Float64.OfIntIsNearest | app/pkg/kafka/consumer.go:192-193 | the conversion rounds to the nearest number with 53 significant bits, ties to even |
| KafkaStream.SoundRun | app/pkg/kafka/consumer.go:187-218 | however the pollers interleave, each payload the source took says field by field what a message that its poller has delivered says, and the offsets of a partition rise |
| KafkaStream.ReadOnce | app/pkg/sources/kafka.go:19-48 | each message polled is taken off the stream exactly once, but for the one being sent |
| KafkaStream.PartitionsStayInOrder | app/pkg/sources/kafka.go:19-48 | from the pollers to the sinks every partition stays in order |
| KafkaEndToEnd.SinkReceivesMessages | app/pkg/sources/kafka.go:19-48 | from the pollers to the sinks: behind a Kafka normalizer each payload is the document of a message of one of the partitions, with its identifier and its value |

## Left out

- The start of `Process`: the machine starts when all goroutines are started and counted, which is before the closer exists.
- Consumer errors sent on `errCh` after it is closed: a poller could then panic (app/pkg/kafka/consumer.go:223); the close discipline excludes these sends, and errors before are the step ConsumerError.
- Stopping.ShutdownCompletes: counts steps of the pipeline, and assumes that processors and `Drain` return, and `Next` with or without a message; QuietIff drops the last.
- Several calls of `Process` on one WaitGroup and one `errCh`: each run here is one call.
- Delivery.StorageReceivesPrefix: clone, `Drain` and `MarkAsProcessed` of a sink worker are one step, so the moment between hand-over and recycling is not a state; the two concern different objects.
- Refinement.ObjectsRefineValues: for processors that change the payload they are given in place, as those of the repository are proved to do (`StandardKeeps`); a processor that returns another payload is not covered there, but is in Dataflow and Ordering.
- Realisation.ValuesAreRealised: where the source hands out a nil payload the value run stops a worker; the sources of the repository hand out none.
- EndToEnd.StorageWritesFilterMap: says what the storage reads for each clone, not in which order several storage workers write, which is arbitrary; SingleWorkerWritesPrefix has the order for one, and StorageWritesResults what holds for any number.
- StorageRuns.SingleWorkerWritesPrefix: a worker's write and the end of its task are one step, and a sink that finds the channel full has not drained yet.
- Progress.EverythingArrives: speaks of payloads moved on; that the scheduler goes on taking steps, and that processors and `Drain` return, is assumed.
- PayloadObjects.InjectMeta: a bare meta injector panics on a nil map, and every processor on a payload of the other type; neither is modelled, the default processors check for the nil map first.
- Elasticsearch.ElasticSearchClient.Write: `append` may write behind the end of a shared `Data` slice (app/pkg/storage_providers/es.go:109); data is a value here, so that aliasing is not captured.
- BulkBody.RoundTrip: the server is modelled as reading fixed action lines and records without line breaks; JSON escaping in identifiers is not modelled.
- BulkStored.FlushStoresIff: for batches whose identifiers differ and are new to the server, as FlushStoresIffWritten; BulkReplay.IdempotentReplay covers repeated identifiers.
- Filesystem.FilesystemClient.Write: creating directories and the recovered panic are left out, and so are symbolic links and names that are directories; a failed attempt may leave any file.
- DocIds.MessageDocIDEqual: one topic at a time; a dot in a topic or key can make identifiers of different topics equal.
- WorkerPool.DataConserved: one `Start`; a second one would add workers that `Stop` does not count.
- KafkaStream.SoundRun: pollers are steps of a machine rather than objects with fields; cancellation, polling errors and end-of-partition events deliver nothing and are left out, and message values are given decoded.
- FifoLoop.Run: one worker against scripted channels; its interleaving with others is the subject of Control.
- Dates, UUIDs, JSON, YAML, configuration, metrics other than the write total, logging, rate limiting and sleeping.
- Kafka, AMQP, Elasticsearch and operating system calls beyond their outcomes; RabbitMQ connection handling.
- Factories and validators, HTTP routes, command line, example program and deployment files: one-branch facts or plumbing.
