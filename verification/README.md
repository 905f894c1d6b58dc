# Order transfer worker: a verified model

The worker moves order files from an SFTP drop directory to S3 and GCS. A watcher turns each closed file into
a `file.transfer.requested` event on RabbitMQ. A consumer scans the file, uploads it to every destination,
retries failed rounds with exponential backoff through a TTL queue, gives up into a dead-letter queue (DLQ), and
remembers finished keys in SQLite. Two cloud functions fold the delivered CSV files into DynamoDB and Firestore.

The centre is `Protocol.dfy`: the whole system as a labelled step machine. One step is one effect (a publish with
its outcome, one upload's start or end, `mark_done`, an ack, one counter increment, a head expiry of the retry
queue, an exception, a lost connection, a crash with restart), so every interleaving and every crash between two
effects is a run. A publish is confirmed, lost or ambiguous; an upload that times out or throws may have written.
Fields called history (`origin`, `rounds`, `exit`, `shadowed`, `origins`, `builds`, `counted` and some of the tally)
are read by no step.

The theorems about all runs and all inputs:

- `NoLoss`: a message that ever got onto the main queue always has a copy somewhere, or its key is done.
- `DoneOnce`: a done key was delivered to all destinations within one handling, and is never worked on again.
- `Convergence`, `Rewrites`: where a quiet system has put the present bytes of a path, and exactly when a rewrite
  converges.
- `Draining`, `Quiescence`: from which states a system can come to rest, left entirely alone or with restarts.
- `Schema`, `Wire`, `Json`, `Csv`, `CsvSecurity`, `Detection`: what exactly is accepted, refused, written and read.
- `Counting`, `WorkBound`, `FailedRounds`, `RetryTiming`, `Counters`, `RetryClosure`: how often something happens in a
  run, how many handlers can start, what a retry block says, when a retry returns, what the metrics add up to, and
  that every hop stays readable.

The imperative parts are classes and loops. `Surroundings.World` holds the directory, the queues and the
destinations as fields, with methods for what the environment does (files written and removed, foreign publishes,
expiry, time, a lost connection, a restart); `Consumer.Consumer` and `Watching.FileWatcher` are the two threads, with
the source's branches, loops and counters as fields. Each effect advances a ghost run of the machine, and `Valid` says
that the fields are the state that run leads to. Every theorem about runs therefore holds of the classes
(`Consumer.Consumer.Run` uses one of them in its contract). `EndToEnd` puts the parts up with their constructors and
takes a file through them, once without a fault and once through an outage with a restart and a retry; `Backlog` works
off a whole queue.

## What turned out false, and when it holds

The event contract (docs/event-contract.md:65-67) says that skipping a done key makes redeliveries safe, and the
README of the repository presents the worker as bringing every dropped file to both clouds. That fails in two ways.

First, for a path that returns to bytes it had before: the key covers path, size and checksum only, so after A, B, A
the second A counts as a duplicate and the destinations keep B. `Rewrites.ReturningPathStrands` builds that run for
any two clean files, and `Rewrites.EmptyFileStrands` for concrete ones, with no hypothesis left.
`Rewrites.RewriteConvergesIff` gives the exact condition at any point of any run, for continuations that leave the
path alone, have published its bytes and end quiet: writing `c` leads to convergence on all of these if and only if
the store can be trusted about `c` (`Protocol.SettledFor`) or its event is in the DLQ. Trusted means: if the key of
`c` is done, every destination holds `c` and no upload for the path is about to write something else; and if the
handler may still mark that key, every destination holds `c` or is about to. Between two messages this is just the
duplicate check and a look at the destinations (`Rewrites.SafeBetweenMessages`). `Convergence.QuietMeansConverged` and
`Rewrites.NeverReturningConverges` are the consequences for whole runs, and `Convergence.EachPublicationEnds` says the
same of each single publication, one made by hand included; that such a replay helps is `Rewrites.ReplayRecovers`.

Second, for a file that is never published: when the publish and its one repetition are both lost, the watcher logs the
error and drops the event. `Rewrites.LostAnnouncement` builds the run: the system is quiet, the file lies in the
directory, and neither a destination nor the DLQ knows of it. Exactly which files this concerns is
`Convergence.PublishedIff`: a content is published if and only if, of some event built for it, some publish was not
lost; and an event has as many copies on the main queue as it had such publishes (`Counting.CopiesArePublishes`).

The event contract (docs/event-contract.md:61-64) also sends permanent failures straight to the DLQ. That fails for a
file on which the CSV reader raises: `scan_csv_file` lets `csv.Error` through, the handler raises, and the message is
held, redelivered after each restart, and raises again. `Quiescence.CanRestIff` gives the exact condition. With nobody
writing files or publishing, but with restarts allowed (which give up the paths that still wait in the watcher), a
system can come to rest if and only if no supported event with an undone key names such a file and is queued or bound
to come back, unless the handler is about to mark that key. `Quiescence.BareReturnBlocks` exhibits a file of three bytes.

Nor does a system come to rest by itself after a publish that raised: its message stays unacked until the connection
closes. `Quiescence.CanSettleIff` gives the exact condition for a system left entirely alone, without restarts, lost
connections or a stopping watcher: the connection is up, no message is held, none is stuck on an unreadable file, and
the handler is not about to scan a file that has gone (`Quiescence.SmoothBetweenMessages` for the time between two
messages). Held messages that fill the prefetch window stop the consumer altogether (`Quiescence.FullWindowStalls`);
`Quiescence.LostLetterStalls` exhibits a run with one message and no file at all.

Two further conditions are exact: a failed round finds a way on if and only if `retry_max_attempts >= 1`
(`RetryClosure.FailedRoundHasARouteIff`), and the fan-out makes progress if and only if
`upload_max_concurrency >= 1` or there is nothing to upload (`FanOut.ProgressIff`).

Where code and documents differ the model follows the code. Rejected files are scanned again when they are detected
again (against EXERCISE-2.md:190-191); a replayed partial success is uploaded again (docs/runbook.md:94-96);
checksums are not verified after an upload (docs/event-contract.md:121); unknown fields are refused
(docs/event-contract.md:71-72); a retry keeps its `eventId` (docs/event-contract.md:40); `RETRY_MAX_ATTEMPTS`
defaults to 5 (worker/src/config.py:57), not 3 (docs/runbook.md:121).

## Hypotheses

- `KeyEncoding.CollisionFree(hashes, files)`: on the finite set of files ever written, neither digest collides.
- `Detection.HexDigests`: digests print as 64 hexadecimal characters.
- `Convergence.OwnEventsOnly` (for the convergence theorems): every supported event on the main queue is one the
  watcher published there, or a repetition of such an event with any retry block, as the replay of a dead letter by hand
  is (docs/runbook.md:92-94).
- `RetryTiming.Urgent`: the broker expires a due head before time goes on (for the exact timing only).
- `asyncio.run` joins the upload threads before `_handle` goes on, and a crash ends them. The write of an upload that
  timed out or threw may therefore land after its report but before the results are used; the model puts it at the
  report. That changes no outcome: no step in between reads the destinations, those of one event are different places,
  and a crash in between is a run in which the upload did not write. Only a guard that looks at the destinations at
  that very moment (`Rewrites.SafeToWrite`) has to count such a write as landed.

`Rewrites.EmptyFileStrands` exhibits hashes, settings and a run that meet the convergence hypotheses.

## Model

| member | source | states |
|---|---|---|
| NoLoss.NothingIsLost | worker/src/consumer.py:49-161 | in every reachable state, after any crashes, exceptions and restarts, each message that got onto the main queue has a copy on the main, retry or dead-letter queue or unacked, or its key is done |
| NoLoss.AckedOnlyWhenSafe | worker/src/consumer.py:122-152 | whenever an ack is possible, the message given up has its replacement queued or its key done without it |
| NoLoss.KeptStep | worker/src/consumer.py:58-63 | the no-loss invariant survives each single step, the raising and crashing ones included |
| DoneOnce.DoneMeansDelivered | worker/src/consumer.py:119-124 | behind every key in the store lies one handling of an event with that key, without raise or restart, in which each destination reported success before the mark |
| DoneOnce.NothingForADoneKey | worker/src/consumer.py:93-98 | once a key is done no step of any continuation starts or ends an upload for it or marks it again |
| DoneOnce.UndoneStep | worker/src/idempotency.py:36-49 | keys never leave the store, enter it only by a mark, and a handler past the duplicate check works on a key that is not done |
| Convergence.QuietMeansConverged | worker/src/consumer.py:93-152 | after any run that ends quiet, a published path whose bytes did not come in behind the store's back has them at every destination or their event in the DLQ |
| Convergence.EachPublicationEnds | worker/src/consumer.py:93-152 | publication by publication, one repeated by hand included: after any run that ends quiet, the bytes are at every destination or this very publication is in the DLQ |
| Convergence.PublishedIff | worker/src/watcher.py:119-139 | along any run a content of a path is published if and only if some publish of some event built for it was not lost |
| Rewrites.ReplayRecovers | docs/runbook.md:92-94 | a dead letter of the watcher's whose file is there and clean by now and whose key is not done: published again by hand, it is delivered to both destinations and marked when nothing fails, within the hypotheses of the convergence theorems |
| Rewrites.ReplayIsOwn | docs/runbook.md:92-94 | publishing an event of the watcher's again with any retry block keeps the hypothesis about whose events are queued |
| Convergence.SettledRun | worker/src/consumer.py:119-124 | the per-path invariant behind it holds along every run, while uploads of older events race with rewrites |
| Rewrites.NeverReturningConverges | worker/src/watcher.py:49-60 | a path that is never given bytes it had earlier converges on every run that ends quiet |
| Rewrites.DifferentWritesNeverReturn | worker/src/watcher.py:49-60 | a run whose writes to the path all bring different bytes is one of these |
| Rewrites.RewriteConvergesIff | worker/src/consumer.py:93-124 | at any point of any run, with uploads under way or not, writing new bytes leads to convergence on every continuation that leaves the path alone, has published the bytes and ends quiet, if and only if the store can be trusted about them or their event is in the DLQ; provided no message naming this path is held up by the new bytes raising csv.Error |
| Rewrites.QuietRewriteConvergesIff | worker/src/consumer.py:93-98 | in a quiet state, without that proviso: if and only if the key is not done, or the destinations hold the bytes, or their event is in the DLQ |
| Rewrites.SafeBetweenMessages | worker/src/consumer.py:93-98 | between two messages the condition is that of the quiet state |
| Quiescence.CanRestIff | worker/src/consumer.py:58-63 | a reachable state has a continuation to a quiet one without writes or foreign publishes, though with restarts and with paths still waiting in the watcher given up, if and only if no message is stuck on a file that raises csv.Error |
| Quiescence.CanSettleIff | worker/src/consumer.py:47-63 | without restarts, lost connections and a stopping watcher too, if and only if the connection is up, no message is held unacked after an exception, none is stuck on such a file, and the handler is not about to scan a file that has gone |
| Quiescence.SmoothBetweenMessages | worker/src/consumer.py:47-63 | with an idle handler that condition is: connected, nothing held, and no queued message unreadable |
| Quiescence.FullWindowStalls | worker/src/consumer.py:47 | once at least one message and as many as upload_max_concurrency are held, no run without a restart or lost connection delivers anything |
| Quiescence.NextInWindow | worker/src/consumer.py:47 | with upload_max_concurrency of 2 or more, one held message does not keep the next one from being delivered |
| Protocol.DeliversIff | worker/src/consumer.py:47 | connected, waiting and with a message queued, the next one is delivered iff none or fewer than upload_max_concurrency messages are held unacked |
| Protocol.FaultsAnywhere | worker/src/consumer.py:58-63 | a crash can strike at any point, a lost connection while it is up, and an exception from the delivery to the ack |
| Protocol.NothingWithoutConnection | worker/src/consumer.py:49-64 | over a lost connection nothing is delivered and no publish of the consumer goes through |
| Quiescence.LostLetterStalls | worker/src/consumer.py:71-77 | an unreadable body whose dead letter is lost leaves a held message, no file at all, and a system that can rest after a restart but not by itself; with upload_max_concurrency of 1 nothing is delivered any more |
| Quiescence.BlockedBetweenMessages | worker/src/consumer.py:100-108 | with an idle handler that condition is that no queued supported event with an undone key names such a file |
| Quiescence.UnreadableFileBlocks | worker/src/csv_security.py:51 | any such file, once announced, keeps the system from ever resting, with nothing in the DLQ |
| Quiescence.BareReturnBlocks | worker/src/csv_security.py:51 | the same for the bytes of A, a bare CR and B |
| Draining.DrainFrom | worker/src/consumer.py:66-161 | from any reachable state without such messages there is a run to a quiet one that leaves directory, store and destinations alone, and whose dead letters are none of done keys |
| Rewrites.ReturningPathStrands | worker/src/consumer.py:93-98 | for any two clean files the sequence A, B, A, without any fault, ends quiet with B at the destinations and nothing in the DLQ |
| Rewrites.EmptyFileStrands | worker/src/consumer.py:93-98 | the same for concrete files, settings and hashes, within which the run stays, so the convergence hypotheses can be met |
| Rewrites.LostAnnouncement | worker/src/watcher.py:131-138 | a file whose two publishes are both lost ends in the directory alone, in a quiet system with an empty DLQ, although it was safe to write |
| Continuations.DeliverCleanFile | worker/src/consumer.py:119-127 | from every quiet state there is a fault-free run that delivers a new clean file to both destinations and marks its key |
| Continuations.SkipDuplicate | worker/src/consumer.py:93-98 | an event with a done key is acked and changes neither destinations, store nor DLQ |
| WorkBound.HandlerStartsBounded | worker/src/consumer.py:130-152 | along any run the deliveries number at most (retry_max_attempts + 1) times the publications plus the exceptions, unconfirmed sends, lost connections and crashes that hit a handler with an unacked message, all counted as steps of the run |
| WorkBound.OutlayStep | worker/src/publisher.py:78-86 | the potential (starts so far plus attempts left on all live copies) grows at each step by no more than the step's credit pays for |
| FailedRounds.RetryHistory | worker/src/consumer.py:129-149 | a copy differs from the published event only in its retry block; behind an attempt of n lie its publication and n upload rounds that found failures, each of the very copy the one before sent on, the last leaving this one, and n is at most the maximum; behind an exhausted dead letter lies exactly one round more |
| Lineage.TrackedStep | worker/src/schema.py:126-129 | the relation of every queued copy to its original is kept by each step |
| RetryTiming.RetryLeavesOnTime | worker/src/publisher.py:46-86 | a message expires no earlier than its publish time plus TTL; under immediate expiry exactly at the latest deadline among itself and those ahead when it was queued, and for a base of at least 1 within the longest backoff |
| RetryTiming.FirstInFirstOut | worker/src/publisher.py:47-54 | along any run messages leave the retry queue in the order in which they came, despite mixed TTLs |
| RetryTiming.ExpiresIff | worker/src/publisher.py:80-86 | the head of the retry queue expires once its deadline has come, and not before |
| RetryTiming.UrgentMore | worker/src/publisher.py:80-86 | expiry is immediate in a run unless time goes on over a due head |
| Counters.CountersConserved | worker/src/consumer.py:71-161 | between two messages: acks are the four results plus the crashes between an ack and its count; the dlq result is dlq_messages_total, and the duplicate result idempotency_hits_total, plus the crashes between the increments; the DLQ length is the dlq result plus the handlers that ended between a DLQ publish and its count |
| Counting.NoneOccur | worker/src/consumer.py:71-161 | each of these numbers is zero iff no step of the run is such a crash, ambiguous publish or exception |
| Counting.CopiesArePublishes | worker/src/watcher.py:119-139 | along any run an event of the watcher has as many copies on the main queue as publishes of it were not lost, so one at all iff some publish was not |
| Counting.RememberedRun | worker/src/consumer.py:49-161 | publications, handler starts, handlers cut short and each kind of uncounted end, as the state remembers them, are the numbers of such steps in the run |
| Counters.WatcherAccounting | worker/src/watcher.py:119-139 | each built event has 0 to 2 copies, at least one if counted, all with its key; events_published_total <= copies <= 2 * events |
| RetryClosure.WithRetryIff | worker/src/schema.py:59-64 | with_retry accepts exactly positive numbers; its result has exactly the given retry block, keeps all other fields, is as supported as before and survives the wire |
| RetryClosure.FailedRoundHasARouteIff | worker/src/consumer.py:132-151 | a failed round leads to the retry queue or the DLQ if and only if retry_max_attempts >= 1 |
| RetryClosure.FailedRoundSays | worker/src/consumer.py:129-151 | the copy a failed round sends on differs in its retry block only; that block has the attempts, the maximum and the joined errors; it goes to the retry queue with one attempt more, for the backoff of that attempt, while any are left, and to the DLQ otherwise |
| RetryClosure.ReasonsAreRight | worker/src/consumer.py:66-91 | in every reachable state a dead letter is an invalid_payload iff it cannot be read, and an unsupported_schema_version iff it can and its major version is not supported |
| RetryClosure.EveryHopIsReadable | worker/src/consumer.py:66-91 | in every reachable state each event on a queue, dead letters included, or in a handler reads back from its bytes and is as supported as the original |
| RetryClosure.OwnEventsStayValid | worker/src/consumer.py:66-91 | no event the watcher published ever lands in the DLQ as invalid_payload or unsupported_schema_version |
| Wire.WireRoundTrip | worker/src/schema.py:131-136 | from_json_bytes undoes to_json_bytes for every valid event, whatever characters its strings hold |
| Wire.FromBytesExactly | worker/src/schema.py:135-136 | from_json_bytes returns an event iff the bytes are UTF-8 of a JSON text that spells it, with no other members than the named ones at any level, the last of a repeated name counting and missing optional ones None, and the event is valid |
| Wire.UnknownFieldRefused | worker/src/schema.py:66-67 | a body with any member besides the ten is refused |
| Wire.SpacedRoundTrip | worker/src/schema.py:131-136 | the round trip with any white space between the tokens |
| Schema.AcceptedExactly | worker/src/schema.py:30-113 | an event is valid iff each field is as the patterns and limits say, written out; the patterns admit one final line feed |
| Schema.SupportedExactly | worker/src/schema.py:115-124 | an event is supported iff its version is 1, with leading zeros or without, a dot and digits |
| Json.ParsePrint | worker/src/schema.py:131-136 | reading a printed JSON value gives it back, strings escaped as in section 7 of RFC 8259 |
| Json.ParseWrite | worker/src/schema.py:135-136 | the same with any white space between and around the tokens (section 2 of RFC 8259) |
| Json.UnicodeEscape | worker/src/schema.py:135-136 | every character may be spelled with one or two four-digit escapes, in small or capital digits (section 7) |
| Json.RawControlRefused | worker/src/schema.py:135-136 | a control character inside a string is refused unless escaped |
| Json.LoneSurrogateRefused | worker/src/schema.py:135-136 | half a surrogate pair is refused |
| FanOut.ScheduleKeepsInvariant | worker/src/uploader.py:101-112 | along every schedule free permits plus running uploads equal the limit, and each step uses up one of the 2n there are |
| FanOut.ScheduleOutcome | worker/src/uploader.py:101-112 | a finished schedule has exactly one result per destination, in their order, fixed by how each upload ended |
| FanOut.ScheduleIndependence | worker/src/consumer.py:119-129 | results and joined last_error are the same for any two schedules and any two limits |
| FanOut.LastErrorOne | worker/src/consumer.py:120-129 | one result contributes its error if it failed with one, and nothing otherwise |
| FanOut.LastErrorConcat | worker/src/consumer.py:129 | the texts of two lists of results are joined by a comma, unless one is empty; with the text of one result this fixes last_error for every list |
| FanOut.ResultTexts | worker/src/uploader.py:62-95 | a result is ok iff a known uploader returned; the error texts of timeouts, exceptions and unknown providers |
| FanOut.StartsIff | worker/src/uploader.py:103-107 | a waiting upload may start iff fewer than the limit are running |
| FanOut.ProgressIff | worker/src/uploader.py:103-110 | an unfinished fan-out can always move if and only if the semaphore has a permit or there is nothing to upload |
| FanOut.UploadAll | worker/src/uploader.py:101-112 | the loop that lets any ready upload move next ends with those results |
| CsvSecurity.ScanIsExact | worker/src/csv_security.py:50-55 | on the RFC 4180 printing of any table the scan lists exactly the cells that start with =, +, -, @, a tab or a CR, each once, in row-major order |
| CsvSecurity.IncreasingIsUnique | worker/src/csv_security.py:50-55 | an increasing listing is determined by its members, so the scan's answer is unique |
| CsvSecurity.ScannedTextIsTheFile | worker/src/csv_security.py:42-48 | once the first three checks pass, the text has no U+0000 and encodes back to the file |
| CsvSecurity.CleanExactly | worker/src/csv_security.py:33-55 | the scan returns no issue iff the file is within the limit, holds no zero byte, is UTF-8, reads as CSV and has no cell that starts with one of those six characters |
| CsvSecurity.RefusedEncoding | worker/src/csv_security.py:45-48 | the encoding is refused iff no text has these bytes, for files within the limit and without a zero byte |
| CsvSecurity.ScanCsvFile | worker/src/csv_security.py:33-55 | the early exits and the nested loops return the specified issues, or the csv.Error |
| Csv.ReadPrinted | worker/src/csv_security.py:51 | reading a printed table gives it back for all cells (commas, quotes, CR, LF, empty rows and cells), both line ends and any optional quoting |
| Csv.BareQuotes | worker/src/csv_security.py:51 | in a cell that does not start with one, quotation marks are ordinary characters |
| Csv.AfterClosingQuote | worker/src/csv_security.py:51 | what follows a closing quotation mark belongs to the same cell |
| Csv.NeverClosed | worker/src/csv_security.py:51 | a quotation mark that is never closed takes in the rest of the file |
| Csv.BareReturn | worker/src/csv_security.py:51 | a CR followed by anything but a line end raises csv.Error, after exactly the rows before that line have been handed out |
| Utf8.DecodeEncode | worker/src/csv_security.py:45-48 | decoding undoes encoding for every text |
| Utf8.EncodeDecode | worker/src/csv_security.py:45-48 | the decoder accepts one spelling only: encoding what was decoded gives the bytes back |
| Utf8.ZeroByteIffNul | worker/src/csv_security.py:42-43 | a zero byte occurs in a text's encoding iff U+0000 occurs in the text |
| KeyEncoding.ParseMessage | worker/src/utils.py:37 | path, size and checksum are recovered from the joined text, whatever bars the path contains |
| KeyEncoding.KeyDeterminesTriple | worker/src/utils.py:30-39 | equal keys come from equal triples unless the HMAC collides on the two messages |
| KeyEncoding.KeyDeterminesFile | worker/src/watcher.py:51-60 | two files share a key iff they have the same path and the same bytes |
| KeyEncoding.Sha256File | worker/src/utils.py:13-19 | the chunked loop digests exactly the file's bytes |
| Backoff.DelayMonotone | worker/src/consumer.py:30-32 | for a base of at least 1 the delay never shrinks with the attempt |
| Backoff.DelayExact | worker/src/consumer.py:30-32 | for any base the delay is base^attempt seconds in milliseconds, rounded down |
| Backoff.TotalDelayGeometric | worker/src/consumer.py:30-32 | for an integer base b the delays of attempts 1..n satisfy (b - 1) * total = 1000 * (b^(n+1) - b) |
| Backoff.RunbookExample | docs/runbook.md:119-123 | base 2 and three attempts wait 14 s in all |
| IdempotencyStore.FirstWriterWins | worker/src/idempotency.py:44-49 | after any sequence of marks a key is done iff it was or was marked, and keeps its first correlation id |
| IdempotencyStore.Store.IsDone | worker/src/idempotency.py:36-42 | answers whether the key has a row |
| IdempotencyStore.Store.MarkDone | worker/src/idempotency.py:44-49 | inserts the row unless there is one |
| Detection.BuiltEventIsValid | worker/src/watcher.py:49-89 | every event built from well-formed identifiers passes all validators and has a supported version |
| Detection.RelativeKeyInjective | worker/src/watcher.py:53 | two paths below the watched directory never share an object key |
| Detection.RelativeKeyExact | worker/src/watcher.py:53 | the object key is what follows the watched directory and one slash, both ways |
| Detection.EventSays | worker/src/watcher.py:49-89 | every field of the event of a file, written out: name, size, checksum, key, and exactly the two destinations with their buckets, regions and object key |
| Detection.ContentTypeExact | worker/src/watcher.py:38-46 | the content type goes by the extension in any mixture of capital and small letters |
| Detection.NoExtension | worker/src/watcher.py:44-46 | names without a dot, or with leading dots only, are octet streams |
| Protocol.HoldsWrittenOut | worker/src/watcher.py:70-82 | "every destination holds the file" means the object of that key in both buckets |
| Surroundings.World.WriteFile | worker/src/watcher.py:92-106 | the file is there with its bytes, a machine step |
| Surroundings.World.ExpireHead | worker/src/publisher.py:46-54 | the due head of the retry queue goes to the end of the main queue |
| Surroundings.World.LoseConnection | worker/src/consumer.py:58-63 | whatever is unacked goes back to the front of the main queue |
| Surroundings.World.RestartProcess | worker/src/publisher.py:126-130 | the same, and the connection is there again |
| Surroundings.World.PublishMain | worker/src/publisher.py:70-72 | a publish that raises may have queued the message; the new queue and the machine step |
| Surroundings.World.PublishRetry | worker/src/publisher.py:78-86 | the same for the retry queue, with the deadline of the entry |
| Surroundings.World.PublishDlq | worker/src/publisher.py:93-95 | the same for the DLQ |
| Surroundings.World.Next | worker/src/consumer.py:51-53 | the head of the main queue becomes unacked and reaches the handler |
| Surroundings.World.BasicAck | worker/src/consumer.py:124 | exactly the message in hand leaves the unacked ones, if the connection lasts |
| Surroundings.World.FinishUpload | worker/src/uploader.py:71-98 | the object is written at its place iff a known uploader returned or wrote before it failed, and the result reports ok only for one that returned |
| Consumer.Consumer.Handle | worker/src/consumer.py:66-161 | one handling is a run of the machine from the delivered message to an idle handler, follows the given outcomes, raises only where a publish raised or nothing else was left, and acks the message iff it did not raise |
| Consumer.Consumer.Dispatch | worker/src/consumer.py:66-98 | the same for the part up to the duplicate check |
| Consumer.Consumer.Transfer | worker/src/consumer.py:100-120 | the same for the part that reads the file: missing file, scan and uploads |
| Consumer.Consumer.Route | worker/src/consumer.py:120-161 | the same for success, retry or exhaustion after the uploads |
| Consumer.Consumer.DeadLetter | worker/src/consumer.py:141-145 | publish to the DLQ first, then ack and both counters, or neither if the publish raises |
| Consumer.Consumer.UploadAll | worker/src/uploader.py:101-112 | the results returned are those of the machine's finished fan-out |
| Consumer.Consumer.Succeed | worker/src/consumer.py:122-127 | the key is in the store before the ack |
| Consumer.Consumer.Run | worker/src/consumer.py:49-64 | the run is one delivery and handling for each turn, in queue order and each under its own outcomes, until none is left or at least one message and as many as upload_max_concurrency are unacked; whatever raises on the way, the state stays valid and no publication is lost |
| Consumer.HandledKeepsMain | worker/src/consumer.py:66-161 | one handling takes no further message off the main queue and puts none on it |
| Watching.FileWatcher.OnClosed | worker/src/watcher.py:98-101 | a closed file is queued, a directory is not |
| Watching.FileWatcher.OnMoved | worker/src/watcher.py:103-106 | the destination path of a move is queued |
| Watching.FileWatcher.PublishWithReconnect | worker/src/watcher.py:119-139 | exactly the copies that the two outcomes imply are put on the queue, and the event is counted once, iff a publish was confirmed |
| Watching.FileWatcher.HandlePath | worker/src/watcher.py:183-192 | the events, copies and counts of one path: none for a path that is no file or whose event cannot be built, otherwise those of its present bytes |
| Watching.FileWatcher.Run | worker/src/watcher.py:175-199 | over any number of turns: the events built, the copies put on the main queue and the events counted are those of the detected paths in order, up to an exception that leaves the loop |
| Watching.AccountBounds | worker/src/watcher.py:119-139 | over any number of turns the copies lie between the events counted and twice the events built |
| EndToEnd.FairHandling | worker/src/consumer.py:66-127 | a handling of a new event for a clean file in which every upload succeeds marks the key with every destination holding the file, and never raises |
| EndToEnd.OutageHandling | worker/src/consumer.py:129-161 | one in which every upload times out leaves a copy for another round on the retry queue, for the backoff of its attempt, and store and destinations alone; for the watcher's destinations its last error is aws-s3:upload_timeout,gcp-gcs:upload_timeout |
| EndToEnd.TransferFile | worker/src/watcher.py:175-192 | from the constructors: a clean file written, one turn each of watcher and consumer without a fault, and the key is in the store, both buckets hold the file under its path below the watched directory, and the queues are empty |
| EndToEnd.TransferAfterOutage | worker/src/consumer.py:147-161 | the same through a round of timeouts, a lost connection, a restart and the retry's expiry |
| Backlog.BacklogWorkedOff | worker/src/consumer.py:49-64 | with no upload failing, each turn of the loop works one queued job off in order until none is left: the first job of each undone key is delivered, marked with its correlation id, and its file is at all its destinations in the end; the others are skipped; held, retry and dead letters stay |
| Backlog.SkipHandling | worker/src/consumer.py:93-98 | a handling of a duplicate changes nothing but the counters |
| Backlog.ReadyAfterAnnouncement | worker/src/consumer.py:49-64 | its hypotheses are met once the watcher has published a clean file |
| Backlog.OwnEventsDoNotClash | worker/src/watcher.py:62-80 | events of the watcher for different files never share a destination, as that theorem asks |
| Backlog.WorkOff | worker/src/consumer.py:49-64 | the same of the consumer as an object: as many turns as messages leave the queue empty and all their keys in the store |
| Ingestion.LastRowWins | infra/terraform/functions/aws_order_csv_to_dynamodb/handler.py:36-47 | a loaded table holds for each key the last line for it, and is unchanged elsewhere |
| Ingestion.RowExact | infra/terraform/functions/aws_order_csv_to_dynamodb/handler.py:36-47 | what a row becomes by its columns, the last of a name counting; it raises iff a column is missing, the row is too short or the quantity is no number |
| Ingestion.StoredItem | infra/terraform/functions/aws_order_csv_to_dynamodb/handler.py:32-47 | after a printed file, the item under (order_id, sku) has the quantity, channel and object key of the last such row; it raises iff some row does, with the rows before stored |
| Ingestion.OtherItems | infra/terraform/functions/aws_order_csv_to_dynamodb/handler.py:32-47 | items that no row read names stay as they were |
| Ingestion.StoredDocument | infra/terraform/functions/gcp_order_csv_to_firestore/main.py:35-50 | the same for the document at orders/order_id/lineItems/sku |
| Ingestion.ReplayIsHarmless | infra/terraform/functions/aws_order_csv_to_dynamodb/handler.py:32-47 | after any number of ingestions cut short anywhere, a whole one gives the table one undisturbed ingestion gives, times apart |
| Ingestion.StoresAgree | infra/terraform/functions/gcp_order_csv_to_firestore/main.py:35-50 | the nested documents, laid out flat, are the DynamoDB table of the same lines |
| Ingestion.DocumentReplayIsHarmless | infra/terraform/functions/gcp_order_csv_to_firestore/main.py:35-50 | replay is harmless in Firestore too |
| Ingestion.OrderTable.IngestObject | infra/terraform/functions/aws_order_csv_to_dynamodb/handler.py:32-47 | stores the lines up to the first row that raises |
| Ingestion.OrderTable.HandleS3Event | infra/terraform/functions/aws_order_csv_to_dynamodb/handler.py:25-29 | the records in turn amount to loading all their lines up to the first exception, times apart |
| Ingestion.OrderCollection.HandleEvent | infra/terraform/functions/gcp_order_csv_to_firestore/main.py:24-50 | objects outside orders/ or without .csv are ignored, others stored as documents |

## Left out

- Consumer.Consumer.Handle: a call runs without interleaving; crashes, lost connections and changes of files between its effects are runs of the machine, not of the class.
- Consumer.Consumer.Dispatch: the same as for Handle.
- Consumer.Consumer.Transfer: the same as for Handle; that the file vanishes between the check, the scan and the uploads is a run of the machine.
- Consumer.Consumer.Route: the same as for Handle.
- Consumer.Consumer.Run: the environment acts between two calls, not between two turns of one call; other interleavings are runs of the machine.
- Consumer.Consumer.UploadAll: takes the destinations in turn; that the schedule does not matter is FanOut.ScheduleIndependence.
- Watching.FileWatcher.Run: the observer reports between two turns of the loop and files change between two calls; other interleavings are runs of the machine.
- Surroundings.World.FinishUpload: a write that lands after its upload's report is put at the report (see Hypotheses).
- Counters.CountersConserved: counters are cumulative over restarts, whereas the process starts them at 0; uploads_total, csv_security_rejections_total and the duration histogram are not modelled.
- Rewrites.RewriteConvergesIff: says nothing of files that are never published (Rewrites.LostAnnouncement), nor of bytes that raise csv.Error while a message names their path, as the system is then never quiet.
- Convergence.EachPublicationEnds: the DLQ holds every letter ever put there; that the runbook takes a letter out before it is published again is not modelled.
- WorkBound.HandlerStartsBounded: counts every publication onto the main queue, foreign ones and second copies included, not the confirmed ones alone.
- Detection.BuiltEventIsValid: UUID and timestamp grammars are parameters; digits in versions are ASCII only.
- Wire.FromBytesExactly: JSON numbers are plain integers; fractions and exponents, and numbers given in another JSON type, which pydantic's lax mode may turn into integers, are read as errors.
- Backoff.DelayMonotone: reals without float rounding or overflow.
- Ingestion.OrderTable.IngestObject: int() is a parameter; a row too short for its order id or sku counts as an exception; rows are stored one at a time (no buffering, no rejection of duplicate keys within one batch).
- Ingestion.OrderCollection.HandleEvent: a row too short for its order id or sku counts as an exception, whereas Firestore makes up a document id.
- Ingestion.StoresAgree: every string is a document id; empty ones and ones with a slash, which Firestore refuses or reads as paths, are not set apart.
- KeyEncoding.Sha256File: SHA-256 and HMAC are opaque functions.
- File reads are atomic: size and checksum come from one reading, an upload reads the file when it starts.
- Prefetched messages whose handler has not started count as still on the main queue; the prefetch limit binds through messages left unacked.
- Paths outside the watched directory, `os.path.relpath` on unnormalised paths, and symbolic links.
- The CSV reader's field size limit.
- Servicing an idle connection, reconnect internals, topology declaration, message properties and headers.
- Health server, readiness, logging, environment parsing, scripts, Docker and Terraform resources.
- More than one worker replica; the store is local to one process by design (ADR.md:71-75).
