# Batched log shipping to S3: a Dafny model

This project models the core of a logback extension that turns log events into
`RawLog` records. Three components deliver them:

- `AvroS3Appender` batches records and uploads each batch to S3 as one object.
- `JsonEncoder` lays a record out as one line of JSON text.
- `JsonAppender` prints that line on standard output or standard error.

The heart of the model is the S3 appender's batcher thread, with its threads
taken away. It becomes a deterministic state machine: each step takes one poll
result from the hand-off queue and one clock reading. The poll result is a
record, a timeout, the `TERMINATE` sentinel or an interruption. The state is
the current batch, the `nextFlush` deadline and the log of batches handed to
the upload pool.

Modules and files:

- `BatchPolicy` (`batch_policy.dfy`): the state machine as functions. Its
  lemmas state the flush decision, that no empty batch is ever submitted,
  record accounting, the size bound, the deadline reset and the tail flush on
  exit.
- `Batching` (`batcher.dfy`): the same loop in imperative form. A `Batcher`
  class holds the batch, the deadline and the submitted batches as fields.
  Its methods are proved against `BatchPolicy`.
- `BatchUpload` (`batch_upload.dfy`): `BatchUploader.run` up to the
  `putObject` call. It covers the payload, the content type, content length
  and encoding, the duration header and the key.
- `Utf8` (`utf8.dfy`): `getBytes(UTF_8)`, and the gzip magic-number check
  made by `GZIPInputStream`.
- `S3Appender` (`s3_appender.dfy`): the configuration, the checks in `start`
  and `append`.
- `RawLogs` (`raw_logs.dfy`): the record builder shared by all three
  components, including the MDC copy.
- `Stringify` (`stringify.dfy`): how each component's `stringify` turns an
  argument array into texts.
- `JsonEncoding` (`json_encoder.dfy`): the `JsonEncoder` class and `_doLayout`.
- `JsonConsole` (`json_appender.dfy`): the `JsonAppender` class, `setTarget`
  and `append`.
- `Common` (`common.dfy`): nullable values, the modelled exceptions, and
  results that either return or throw.

Foreign code is passed in as plain function-typed parameters, and the model
assumes nothing about it. This covers:

- Jackson's `writeValueAsString`, which may throw;
- the logback `PatternLayout` and `LineOfCallerConverter`;
- Joda date and duration printing;
- `LogLevel.valueOf` and `Integer.valueOf`;
- `RawLog.toString`.

The clock is a parameter of every step. Java's `ArrayList` batch and the
`StringBuilder` payload become sequences that the methods reassign.

Two behaviours of the code shape the model:

- With `gzip` on, the code wraps the payload in a `GZIPInputStream`, a
  decompressing reader, where compression was meant; its own comment says
  `TODO wrong usage`. The model keeps the code's behaviour and proves that the
  wrapper's constructor always throws on a UTF-8 payload, after reading the
  payload's first two bytes from the stream that is then uploaded. So, as
  written, every object is uploaded uncompressed and with no content
  encoding; when `gzip` is on it also has no content length and has lost its
  first two bytes (see Findings).
- The batcher loop ends on the `TERMINATE` sentinel or on an interruption of
  its poll. The model treats both the same way: the tail batch is flushed and
  the loop stops.

## Model

| member | source | states |
|---|---|---|
| `BatchPolicy.InitInv` | appender/src/main/java/com/blacklocus/logback/s3/AvroS3Appender.java:125-126 | the first deadline is start + flushInterval, the batcher starts with an empty batch and nothing submitted, and the batcher invariant holds |
| `BatchPolicy.StepDecision` | appender/src/main/java/com/blacklocus/logback/s3/AvroS3Appender.java:130-148 | a record is appended and the batch is flushed exactly when size >= flushSize, or when now > nextFlush (strict) and the batch is non-empty; a timeout on an empty batch only sets nextFlush := now + flushInterval; a flush submits the whole batch, empties it and resets the deadline to now + flushInterval; the sentinel and an interruption end the loop |
| `BatchPolicy.NoEmptyFlush` | appender/src/main/java/com/blacklocus/logback/s3/AvroS3Appender.java:132-142 | any batch that one step submits is non-empty |
| `BatchPolicy.ExitFlushesTail` | appender/src/main/java/com/blacklocus/logback/s3/AvroS3Appender.java:150-157 | on the sentinel or an interruption, a non-empty tail batch is submitted exactly once and an empty one is not; later inputs change nothing, so nothing more is appended |
| `BatchPolicy.RunStopped` | appender/src/main/java/com/blacklocus/logback/s3/AvroS3Appender.java:130 | once the loop has exited, no input changes the state |
| `BatchPolicy.StepInv` | appender/src/main/java/com/blacklocus/logback/s3/AvroS3Appender.java:132-157 | one iteration keeps the invariant: every submitted batch has 1 to max(flushSize, 1) records, the current batch stays below that bound, and it is empty after exit |
| `BatchPolicy.RunInv` | appender/src/main/java/com/blacklocus/logback/s3/AvroS3Appender.java:128-157 | the invariant holds after any sequence of inputs |
| `BatchPolicy.SizeBound` | appender/src/main/java/com/blacklocus/logback/s3/AvroS3Appender.java:132-148 | with flushSize >= 1, every batch ever submitted, the tail included, holds between 1 and flushSize records |
| `BatchPolicy.StepAccounts` | appender/src/main/java/com/blacklocus/logback/s3/AvroS3Appender.java:133-156 | one iteration neither loses nor duplicates a record: submitted batches concatenated plus the current batch grow by exactly the polled record |
| `BatchPolicy.RunAccounts` | appender/src/main/java/com/blacklocus/logback/s3/AvroS3Appender.java:128-157 | the submitted batches concatenated in submission order, followed by the current batch, equal the earlier contents followed by every record received before the sentinel, in receipt order |
| `BatchPolicy.StoppedRunDelivers` | appender/src/main/java/com/blacklocus/logback/s3/AvroS3Appender.java:124-157 | from a fresh start, after the loop has exited, the submitted batches concatenated are exactly the received records |
| `BatchPolicy.IdleNeverFlushes` | appender/src/main/java/com/blacklocus/logback/s3/AvroS3Appender.java:134-137 | an empty batch is never flushed on a timer, however many timeouts pass |
| `BatchPolicy.IdleBatchFlushedOnce` | appender/src/main/java/com/blacklocus/logback/s3/AvroS3Appender.java:134-147 | a non-empty batch past its deadline is flushed by the next timeout, and later timeouts submit nothing more |
| `BatchPolicy.FiveRecordsFlushSizeThree` | appender/src/main/java/com/blacklocus/logback/s3/AvroS3Appender.java:130-157 | with flushSize 3 and no deadline passing, records A to E followed by the sentinel yield exactly the batches [A, B, C] and [D, E], in that order |
| `BatchPolicy.FullBatchesWithoutTimer` | appender/src/main/java/com/blacklocus/logback/s3/AvroS3Appender.java:132-148 | while only records arrive, none later than the first deadline start + flushInterval, the loop keeps running and every batch it submits holds exactly flushSize records; earlier batches are kept |
| `BatchPolicy.RecordsOnlyRun` | appender/src/main/java/com/blacklocus/logback/s3/AvroS3Appender.java:130-148 | from a fresh start, N records arriving no later than the first deadline leave m full batches submitted and a current batch of N - m * flushSize records, fewer than flushSize |
| `BatchPolicy.BatchCount` | appender/src/main/java/com/blacklocus/logback/s3/AvroS3Appender.java:130-157 | from a fresh start, N records arriving no later than the first deadline, then the sentinel or an interruption, yield exactly ceil(N / flushSize) batches: all but the last hold flushSize records and the last holds the remainder |
| `Batching.Batcher.constructor` | appender/src/main/java/com/blacklocus/logback/s3/AvroS3Appender.java:124-126 | the batcher starts with an empty batch, deadline start + flushInterval and nothing submitted; the capacity flushSize must not be negative |
| `Batching.Batcher.Flush` | appender/src/main/java/com/blacklocus/logback/s3/AvroS3Appender.java:143-147 | the current batch is appended to the submitted batches, a fresh empty batch starts and the deadline becomes now + flushInterval |
| `Batching.Batcher.FlushIfDue` | appender/src/main/java/com/blacklocus/logback/s3/AvroS3Appender.java:140-148 | the fields change exactly as the flush decision prescribes |
| `Batching.Batcher.ExitLoop` | appender/src/main/java/com/blacklocus/logback/s3/AvroS3Appender.java:154-157 | a non-empty tail batch is submitted, an empty one is not, and the batcher is stopped |
| `Batching.Batcher.Step` | appender/src/main/java/com/blacklocus/logback/s3/AvroS3Appender.java:130-157 | the fields after one iteration are the state machine's next state, and the batcher invariant is kept |
| `Batching.Batcher.Loop` | appender/src/main/java/com/blacklocus/logback/s3/AvroS3Appender.java:128-157 | the loop leaves on the sentinel or an interruption; the fields end as the state machine's run over the inputs, the invariant is kept, and the submitted batches plus the current batch gain exactly the received records, in order |
| `BatchUpload.PayloadAppend` | appender/src/main/java/com/blacklocus/logback/s3/AvroS3Appender.java:314-317 | the payload of two consecutive runs of records is the two payloads one after the other |
| `BatchUpload.PayloadOne` | appender/src/main/java/com/blacklocus/logback/s3/AvroS3Appender.java:315-316 | the payload of one record is that record's text |
| `BatchUpload.Upload` | appender/src/main/java/com/blacklocus/logback/s3/AvroS3Appender.java:312-341 | for a non-empty batch, the put request has: a payload of the UTF-8 bytes of the record texts in batch order; the JSON content type; a content length (the byte count) exactly when gzip is off; content encoding "gzip" and a decompressing stream exactly when gzip is on and the header check passes; as body, with gzip off the whole payload, and with gzip on and the check failed the payload past the two header bytes the check read (past its only byte, for a one-byte payload); a duration header of the last timestamp minus the first; as key, the key pattern's layout applied to the first record alone |
| `BatchUpload.GzipNeverApplies` | appender/src/main/java/com/blacklocus/logback/s3/AvroS3Appender.java:323-330 | as written, wrapping the payload in a GZIPInputStream always fails its header check, so no upload is gzip-encoded |
| `BatchUpload.GzipUploadLosesHeaderBytes` | appender/src/main/java/com/blacklocus/logback/s3/AvroS3Appender.java:320-341 | as written, with gzip on the stream handed to putObject holds the payload minus its first min(2, length) bytes, a suffix of it, so a reader never gets a non-empty payload back intact |
| `BatchUpload.GzipStageCorrected` | appender/src/main/java/com/blacklocus/logback/s3/AvroS3Appender.java:323-330 | compressing the payload and marking it gzip-encoded lets a reader that undoes the content encoding get the whole payload back |
| `Utf8.EncodeAppend` | appender/src/main/java/com/blacklocus/logback/s3/AvroS3Appender.java:318 | the UTF-8 bytes of a concatenation are the bytes of the parts one after the other |
| `Utf8.EncodeLength` | appender/src/main/java/com/blacklocus/logback/s3/AvroS3Appender.java:318 | the byte length is at least the character count, and equals it exactly when the text is all ASCII |
| `Utf8.LeadByte` | appender/src/main/java/com/blacklocus/logback/s3/AvroS3Appender.java:318 | no character's encoding starts with a continuation byte |
| `Utf8.NoTextHasGzipMagic` | appender/src/main/java/com/blacklocus/logback/s3/AvroS3Appender.java:326 | no UTF-8 encoded text starts with the gzip magic number 0x1f 0x8b |
| `S3Appender.Validate` | appender/src/main/java/com/blacklocus/logback/s3/AvroS3Appender.java:102-106 | start passes its checks exactly when the bucket and key pattern are non-null, flushInterval is at least 5 seconds and uploadThreads >= 1; otherwise the first failing check throws IllegalArgumentException with its message |
| `S3Appender.NegativeFlushSizePassesValidation` | appender/src/main/java/com/blacklocus/logback/s3/AvroS3Appender.java:102-126 | a configuration with flushSize -1 passes every check of start, although the batcher thread cannot create its batch list |
| `S3Appender.ValidateCorrected` | appender/src/main/java/com/blacklocus/logback/s3/AvroS3Appender.java:102-106 | the checks with a flushSize >= 1 check added: passing them implies that the batch list can be created, and the first four checks keep their messages |
| `S3Appender.Start` | appender/src/main/java/com/blacklocus/logback/s3/AvroS3Appender.java:101-126 | start succeeds exactly when the corrected checks pass; on success the key layout gets the key pattern, the render layout exists exactly when a render pattern is set, and the batcher begins empty with deadline now + flushInterval |
| `S3Appender.StartedBatchesBounded` | appender/src/main/java/com/blacklocus/logback/s3/AvroS3Appender.java:124-157 | after a successful start, every batch the batcher submits holds 1 to flushSize records, which is what the uploader requires |
| `S3Appender.Append` | appender/src/main/java/com/blacklocus/logback/s3/AvroS3Appender.java:220-262 | a logging event whose record builds is handed to the batcher with that record; other objects and failed builds hand over nothing and throw nothing |
| `Stringify.StringifyArgs` | encoder/src/main/java/com/blacklocus/logback/s3/JsonEncoder.java:127-143 | a null array gives the empty list; otherwise length and order are kept, and element k depends only on argument k. Under the JSON rule (this method, and JsonAppender.java:114-130) null stays null, a String passes through unchanged and anything else is the mapper's text. Under the S3 appender's rule (AvroS3Appender.java:270-281) every argument is the mapper's text. The result is an exception exactly when the mapper throws on some mapped argument |
| `RawLogs.RawLogFields` | encoder/src/main/java/com/blacklocus/logback/s3/JsonEncoder.java:88-116 | a built record has the event's name, level, message, formatted time and stringified arguments, and its context is exactly the MDC; the rendered text is set exactly when a render layout exists; the line number is set exactly when lineNumbers is on and the caller line is not CallerData.NA; building throws exactly on an unknown level, a mapper failure or an unparsable line |
| `RawLogs.CopyContext` | encoder/src/main/java/com/blacklocus/logback/s3/JsonEncoder.java:97-102 | the context copy holds exactly the MDC's key/value pairs |
| `RawLogs.Build` | encoder/src/main/java/com/blacklocus/logback/s3/JsonEncoder.java:89-116 | the builder chain yields the record, or the exception, that the record specification describes |
| `JsonEncoding.JsonEncoder.constructor` | encoder/src/main/java/com/blacklocus/logback/s3/JsonEncoder.java:39-48 | a new encoder has no pattern, line numbers and debug off, and no render layout |
| `JsonEncoding.JsonEncoder.SetPattern` | encoder/src/main/java/com/blacklocus/logback/s3/JsonEncoder.java:50-52 | sets the pattern and nothing else |
| `JsonEncoding.JsonEncoder.SetLineNumbers` | encoder/src/main/java/com/blacklocus/logback/s3/JsonEncoder.java:54-56 | sets the line-number switch and nothing else |
| `JsonEncoding.JsonEncoder.SetDebug` | encoder/src/main/java/com/blacklocus/logback/s3/JsonEncoder.java:58-60 | sets the debug switch and nothing else |
| `JsonEncoding.JsonEncoder.Start` | encoder/src/main/java/com/blacklocus/logback/s3/JsonEncoder.java:63-83 | a render layout is started from the pattern when one is configured; otherwise the render layout is unchanged |
| `JsonEncoding.JsonEncoder.DoLayout` | encoder/src/main/java/com/blacklocus/logback/s3/JsonEncoder.java:85-125 | null for a non-event and for any exception while building; otherwise the record's text followed by exactly one line separator, the encoder's `NEW_LINE` (the `line.separator` property, or "\n" when it is unset, as fixed at line 39); never throws |
| `JsonConsole.EqualsIgnoreCaseIsUpperCaseEquality` | appender/src/main/java/com/blacklocus/logback/s3/JsonAppender.java:50-53 | with ASCII case mapping, equalsIgnoreCase (at each position the characters are equal, or equal upper-cased, or equal once upper-cased and then lower-cased) holds exactly when the upper-cased strings are equal |
| `JsonConsole.TargetNames` | appender/src/main/java/com/blacklocus/logback/s3/JsonAppender.java:50-56 | standard output is selected by exactly the case variants of "System.out", standard error by exactly those of "System.err", and any other name is refused |
| `JsonConsole.JsonAppender.constructor` | appender/src/main/java/com/blacklocus/logback/s3/JsonAppender.java:32-35 | the default target is standard output; nothing has been printed |
| `JsonConsole.JsonAppender.SetPattern` | appender/src/main/java/com/blacklocus/logback/s3/JsonAppender.java:37-39 | sets the pattern and nothing else |
| `JsonConsole.JsonAppender.SetLineNumbers` | appender/src/main/java/com/blacklocus/logback/s3/JsonAppender.java:41-43 | sets the line-number switch and nothing else |
| `JsonConsole.JsonAppender.SetDebug` | appender/src/main/java/com/blacklocus/logback/s3/JsonAppender.java:45-47 | sets the debug switch and nothing else |
| `JsonConsole.JsonAppender.SetTarget` | appender/src/main/java/com/blacklocus/logback/s3/JsonAppender.java:49-57 | a case variant of "System.out" or "System.err" selects that stream; any other name throws IllegalArgumentException carrying the name, and the target keeps its previous value |
| `JsonConsole.JsonAppender.Start` | appender/src/main/java/com/blacklocus/logback/s3/JsonAppender.java:60-70 | a render layout is started from the pattern when one is configured; otherwise the render layout is unchanged |
| `JsonConsole.JsonAppender.Append` | appender/src/main/java/com/blacklocus/logback/s3/JsonAppender.java:73-112 | a logging event whose record builds prints exactly one line, the record's text, on the current target; non-events and failed builds print nothing; no exception reaches the caller |

## Left out

- Threads and queues are not modelled. This covers the batcher thread, the fair `SynchronousQueue` hand-off, the upload `ThreadPoolExecutor` with its blocking rejection handler, and `shutdown` and `awaitTermination`. The model makes each poll result an input of a sequential step and each hand-off to the pool an entry in `submitted`. So it says nothing about backpressure, blocking, the one-minute drain timeout, or the order in which concurrent workers finish.
- `stop` is represented only by the `Terminate` input it causes. Its blocking `put` of the sentinel, and an interruption during that `put`, are not modelled.
- The S3 client is not modelled: `new AmazonS3Client()` and the `putObject` network call. The model ends at the request `Upload` builds. Failures of the store and of the upload thread are caught and only logged, so they change nothing in the model.
- The GZIP streams themselves are not modelled. Of `GZIPInputStream` the model keeps only the constructor's read of the two-byte magic number, which consumes those bytes from the wrapped stream before the check fails. The method byte and flags that it reads after a matching magic number are not modelled; the magic number never matches a UTF-8 payload. The compression in `BatchUpload.GzipStageCorrected` is a body constructor, not an algorithm.
- Debug printing to `System.err` and `printStackTrace` are not modelled; they are output only.
- Jackson, `PatternLayout`, `LineOfCallerConverter`, Joda formatting, `LogLevel.valueOf`, `Integer.valueOf` and `RawLog.toString` are parameters, not definitions. The Avro builder's own checks of required fields in `build()` are not modelled, nor are exceptions thrown by the layouts.
- `AvroS3Appender`'s setters are plain field assignments and are represented by the `Config` value. `setFlushInterval` parses an ISO 8601 duration with Joda, which is not modelled; the interval is a number of milliseconds. The JSON components' setters are modelled.
- Batching.Batcher.Step: the source reads the clock twice in one iteration: `DateTime.now()` for the deadline and `System.currentTimeMillis()` for the comparison. The model uses one reading per step.
- BatchPolicy.Step: the `long` arithmetic `now + flushInterval` is unbounded here; 64-bit overflow is not modelled.
- BatchPolicy.RunAccounts, BatchPolicy.StoppedRunDelivers, BatchPolicy.ExitFlushesTail: these assume that handing a batch to the pool always returns. When the pool is saturated, the rejection handler blocks on `put`; if the batcher thread is interrupted there, the handler rethrows it as RejectedExecutionException (AvroS3Appender.java:185-190). The catch at line 150 takes only InterruptedException, so the thread dies: the batch being handed over and every later record are lost, the tail is not flushed and the pool is not shut down.
- JsonConsole.EqualsIgnoreCaseIsUpperCaseEquality, JsonConsole.TargetNames: case mapping is ASCII only. Beyond ASCII, Java's `equalsIgnoreCase` is not the same as comparing upper-cased strings: "İ" (U+0130) and "i" are equal under it, since the lower case of "İ" upper-cased is "i", although their upper cases differ. The equivalence is proved for the ASCII mapping only.
- JsonConsole.JsonAppender.SetTarget: case is folded over the ASCII letters only. Java's `equalsIgnoreCase` also equates some non-ASCII characters with ASCII letters, for example U+017F (long s) with `s`, so the source also accepts a name like "ſystem.out". A null name, for which the source throws NullPointerException, is not modelled.
- Utf8.Encode: the text is a sequence of Unicode scalar values. Java strings are UTF-16, and `getBytes(UTF_8)` replaces an unpaired surrogate with '?'; such strings are not modelled.
- `JsonEncoder`'s wrapping of `_doLayout` in a `LayoutBase` is not modelled, nor is `JsonAppender.EventPair`, which nothing uses.
- BatchUpload.Upload keeps the gzip stage as written (see Findings): `BatchUpload.GzipStageCorrected` states the intended stage, but `Upload` does not use it, so that `Upload` describes the requests the code actually sends.
- `S3Appender.Start` models `start` with the corrected validation (see Findings), on a fresh appender whose render layout has never been started.
- Both `LogTest.java` drivers are left out: they are `main` programs with no assertions.

## Findings

| source | as written | input that shows it | evidently intended | confidence | as-written member | corrected member |
|---|---|---|---|---|---|---|
| appender/src/main/java/com/blacklocus/logback/s3/AvroS3Appender.java:102-126 | `start` checks the bucket, key pattern, interval and thread count, but not `flushSize`; the batcher thread begins with `new ArrayList<>(flushSize)` | a bucket set and `flushSize = -1`: every check passes, the batcher thread throws IllegalArgumentException before its loop, and later appends block forever on the hand-off queue | `start` rejects a non-positive `flushSize`, as it rejects a non-positive `uploadThreads` | not executed; high that the thread dies, medium on the intended bound | `S3Appender.NegativeFlushSizePassesValidation` | `S3Appender.ValidateCorrected` |
| appender/src/main/java/com/blacklocus/logback/s3/AvroS3Appender.java:320-341 | with `gzip` on, `new GZIPInputStream(contentStream)` reads the first two payload bytes and throws; the exception is swallowed and `contentStream`, now past those bytes, is uploaded with no content encoding and no content length | `gzip = true` and one record whose text is `{"a":1}`: the stored object is `a":1}` | the payload is compressed (a GZIPOutputStream) and stored gzip-encoded, so that it reads back whole | not executed; high | `BatchUpload.GzipUploadLosesHeaderBytes` | `BatchUpload.GzipStageCorrected` |
