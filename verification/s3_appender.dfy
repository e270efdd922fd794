/** AvroS3Appender outside its batcher loop: the configuration and its
    validation in `start`, and `append`, which builds a record and hands it
    to the batcher. */
module S3Appender {
  import opened Common
  import opened Stringify
  import opened RawLogs
  import opened BatchPolicy
  import opened BatchUpload

  /** The configurable fields; a null String is None. */
  datatype Config = Config(
    bucket: Option<string>,
    keyPattern: Option<string>,
    renderPattern: Option<string>,
    flushSize: int,
    flushIntervalMillis: int,
    lineNumbers: bool,
    gzip: bool,
    uploadThreads: int,
    debug: bool)

  /** The field initialisers: key pattern "logs/", 10000 records, five
      minutes, one upload thread, everything else off or null. */
  const Defaults: Config := Config(None, Some("logs/"), None, 10000, 5 * 60 * 1000, false, false, 1, false)

  const MinFlushIntervalMillis: int := 5 * 1000

  /** `check`: throws IllegalArgumentException with the message unless the
      check passed. */
  function Check(passed: bool, message: string): (o: Outcome)
  {
    if passed then Pass else Fail(IllegalArgument(message))
  }

  /** The four checks at the top of `start`, in order: the first that fails
      throws IllegalArgumentException with its message. */
  function Validate(c: Config): (o: Outcome)
    ensures o == Pass <==>
      c.bucket.Some? && c.keyPattern.Some? && c.flushIntervalMillis >= MinFlushIntervalMillis && c.uploadThreads >= 1
    ensures o.Fail? ==> o.cause.IllegalArgument?
    ensures c.bucket.None? ==> o == Fail(IllegalArgument("<bucket> is required"))
    ensures c.bucket.Some? && c.keyPattern.None? ==> o == Fail(IllegalArgument("<prefix> may not be null"))
    ensures c.bucket.Some? && c.keyPattern.Some? && c.flushIntervalMillis < MinFlushIntervalMillis ==>
      o == Fail(IllegalArgument("<flushInterval> must be at least 5 seconds"))
    ensures c.bucket.Some? && c.keyPattern.Some? && c.flushIntervalMillis >= MinFlushIntervalMillis && c.uploadThreads < 1 ==>
      o == Fail(IllegalArgument("<uploadThreads> must be positive"))
  {
    var bucketSet := Check(c.bucket.Some?, "<bucket> is required");
    var prefixSet := Check(c.keyPattern.Some?, "<prefix> may not be null");
    var intervalLongEnough := Check(c.flushIntervalMillis >= MinFlushIntervalMillis, "<flushInterval> must be at least 5 seconds");
    var threadsPositive := Check(c.uploadThreads >= 1, "<uploadThreads> must be positive");
    if bucketSet.Fail? then bucketSet
    else if prefixSet.Fail? then prefixSet
    else if intervalLongEnough.Fail? then intervalLongEnough
    else threadsPositive
  }

  /** The batcher thread's first act is `new ArrayList<>(flushSize)`, which
      throws for a negative capacity and ends the thread. */
  predicate BatchListCreatable(flushSize: int)
  {
    flushSize >= 0
  }

  /** As written, `start` accepts a negative flushSize: the configuration
      below passes every check, yet the batcher thread dies before its loop. */
  lemma NegativeFlushSizePassesValidation()
    ensures var c := Defaults.(bucket := Some("logs-bucket"), flushSize := -1);
      Validate(c) == Pass && !BatchListCreatable(c.flushSize)
  {
  }

  /** The validation with the missing flushSize check added, as the other
      numeric options are checked. */
  function ValidateCorrected(c: Config): (o: Outcome)
    ensures o == Pass <==> Validate(c) == Pass && c.flushSize >= 1
    ensures o == Pass ==> BatchListCreatable(c.flushSize)
    ensures Validate(c).Fail? ==> o == Validate(c)
  {
    if Validate(c).Fail? then Validate(c) else Check(c.flushSize >= 1, "<flushSize> must be positive")
  }

  /** The flush policy a configuration sets up. */
  function PolicyOf(c: Config): (p: Policy)
  {
    Policy(c.flushSize, c.flushIntervalMillis)
  }

  /** What a successful `start` leaves behind: the key layout's pattern, the
      render layout's pattern if any, and the batcher's initial state. */
  datatype Started<R> = Started(keyPattern: string, renderPattern: Option<string>, batcher: State<R>)

  /** `start` at time `now` on a fresh appender, with the corrected validation. */
  function Start<R>(c: Config, now: int): (r: Try<Started<R>>)
    ensures r.Ok? <==> ValidateCorrected(c) == Pass
    ensures r.Thrown? ==> r.cause == ValidateCorrected(c).cause
    ensures r.Ok? ==>
      && c.keyPattern == Some(r.value.keyPattern)
      && r.value.renderPattern == c.renderPattern
      && r.value.batcher.batch == [] && r.value.batcher.submitted == [] && !r.value.batcher.stopped
      && r.value.batcher.nextFlush == now + c.flushIntervalMillis
  {
    match ValidateCorrected(c)
    case Fail(e) => Thrown(e)
    case Pass => Ok(Started(c.keyPattern.value, c.renderPattern, Init(PolicyOf(c), now)))
  }

  /** After a successful start, whatever the batcher receives, every batch it
      hands to the uploader holds between one and flushSize records, so each
      meets the uploader's precondition. */
  lemma StartedBatchesBounded<R>(c: Config, now: int, inputs: seq<Input<R>>)
    requires Start<R>(c, now).Ok?
    ensures var t := Run(PolicyOf(c), Start<R>(c, now).value.batcher, inputs);
      forall k :: 0 <= k < |t.submitted| ==> 1 <= |t.submitted[k]| <= c.flushSize
  {
    SizeBound<R>(PolicyOf(c), now, inputs);
  }

  /** `append`: a logging event whose record builds is handed to the batcher
      as an event pair; other objects, and events whose building throws, are
      dropped without an exception reaching the caller. Every argument goes
      through the mapper. */
  method Append(obj: Logged, renderPattern: Option<string>, lineNumbers: bool, env: Env)
    returns (handoff: Option<EventPair>)
    ensures var settings := Settings(AvroRule, renderPattern, lineNumbers);
      && (handoff.Some? <==> obj.LoggingEvent? && RawLogOf(obj.event, settings, env).Ok?)
      && (handoff.Some? ==> handoff.value == EventPair(obj.event, RawLogOf(obj.event, settings, env).value))
  {
    handoff := None;
    if obj.LoggingEvent? {
      var raw := Build(obj.event, Settings(AvroRule, renderPattern, lineNumbers), env);
      if raw.Ok? {
        handoff := Some(EventPair(obj.event, raw.value));
      }
    }
  }
}
