/** The batcher thread of AvroS3Appender with its threads taken away: a
    deterministic state machine driven by one poll result and one clock
    reading per step. Records are of an arbitrary type R; the batcher never
    looks inside them. */
module BatchPolicy {

  /** What one `poll(5, SECONDS)` on the hand-off queue yields. */
  datatype Poll<R> =
    | Rec(record: R)  // a record handed over by a producer
    | Timeout         // no record within the poll timeout (poll returned null)
    | Terminate       // the TERMINATE sentinel pushed by stop()
    | Interrupted     // the batcher thread was interrupted while polling

  /** One iteration's input: the poll result and the clock reading in milliseconds. */
  datatype Input<R> = Input(poll: Poll<R>, now: int)

  /** The two tuning knobs of the flush policy. */
  datatype Policy = Policy(flushSize: int, flushInterval: int)

  /** The batcher's state: the batch being filled, the time-based flush
      deadline, every batch handed to the upload pool so far (in submission
      order), and whether the loop has exited. */
  datatype State<R> = State(batch: seq<R>, nextFlush: int, submitted: seq<seq<R>>, stopped: bool)

  /** The state when the batcher thread starts at time `start`. */
  function Init<R>(p: Policy, start: int): (s: State<R>)
  {
    State([], start + p.flushInterval, [], false)
  }

  /** The flush decision: the size threshold alone, or the deadline strictly
      passed with something in the batch. */
  predicate ShouldFlush(p: Policy, size: nat, now: int, nextFlush: int)
  {
    size >= p.flushSize || (now > nextFlush && size > 0)
  }

  /** Hands the batch to the uploader when the flush decision fires, starting
      a fresh batch and a fresh deadline. */
  function CheckFlush<R>(p: Policy, s: State<R>, now: int): (t: State<R>)
  {
    if ShouldFlush(p, |s.batch|, now, s.nextFlush) then
      s.(batch := [], nextFlush := now + p.flushInterval, submitted := s.submitted + [s.batch])
    else
      s
  }

  /** One iteration of the batcher loop; the exit of the loop includes the
      final flush of a non-empty tail batch. A stopped batcher ignores its input. */
  function Step<R>(p: Policy, s: State<R>, input: Input<R>): (t: State<R>)
  {
    if s.stopped then s
    else
      match input.poll
      case Rec(r) => CheckFlush(p, s.(batch := s.batch + [r]), input.now)
      case Timeout =>
        if s.batch == [] then s.(nextFlush := input.now + p.flushInterval)
        else CheckFlush(p, s, input.now)
      case Terminate => Exit(s)
      case Interrupted => Exit(s)
  }

  /** Leaving the loop: a non-empty tail batch is submitted, an empty one is not. */
  function Exit<R>(s: State<R>): (t: State<R>)
  {
    State([], s.nextFlush, if |s.batch| > 0 then s.submitted + [s.batch] else s.submitted, true)
  }

  /** The batcher fed a whole sequence of inputs, in order. */
  function Run<R>(p: Policy, s: State<R>, inputs: seq<Input<R>>): (t: State<R>)
    decreases |inputs|
  {
    if inputs == [] then s else Run(p, Step(p, s, inputs[0]), inputs[1..])
  }

  /** The records a running batcher receives from `inputs`: every record
      polled before the first sentinel or interruption. */
  function Received<R>(inputs: seq<Input<R>>): (records: seq<R>)
    decreases |inputs|
  {
    if inputs == [] then []
    else
      match inputs[0].poll
      case Rec(r) => [r] + Received(inputs[1..])
      case Timeout => Received(inputs[1..])
      case Terminate => []
      case Interrupted => []
  }

  /** Batches concatenated in order. */
  function Flatten<R>(batches: seq<seq<R>>): (records: seq<R>)
    decreases |batches|
  {
    if batches == [] then [] else Flatten(batches[..|batches| - 1]) + batches[|batches| - 1]
  }

  /** The most records one submitted batch can hold: flushSize, or one when
      flushSize is not positive (then every non-empty batch flushes at once). */
  function Cap(p: Policy): (cap: nat)
  {
    if p.flushSize >= 1 then p.flushSize else 1
  }

  /** What the batcher keeps true between iterations. */
  ghost predicate Inv<R>(p: Policy, s: State<R>)
  {
    && (forall k :: 0 <= k < |s.submitted| ==> 0 < |s.submitted[k]| <= Cap(p))
    && |s.batch| < Cap(p)
    && (s.stopped ==> s.batch == [])
  }

  lemma FlattenAppend<R>(batches: seq<seq<R>>, b: seq<R>)
    ensures Flatten(batches + [b]) == Flatten(batches) + b
  {
    assert (batches + [b])[..|batches|] == batches;
  }

  /** The initial deadline is the start time plus the interval, and the
      initial state satisfies the invariant. */
  lemma InitInv<R>(p: Policy, start: int)
    ensures Inv<R>(p, Init(p, start))
    ensures Init<R>(p, start).nextFlush == start + p.flushInterval
    ensures Init<R>(p, start).batch == [] && Init<R>(p, start).submitted == []
  {
  }

  /** The decisions of one running iteration: a record is appended and the
      batch flushed exactly when ShouldFlush holds of the grown batch; a timeout
      on an empty batch only moves the deadline; a timeout on a non-empty batch
      flushes exactly when ShouldFlush holds; every flush submits the whole
      batch, empties it and resets the deadline to now + flushInterval. */
  lemma StepDecision<R>(p: Policy, s: State<R>, input: Input<R>)
    requires !s.stopped
    ensures var t := Step(p, s, input);
      match input.poll
      case Rec(r) =>
        && !t.stopped
        && (ShouldFlush(p, |s.batch| + 1, input.now, s.nextFlush) ==>
              t.submitted == s.submitted + [s.batch + [r]] && t.batch == []
              && t.nextFlush == input.now + p.flushInterval)
        && (!ShouldFlush(p, |s.batch| + 1, input.now, s.nextFlush) ==>
              t.submitted == s.submitted && t.batch == s.batch + [r] && t.nextFlush == s.nextFlush)
      case Timeout =>
        && !t.stopped
        && (s.batch == [] ==> t == s.(nextFlush := input.now + p.flushInterval))
        && (s.batch != [] && ShouldFlush(p, |s.batch|, input.now, s.nextFlush) ==>
              t.submitted == s.submitted + [s.batch] && t.batch == []
              && t.nextFlush == input.now + p.flushInterval)
        && (s.batch != [] && !ShouldFlush(p, |s.batch|, input.now, s.nextFlush) ==> t == s)
      case Terminate => t.stopped
      case Interrupted => t.stopped
  {
  }

  /** A timeout never submits an empty batch, and the flush condition is
      checked only with a non-empty batch. */
  lemma NoEmptyFlush<R>(p: Policy, s: State<R>, input: Input<R>)
    ensures var t := Step(p, s, input);
      forall k :: |s.submitted| <= k < |t.submitted| ==> t.submitted[k] != []
  {
  }

  /** Leaving the loop on the sentinel or on an interruption submits a
      non-empty tail exactly once and an empty one not at all, and nothing
      is appended afterwards. */
  lemma ExitFlushesTail<R>(p: Policy, s: State<R>, input: Input<R>, rest: seq<Input<R>>)
    requires !s.stopped
    requires input.poll.Terminate? || input.poll.Interrupted?
    ensures var t := Step(p, s, input);
      && t.stopped && t.batch == []
      && t.submitted == (if s.batch == [] then s.submitted else s.submitted + [s.batch])
      && Run(p, t, rest) == t
  {
    RunStopped(p, Step(p, s, input), rest);
  }

  /** Once stopped, no further input changes anything. */
  lemma {:induction false} RunStopped<R>(p: Policy, s: State<R>, inputs: seq<Input<R>>)
    requires s.stopped
    ensures Run(p, s, inputs) == s
    decreases |inputs|
  {
    if inputs != [] {
      RunStopped(p, s, inputs[1..]);
    }
  }

  /** One iteration keeps the invariant: no empty batch is submitted and no
      submitted batch exceeds the size bound. */
  lemma StepInv<R>(p: Policy, s: State<R>, input: Input<R>)
    requires Inv(p, s)
    ensures Inv(p, Step(p, s, input))
  {
    var t := Step(p, s, input);
    if !s.stopped {
      match input.poll
      case Rec(r) =>
        assert |s.batch + [r]| <= Cap(p);
      case Timeout =>
      case Terminate =>
      case Interrupted =>
    }
  }

  /** The invariant holds after any sequence of inputs. */
  lemma {:induction false} RunInv<R>(p: Policy, s: State<R>, inputs: seq<Input<R>>)
    requires Inv(p, s)
    ensures Inv(p, Run(p, s, inputs))
    decreases |inputs|
  {
    if inputs != [] {
      StepInv(p, s, inputs[0]);
      RunInv(p, Step(p, s, inputs[0]), inputs[1..]);
    }
  }

  /** With flushSize at least one, every batch ever submitted, the tail
      included, holds between 1 and flushSize records. */
  lemma {:induction false} SizeBound<R>(p: Policy, start: int, inputs: seq<Input<R>>)
    requires p.flushSize >= 1
    ensures var t := Run(p, Init(p, start), inputs);
      forall k :: 0 <= k < |t.submitted| ==> 1 <= |t.submitted[k]| <= p.flushSize
  {
    InitInv<R>(p, start);
    RunInv(p, Init(p, start), inputs);
  }

  /** Record accounting for one iteration. */
  lemma StepAccounts<R>(p: Policy, s: State<R>, input: Input<R>)
    requires !s.stopped
    ensures var t := Step(p, s, input);
      Flatten(t.submitted) + t.batch
        == Flatten(s.submitted) + s.batch + (if input.poll.Rec? then [input.poll.record] else [])
  {
    var t := Step(p, s, input);
    match input.poll
    case Rec(r) =>
      FlattenAppend(s.submitted, s.batch + [r]);
    case Timeout =>
      FlattenAppend(s.submitted, s.batch);
    case Terminate =>
      FlattenAppend(s.submitted, s.batch);
    case Interrupted =>
      FlattenAppend(s.submitted, s.batch);
  }

  /** Record accounting: the submitted batches in submission order followed
      by the current batch are exactly what was there before followed by the
      records received, in receipt order; nothing is lost, duplicated or
      reordered. */
  lemma {:induction false} RunAccounts<R>(p: Policy, s: State<R>, inputs: seq<Input<R>>)
    requires !s.stopped
    ensures var t := Run(p, s, inputs);
      Flatten(t.submitted) + t.batch == Flatten(s.submitted) + s.batch + Received(inputs)
    decreases |inputs|
  {
    if inputs != [] {
      var s1 := Step(p, s, inputs[0]);
      StepAccounts(p, s, inputs[0]);
      if s1.stopped {
        RunStopped(p, s1, inputs[1..]);
        assert !inputs[0].poll.Rec? && !inputs[0].poll.Timeout?;
      } else {
        RunAccounts(p, s1, inputs[1..]);
      }
    }
  }

  /** From a fresh start, once the loop has exited, the submitted batches
      concatenated are exactly the records received. */
  lemma StoppedRunDelivers<R>(p: Policy, start: int, inputs: seq<Input<R>>)
    requires Run(p, Init(p, start), inputs).stopped
    ensures Flatten(Run(p, Init(p, start), inputs).submitted) == Received(inputs)
  {
    InitInv<R>(p, start);
    RunInv(p, Init(p, start), inputs);
    RunAccounts(p, Init(p, start), inputs);
    var t := Run(p, Init(p, start), inputs);
    assert t.batch == [];
    assert Flatten(Init<R>(p, start).submitted) == [];
    assert Flatten(t.submitted) + t.batch == Flatten(t.submitted);
  }

  /** An idle batcher with an empty batch never flushes, however long it
      waits: a run of timeouts only moves the deadline forward. */
  lemma {:induction false} IdleNeverFlushes<R>(p: Policy, s: State<R>, inputs: seq<Input<R>>)
    requires !s.stopped && s.batch == []
    requires forall k :: 0 <= k < |inputs| ==> inputs[k].poll.Timeout?
    ensures var t := Run(p, s, inputs);
      t.submitted == s.submitted && t.batch == [] && !t.stopped
    decreases |inputs|
  {
    if inputs != [] {
      IdleNeverFlushes(p, Step(p, s, inputs[0]), inputs[1..]);
    }
  }

  /** A non-empty batch waiting past its deadline is flushed by the next
      timeout, exactly once: the timeouts after it find an empty batch. */
  lemma {:induction false} IdleBatchFlushedOnce<R>(p: Policy, s: State<R>, first: Input<R>, rest: seq<Input<R>>)
    requires !s.stopped && s.batch != []
    requires first.poll.Timeout? && first.now > s.nextFlush
    requires forall k :: 0 <= k < |rest| ==> rest[k].poll.Timeout?
    ensures Run(p, s, [first] + rest).submitted == s.submitted + [s.batch]
  {
    var s1 := Step(p, s, first);
    assert s1.submitted == s.submitted + [s.batch] && s1.batch == [];
    assert ([first] + rest)[1..] == rest;
    IdleNeverFlushes(p, s1, rest);
  }

  /** Five records A..E with flushSize 3 and no deadline passing, then the
      sentinel: exactly the batches [A, B, C] and [D, E], in that order. */
  lemma FiveRecordsFlushSizeThree()
    ensures var p := Policy(3, 300000);
      var inputs := [Input(Rec('A'), 1), Input(Rec('B'), 2), Input(Rec('C'), 3),
                     Input(Rec('D'), 4), Input(Rec('E'), 5), Input(Terminate, 6)];
      Run(p, Init(p, 0), inputs).submitted == ["ABC", "DE"]
  {
    var p := Policy(3, 300000);
    var inputs := [Input(Rec('A'), 1), Input(Rec('B'), 2), Input(Rec('C'), 3),
                   Input(Rec('D'), 4), Input(Rec('E'), 5), Input(Terminate, 6)];
    var s0: State<char> := Init(p, 0);
    var s3 := State([], 300003, ["ABC"], false);
    var s5 := State("DE", 300003, ["ABC"], false);
    var s6 := State([], 300003, ["ABC", "DE"], true);
    assert Step(p, s0, inputs[0]) == State("A", 300000, [], false);
    assert Step(p, State("A", 300000, [], false), inputs[1]) == State("AB", 300000, [], false);
    assert "AB" + ['C'] == "ABC";
    assert Step(p, State("AB", 300000, [], false), inputs[2]) == s3;
    assert Step(p, s3, inputs[3]) == State("D", 300003, ["ABC"], false);
    assert "D" + ['E'] == "DE";
    assert Step(p, State("D", 300003, ["ABC"], false), inputs[4]) == s5;
    assert Step(p, s5, inputs[5]) == s6;
    assert Run(p, s6, inputs[6..]) == s6;
    assert Run(p, s5, inputs[5..]) == s6;
    assert Run(p, State("D", 300003, ["ABC"], false), inputs[4..]) == s6;
    assert Run(p, s3, inputs[3..]) == s6;
    assert Run(p, State("AB", 300000, [], false), inputs[2..]) == s6;
    assert Run(p, State("A", 300000, [], false), inputs[1..]) == s6;
  }

  /** Feeding one more input after a run is one more step. */
  lemma {:induction false} RunSnoc<R>(p: Policy, s: State<R>, inputs: seq<Input<R>>, last: Input<R>)
    ensures Run(p, s, inputs + [last]) == Step(p, Run(p, s, inputs), last)
    decreases |inputs|
  {
    if inputs == [] {
      assert [] + [last] == [last];
      assert [last][1..] == [];
    } else {
      assert (inputs + [last])[0] == inputs[0];
      assert (inputs + [last])[1..] == inputs[1..] + [last];
      RunSnoc(p, Step(p, s, inputs[0]), inputs[1..], last);
    }
  }

  /** Batches that are all full hold |batches| * size records in all. */
  lemma {:induction false} FlattenFullLength<R>(batches: seq<seq<R>>, size: nat)
    requires forall k :: 0 <= k < |batches| ==> |batches[k]| == size
    ensures |Flatten(batches)| == |batches| * size
    decreases |batches|
  {
    if batches != [] {
      FlattenFullLength(batches[..|batches| - 1], size);
    }
  }

  /** A run made only of records receives all of them. */
  lemma {:induction false} ReceivedAllRecords<R>(inputs: seq<Input<R>>)
    requires forall k :: 0 <= k < |inputs| ==> inputs[k].poll.Rec?
    ensures |Received(inputs)| == |inputs|
    decreases |inputs|
  {
    if inputs != [] {
      ReceivedAllRecords(inputs[1..]);
    }
  }

  /** While every record arrives no later than the first deadline, no flush
      is timed: every batch a run of records submits is exactly full, and the
      deadline never drops below that first deadline. */
  lemma {:induction false} FullBatchesWithoutTimer<R>(p: Policy, start: int, s: State<R>, inputs: seq<Input<R>>)
    requires p.flushSize >= 1 && p.flushInterval >= 0
    requires Inv(p, s) && !s.stopped && s.nextFlush >= start + p.flushInterval
    requires forall k :: 0 <= k < |inputs| ==>
      inputs[k].poll.Rec? && start <= inputs[k].now <= start + p.flushInterval
    ensures var t := Run(p, s, inputs);
      && !t.stopped && Inv(p, t) && t.nextFlush >= start + p.flushInterval
      && |t.submitted| >= |s.submitted| && t.submitted[..|s.submitted|] == s.submitted
      && forall k :: |s.submitted| <= k < |t.submitted| ==> |t.submitted[k]| == p.flushSize
    decreases |inputs|
  {
    if inputs != [] {
      var s1 := Step(p, s, inputs[0]);
      StepInv(p, s, inputs[0]);
      assert !ShouldFlush(p, |s.batch| + 1, inputs[0].now, s.nextFlush) || |s.batch| + 1 == p.flushSize;
      FullBatchesWithoutTimer(p, start, s1, inputs[1..]);
      var t := Run(p, s1, inputs[1..]);
      assert t.submitted[..|s1.submitted|] == s1.submitted;
      assert t.submitted[..|s.submitted|] == s1.submitted[..|s.submitted|];
    }
  }

  lemma MulAtLeast(k: int, d: int)
    requires k >= 1 && d >= 1
    ensures k * d >= d
  {
  }

  /** Division is determined by a quotient and a remainder below the divisor. */
  lemma DivUnique(x: int, q: int, r: int, d: int)
    requires d >= 1 && 0 <= r < d && x == q * d + r
    ensures x / d == q
  {
    var q', r' := x / d, x % d;
    assert x == q' * d + r';
    assert (q - q') * d == r' - r;
    if q > q' {
      MulAtLeast(q - q', d);
    } else if q < q' {
      MulAtLeast(q' - q, d);
    }
  }

  lemma DivisionByBatchSize(n: nat, m: nat, b: nat, size: nat)
    requires size >= 1 && b < size && n == m * size + b
    ensures (n + size - 1) / size == m + (if b > 0 then 1 else 0)
  {
    if b > 0 {
      assert n + size - 1 == (m + 1) * size + (b - 1);
      DivUnique(n + size - 1, m + 1, b - 1, size);
    } else {
      DivUnique(n + size - 1, m, size - 1, size);
    }
  }

  /** After a run of N records within the first flush interval: m full
      batches submitted and a current batch of N - m * K records, below K. */
  lemma {:induction false} RecordsOnlyRun<R>(p: Policy, start: int, inputs: seq<Input<R>>)
    requires p.flushSize >= 1 && p.flushInterval >= 0
    requires forall k :: 0 <= k < |inputs| ==>
      inputs[k].poll.Rec? && start <= inputs[k].now <= start + p.flushInterval
    ensures var u := Run(p, Init(p, start), inputs);
      && !u.stopped && |u.batch| < p.flushSize
      && (forall k :: 0 <= k < |u.submitted| ==> |u.submitted[k]| == p.flushSize)
      && |inputs| == |u.submitted| * p.flushSize + |u.batch|
  {
    var s0: State<R> := Init(p, start);
    InitInv<R>(p, start);
    FullBatchesWithoutTimer(p, start, s0, inputs);
    var u := Run(p, s0, inputs);
    RunAccounts(p, s0, inputs);
    ReceivedAllRecords(inputs);
    FlattenFullLength(u.submitted, p.flushSize);
    assert Flatten(s0.submitted) + s0.batch == [];
    assert |Flatten(u.submitted) + u.batch| == |Received(inputs)|;
  }

  /** N records with flushSize K, all arriving within the first flush
      interval, then the sentinel or an interruption: exactly ceil(N / K)
      batches, every one but the last holding K records and the last holding
      the rest. */
  lemma BatchCount<R>(p: Policy, start: int, inputs: seq<Input<R>>, last: Input<R>)
    requires p.flushSize >= 1 && p.flushInterval >= 0
    requires forall k :: 0 <= k < |inputs| ==>
      inputs[k].poll.Rec? && start <= inputs[k].now <= start + p.flushInterval
    requires last.poll.Terminate? || last.poll.Interrupted?
    ensures var t := Run(p, Init(p, start), inputs + [last]);
      && |t.submitted| == (|inputs| + p.flushSize - 1) / p.flushSize
      && (forall k :: 0 <= k < |t.submitted| - 1 ==> |t.submitted[k]| == p.flushSize)
      && (|t.submitted| > 0 ==> |t.submitted[|t.submitted| - 1]| == |inputs| - p.flushSize * (|t.submitted| - 1))
  {
    var u := Run(p, Init<R>(p, start), inputs);
    RecordsOnlyRun(p, start, inputs);
    RunSnoc(p, Init<R>(p, start), inputs, last);
    var t := Step(p, u, last);
    var m, n, size := |u.submitted|, |inputs|, p.flushSize;
    DivisionByBatchSize(n, m, |u.batch|, size);
    if |u.batch| == 0 {
      assert t.submitted == u.submitted;
      if m > 0 {
        assert n - size * (m - 1) == size by {
          assert n == m * size;
          assert size * (m - 1) == m * size - size;
        }
      }
    } else {
      assert t.submitted == u.submitted + [u.batch];
      assert |u.batch| == n - size * m;
    }
  }
}
