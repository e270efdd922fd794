/** The batcher as the source writes it: a local batch list that grows in
    place, a deadline variable that is reassigned, and a loop that exits on
    the sentinel or an interruption. Each method is proved against the
    state machine of BatchPolicy. */
module Batching {
  import opened BatchPolicy

  class Batcher<R> {
    const policy: Policy
    var batch: seq<R>
    var nextFlush: int
    /** The batches handed to the upload pool, in submission order. */
    var submitted: seq<seq<R>>
    var stopped: bool

    /** The abstract state these fields stand for. */
    function State(): (s: State<R>)
      reads this
    {
      BatchPolicy.State(batch, nextFlush, submitted, stopped)
    }

    /** Starting the batcher thread at time `start`. The batch list is created
        with capacity flushSize, which Java refuses when it is negative. */
    constructor (policy: Policy, start: int)
      requires policy.flushSize >= 0
      ensures this.policy == policy
      ensures State() == Init(policy, start)
      ensures Inv(policy, State())
    {
      this.policy := policy;
      batch := [];
      nextFlush := start + policy.flushInterval;
      submitted := [];
      stopped := false;
      new;
      InitInv<R>(policy, start);
    }

    /** Submits the current batch and starts a new one with a new deadline. */
    method Flush(now: int)
      modifies this
      ensures batch == [] && nextFlush == now + policy.flushInterval
      ensures submitted == old(submitted) + [old(batch)] && stopped == old(stopped)
    {
      submitted := submitted + [batch];
      nextFlush := now + policy.flushInterval;
      batch := [];
    }

    /** One iteration of the loop, or its exit with the tail flush. */
    method Step(input: Input<R>)
      modifies this
      requires Inv(policy, State())
      ensures State() == BatchPolicy.Step(policy, old(State()), input)
      ensures Inv(policy, State())
    {
      ghost var s := State();
      StepInv(policy, s, input);
      if stopped {
        return;
      }
      match input.poll {
        case Terminate =>
          ExitLoop();
        case Interrupted =>
          ExitLoop();
        case Rec(r) =>
          batch := batch + [r];
          FlushIfDue(input.now);
        case Timeout =>
          if batch == [] {
            nextFlush := input.now + policy.flushInterval;
          } else {
            FlushIfDue(input.now);
          }
      }
    }

    /** The flush check at the bottom of the loop body. */
    method FlushIfDue(now: int)
      modifies this
      ensures State() == CheckFlush(policy, old(State()), now)
    {
      var sizeReached := |batch| >= policy.flushSize;
      var intervalElapsed := now > nextFlush;
      if sizeReached || (intervalElapsed && batch != []) {
        Flush(now);
      }
    }

    /** After the loop: a non-empty tail batch goes to the uploader. */
    method ExitLoop()
      modifies this
      ensures State() == Exit(old(State()))
    {
      if |batch| > 0 {
        submitted := submitted + [batch];
      }
      batch := [];
      stopped := true;
    }

    /** The batcher loop over a sequence of inputs; it leaves as soon as the
        sentinel or an interruption is seen, ignoring what follows. */
    method Loop(inputs: seq<Input<R>>)
      modifies this
      requires Inv(policy, State())
      ensures State() == Run(policy, old(State()), inputs)
      ensures Inv(policy, State())
      ensures !old(stopped) ==>
        Flatten(submitted) + batch == old(Flatten(submitted) + batch) + Received(inputs)
    {
      ghost var s0 := State();
      RunInv(policy, s0, inputs);
      var i := 0;
      while i < |inputs| && !stopped
        invariant 0 <= i <= |inputs|
        invariant Run(policy, State(), inputs[i..]) == Run(policy, s0, inputs)
        invariant Inv(policy, State())
      {
        assert inputs[i..][1..] == inputs[i + 1..];
        Step(inputs[i]);
        i := i + 1;
      }
      if stopped {
        RunStopped(policy, State(), inputs[i..]);
      }
      if !s0.stopped {
        RunAccounts(policy, s0, inputs);
      }
    }
  }
}
