/**
 * The throttle the pad wraps `_strokeUpdate` in when its `throttle` option
 * is non-zero. A call runs the wrapped function at once when at least
 * `wait` milliseconds have passed since the last run (or the clock went
 * back); otherwise it records its arguments and, unless a timer is already
 * pending, schedules one trailing run for the moment the wait is over. The
 * trailing run uses the arguments of the latest call.
 *
 * The clock (`Date.now()`) is the parameter `now`, the timer
 * (`setTimeout`/`clearTimeout`) is the `pending` flag with its due time, and
 * the wrapped function is run by the caller: `Call` says whether to run it
 * now, `Fire` hands over the arguments when the timer goes off, and `Finish`
 * is the step that follows a run that returned normally.
 */
module Throttling {
  import opened Wrappers

  /** `wait - (now - last)`: how long the wait still has to go. */
  function Remaining(wait: int, last: int, now: int): (d: int)
    ensures now + d == last + wait
  {
    wait - (now - last)
  }

  /** A call runs at once when nothing remains of the wait, or more than all of it. */
  predicate RunsNow(wait: int, last: int, now: int) {
    var d := Remaining(wait, last, now);
    d <= 0 || d > wait
  }

  /**
   * In terms of elapsed time: a call runs at once exactly when `wait`
   * milliseconds have passed since the last run, or the clock is behind it.
   */
  lemma RunsNowIff(wait: int, last: int, now: int)
    ensures RunsNow(wait, last, now) <==> last + wait <= now || now < last
  {
  }

  /**
   * A call that does not run at once leaves a delay of more than 0 and at
   * most `wait` milliseconds, which ends exactly `wait` after the last run.
   */
  lemma DelayWithinWait(wait: int, last: int, now: int)
    requires !RunsNow(wait, last, now)
    ensures 0 < Remaining(wait, last, now) <= wait
    ensures last <= now < last + wait
  {
  }

  /** With a wait of 0 or less every call runs at once. */
  lemma NoWaitAlwaysRuns(wait: int, last: int, now: int)
    requires wait <= 0
    ensures RunsNow(wait, last, now)
  {
  }

  class Throttle<A> {
    /** The `wait` argument: the pad's `throttle` option. */
    const wait: int
    /** `o`: when the wrapped function last ran. */
    var last: int
    /** `h != null`: a trailing run is scheduled. */
    var pending: bool
    /** When the scheduled run is due. */
    var due: int
    /** `n`: the arguments of the latest call not yet consumed; `None` is `[]`. */
    var args: Option<A>

    /** A scheduled run has arguments and falls due `wait` after the last run. */
    ghost predicate Valid()
      reads this
    {
      pending ==> args.Some? && due == last + wait
    }

    constructor(wait: int)
      ensures Valid() && this.wait == wait
      ensures last == 0 && !pending && args == None
    {
      this.wait := wait;
      last := 0;
      pending := false;
      due := 0;
      args := None;
    }

    /**
     * One call of the throttled function at time `now` with argument `x`.
     * It always records `x`. When it runs, any scheduled run is cancelled
     * and the last-run time becomes `now`; otherwise a run is scheduled if
     * none is pending.
     */
    method Call(now: int, x: A) returns (run: bool)
      requires Valid()
      modifies this
      ensures Valid()
      ensures run == RunsNow(wait, old(last), now)
      ensures args == Some(x)
      ensures run ==> last == now && !pending
      ensures !run ==> last == old(last) && pending && due == old(last) + wait
      ensures !run && old(pending) ==> due == old(due)
    {
      var d := wait - (now - last);
      args := Some(x);
      if d <= 0 || d > wait {
        if pending {
          pending := false;
        }
        last := now;
        run := true;
      } else {
        if !pending {
          pending := true;
          due := now + d;
        }
        run := false;
      }
    }

    /**
     * The scheduled run goes off at time `now`: the timer is gone, the
     * last-run time becomes `now`, and the run gets the latest arguments.
     */
    method Fire(now: int) returns (x: A)
      requires Valid() && pending
      modifies this
      ensures Valid()
      ensures x == old(args).value && args == old(args)
      ensures last == now && !pending
    {
      last := now;
      pending := false;
      x := args.value;
    }

    /** After a run that returned: the arguments are dropped unless a run is scheduled. */
    method Finish()
      requires Valid()
      modifies this
      ensures Valid()
      ensures args == (if pending then old(args) else None)
      ensures last == old(last) && pending == old(pending) && due == old(due)
    {
      if !pending {
        args := None;
      }
    }
  }
}
