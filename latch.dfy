/**
 * Java's `CountDownLatch`, as the message handlers use it: a count that
 * callbacks count down and a thread waits on.
 */
module Latch {
  /** What waiting on a latch ends in; `Blocked` is a wait that never returns. */
  datatype AwaitOutcome = Released | Interrupted | Blocked

  /** Java's `CountDownLatch`, reduced to its count. */
  class CountDownLatch {
    var count: nat
    ghost var countDowns: nat

    constructor (count: nat)
      ensures this.count == count && countDowns == 0
    {
      this.count := count;
      countDowns := 0;
    }

    method CountDown()
      modifies this
      ensures count == if old(count) == 0 then 0 else old(count) - 1
      ensures countDowns == old(countDowns) + 1
    {
      if count > 0 {
        count := count - 1;
      }
      countDowns := countDowns + 1;
    }

    /**
     * `await`: an interrupted thread gets an `InterruptedException`, checked
     * first; otherwise the wait returns once the count is zero, and never
     * while it is not.
     */
    method Await(interrupted: bool) returns (outcome: AwaitOutcome)
      ensures outcome == if interrupted then Interrupted else if count == 0 then Released else Blocked
    {
      if interrupted {
        return Interrupted;
      }
      outcome := if count == 0 then Released else Blocked;
    }
  }
}
