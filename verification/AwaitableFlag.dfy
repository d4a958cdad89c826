/** The sticky flag workers wait on. */
module AwaitableFlags {
  class AwaitableFlag {
    var flag: bool

    // history: the number of accesses so far, and those of the last Signal and Reset
    ghost var time: nat
    ghost var signalled: nat
    ghost var reset: nat

    /** The flag is set exactly when a Signal came after the last Reset, however many came and whoever waited. */
    ghost predicate Valid()
      reads this
    {
      signalled <= time && reset <= time && (flag <==> signalled > reset)
    }

    constructor ()
      ensures Valid() && !flag && signalled == reset == 0
    {
      flag, time, signalled, reset := false, 0, 0, 0;
    }

    method Reset()
      requires Valid()
      modifies this
      ensures Valid() && !flag && reset > old(time) && signalled == old(signalled)
    {
      flag := false;
      time := time + 1;
      reset := time;
    }

    /** The store; cancelling the timer has no effect on what a waiter reads. */
    method Signal()
      requires Valid()
      modifies this
      ensures Valid() && flag && signalled > old(time) && reset == old(reset)
    {
      flag := true;
      time := time + 1;
      signalled := time;
    }

    /** One round of Wait's loop. */
    method Poll() returns (done: bool)
      requires Valid()
      ensures done == flag
    {
      done := flag;
    }

    /**
     * Wait. The timer's expiry is never set, so an async_wait on it is over at once, cancelled or not, and every poll
     * that finds the flag false is followed by another. signals[i] says whether a Signal comes before the i-th of these
     * later polls; it returns at the first poll that a Signal precedes, at once on a flag already set.
     */
    method Wait(signals: seq<bool>) returns (polls: nat, done: bool)
      requires Valid()
      modifies this
      ensures Valid() && done == flag && polls <= |signals|
      ensures old(flag) ==> done && polls == 0
      ensures done && !old(flag) ==> polls > 0 && signals[polls - 1] && true !in signals[..polls - 1]
      ensures !done ==> true !in signals
    {
      polls := 0;
      done := Poll();
      while !done && polls < |signals|
        invariant Valid() && polls <= |signals| && done == flag
        invariant old(flag) ==> done && polls == 0
        invariant !done ==> true !in signals[..polls]
        invariant done && !old(flag) ==> polls > 0 && signals[polls - 1] && true !in signals[..polls - 1]
      {
        assert signals[..polls + 1] == signals[..polls] + [signals[polls]];
        if signals[polls] {
          Signal();
        }
        polls := polls + 1;
        done := Poll();
      }
      assert polls == |signals| ==> signals[..polls] == signals;
    }
  }
}
