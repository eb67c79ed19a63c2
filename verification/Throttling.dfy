// The token semaphore of one source.
module Throttling {
  import opened Protocol

  class Throttle {
    const capacity: nat  // of the channel; 0 stands for a nil channel, no limit
    var tokens: nat      // in the channel

    // newThrottle fills the channel.
    constructor (maxConcurrency: int)
      ensures capacity == Capacity(maxConcurrency) && tokens == capacity
    {
      capacity := if maxConcurrency <= 0 then 0 else maxConcurrency;
      tokens := 0;
      new;
      if maxConcurrency > 0 {
        for i := 0 to maxConcurrency
          invariant tokens == i
        {
          tokens := tokens + 1;
        }
      }
    }

    // Acquire without a token and without an ended context would wait for ever.
    predicate Waits(done: bool)
      reads this
    {
      capacity > 0 && tokens == 0 && !done
    }

    // `ended`: the context had ended before the call; `done`: it has ended by the
    // time the select looks; `pickToken`: the choice select makes when both are ready.
    method Acquire(ended: bool, done: bool, pickToken: bool) returns (granted: bool)
      requires (ended ==> done) && !Waits(done)
      modifies this
      ensures granted <==> !ended && (capacity == 0 || (old(tokens) > 0 && (!done || pickToken)))
      ensures tokens == if granted && capacity > 0 then old(tokens) - 1 else old(tokens)
    {
      if ended {
        return false;
      }
      if capacity == 0 {
        return true;
      }
      if tokens > 0 && (!done || pickToken) {
        tokens := tokens - 1;
        return true;
      }
      return false;
    }

    // Release would block on a full channel; it never has to.
    method Release()
      requires capacity > 0 ==> tokens < capacity
      modifies this
      ensures tokens == if capacity > 0 then old(tokens) + 1 else old(tokens)
    {
      if capacity > 0 {
        tokens := tokens + 1;
      }
    }
  }
}
