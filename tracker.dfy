/** The request-timestamp window: a FIFO of bounded length that drops its oldest entry
    when a new one arrives at capacity, as `collections.deque(maxlen=...)` does. */
module Tracker {

  /** The window after one append. */
  function Pushed(s: seq<real>, t: real, capacity: nat): (r: seq<real>)
    requires |s| <= capacity
    ensures |r| <= capacity
    ensures |r| == if |s| < capacity then |s| + 1 else capacity
    ensures capacity > 0 ==> r[|r| - 1] == t
    ensures |s| < capacity ==> r == s + [t]
    ensures 0 < capacity == |s| ==> r == s[1..] + [t]
  {
    if capacity == 0 then []
    else if |s| < capacity then s + [t]
    else s[1..] + [t]
  }

  /** The window after appending every stamp of `ts` in order. */
  function PushedAll(s: seq<real>, ts: seq<real>, capacity: nat): (r: seq<real>)
    requires |s| <= capacity
    ensures |r| <= capacity
    decreases |ts|
  {
    if ts == [] then s
    else Pushed(PushedAll(s, ts[..|ts| - 1], capacity), ts[|ts| - 1], capacity)
  }

  function Min(a: nat, b: nat): nat { if a <= b then a else b }

  /** Starting empty, the window holds exactly the last `capacity` stamps appended, or
      all of them while there are fewer, oldest first. */
  lemma {:induction false} WindowKeepsNewest(ts: seq<real>, capacity: nat)
    ensures PushedAll([], ts, capacity) == ts[|ts| - Min(capacity, |ts|)..]
    decreases |ts|
  {
    if ts != [] {
      var front := ts[..|ts| - 1];
      WindowKeepsNewest(front, capacity);
      var w := PushedAll([], front, capacity);
      assert w == front[|front| - Min(capacity, |front|)..];
      if capacity == 0 {
      } else if |front| < capacity {
        assert w == front;
        assert front + [ts[|ts| - 1]] == ts;
      } else {
        assert w[1..] + [ts[|ts| - 1]] == ts[|ts| - capacity..];
      }
    }
  }

  /** The window as the orchestrator holds it: created empty with a fixed capacity and
      updated in place by each credential attempt. */
  class RequestWindow {
    const capacity: nat
    var stamps: seq<real>

    ghost predicate Valid()
      reads this
    {
      |stamps| <= capacity
    }

    constructor(capacity: nat)
      ensures this.capacity == capacity && stamps == [] && Valid()
    {
      this.capacity := capacity;
      stamps := [];
    }

    /** `deque.append`: the oldest stamp is evicted when the window is full. */
    method Append(t: real)
      requires Valid()
      modifies this
      ensures Valid()
      ensures stamps == Pushed(old(stamps), t, capacity)
    {
      if capacity == 0 {
        stamps := [];
      } else if |stamps| < capacity {
        stamps := stamps + [t];
      } else {
        stamps := stamps[1..] + [t];
      }
    }
  }
}
