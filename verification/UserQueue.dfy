/** The queue between whoever pushes user messages and the session that awaits them. */
module UserQueue {

  /** What became of a call to next(). */
  datatype Promise<T> = Waiting | Message(value: T) | Done

  function Min(x: nat, y: nat): nat {
    if x < y then x else y
  }

  /** The calls that still wait, oldest first. */
  function Span(lo: nat, hi: nat): (s: seq<nat>)
    ensures lo <= hi ==> |s| == hi - lo
    ensures forall k | 0 <= k < |s| :: s[k] == lo + k
    decreases hi - lo
  {
    if lo >= hi then [] else [lo] + Span(lo + 1, hi)
  }

  class UserQueue<T(==)> {
    var buffered: seq<T>
    /** The calls to next() that wait, by their number. */
    var waiters: seq<nat>
    var ended: bool
    /** What each call to next() got so far. */
    var promises: seq<Promise<T>>
    /** Every push that was taken. */
    ghost var accepted: seq<T>

    /** The k-th call gets the k-th accepted push; what it has not got, it waits for, or is told
        that there will be none. */
    ghost function Expected(k: nat): Promise<T>
      reads this
    {
      if k < |accepted| then Message(accepted[k]) else if ended then Done else Waiting
    }

    ghost predicate Valid()
      reads this
    {
      && (buffered == [] || waiters == [])
      && buffered == accepted[Min(|promises|, |accepted|)..]
      && waiters == (if ended then [] else Span(|accepted|, |promises|))
      && forall k | 0 <= k < |promises| :: promises[k] == Expected(k)
    }

    constructor ()
      ensures Valid() && !ended && accepted == [] && promises == []
    {
      buffered, waiters, ended := [], [], false;
      promises, accepted := [], [];
    }

    /** A push after the end is dropped; any other is taken, and reaches the oldest waiter at once. */
    method Push(value: T)
      requires Valid()
      modifies this
      ensures Valid() && ended == old(ended)
      ensures accepted == if old(ended) then old(accepted) else old(accepted) + [value]
      ensures |promises| == |old(promises)|
      ensures forall k | 0 <= k < |promises| && old(promises[k]) != Waiting :: promises[k] == old(promises[k])
    {
      if ended {
        return;
      }
      if waiters != [] {
        var waiter := waiters[0];
        waiters := waiters[1..];
        promises := promises[waiter := Message(value)];
      } else {
        buffered := buffered + [value];
      }
      accepted := accepted + [value];
    }

    method End()
      requires Valid()
      modifies this
      ensures Valid() && ended && accepted == old(accepted) && |promises| == |old(promises)|
      ensures forall k | 0 <= k < |promises| && old(promises[k]) != Waiting :: promises[k] == old(promises[k])
    {
      if ended {
        return;
      }
      ghost var before, first := promises, |accepted|;
      while waiters != []
        invariant !ended && accepted == old(accepted) && buffered == old(buffered)
        invariant |promises| == |before| && |waiters| <= |before|
        invariant waiters == Span(|before| - |waiters|, |before|)
        invariant |waiters| <= (if |before| < first then 0 else |before| - first)
        invariant forall k | 0 <= k < |before| - |waiters| ::
          promises[k] == if k < first then Message(accepted[k]) else Done
        invariant forall k | |before| - |waiters| <= k < |before| :: promises[k] == Waiting
        decreases |waiters|
      {
        var waiter := waiters[0];
        waiters := waiters[1..];
        promises := promises[waiter := Done];
      }
      ended := true;
    }

    /** A call to next(): its number tells which push it will get. */
    method Next() returns (number: nat)
      requires Valid()
      modifies this
      ensures Valid() && ended == old(ended) && accepted == old(accepted)
      ensures number == |old(promises)| && promises == old(promises) + [Expected(number)]
    {
      number := |promises|;
      if buffered != [] {
        promises := promises + [Message(buffered[0])];
        buffered := buffered[1..];
      } else if ended {
        promises := promises + [Done];
      } else {
        waiters := waiters + [number];
        promises := promises + [Waiting];
        SpanSnoc(|accepted|, number);
      }
    }
  }

  lemma {:induction false} SpanSnoc(lo: nat, hi: nat)
    requires lo <= hi
    ensures Span(lo, hi + 1) == Span(lo, hi) + [hi]
    decreases hi - lo
  {
    if lo < hi {
      SpanSnoc(lo + 1, hi);
    }
  }
}
