/** The `multiprocessing` queue the stages share.

    The stages run one after another (forecasting.py:22-24), so the queue is
    a FIFO sequence of items; `None` entries are the end-of-stream sentinels
    the producers put.  `Get` models `get(block=True, timeout=0)`: on an empty
    queue it raises `queue.Empty` instead of waiting. */
module Channel {
  import opened Wrappers

  datatype QueueError = Empty

  class Queue<T> {
    var contents: seq<Option<T>>

    constructor ()
      ensures contents == []
    {
      contents := [];
    }

    /** `queue.put(item)`. */
    method Put(item: Option<T>)
      modifies this
      ensures contents == old(contents) + [item]
    {
      contents := contents + [item];
    }

    /** `queue.get(...)`: the oldest item, or `Empty`. */
    method Get() returns (r: Result<Option<T>, QueueError>)
      modifies this
      ensures old(contents) == [] ==> r == Failure(Empty) && contents == []
      ensures old(contents) != [] ==> r == Success(old(contents)[0]) && contents == old(contents)[1..]
    {
      if contents == [] {
        r := Failure(Empty);
      } else {
        r := Success(contents[0]);
        contents := contents[1..];
      }
    }
  }

  /** The position of the first sentinel, or |q| when there is none. */
  function SentinelIndex<T>(q: seq<Option<T>>): (n: nat)
    ensures n <= |q|
    ensures n < |q| ==> q[n].None?
    ensures forall i :: 0 <= i < n ==> q[i].Some?
  {
    if q == [] || q[0].None? then 0 else 1 + SentinelIndex(q[1..])
  }

  /** The values of a sequence of present items. */
  function Values<T>(q: seq<Option<T>>): (r: seq<T>)
    requires forall i :: 0 <= i < |q| ==> q[i].Some?
    ensures |r| == |q|
    ensures forall i :: 0 <= i < |q| ==> q[i] == Some(r[i])
  {
    seq(|q|, i requires 0 <= i < |q| => q[i].value)
  }

  /** The items a drain loop collects: everything before the first sentinel. */
  function BeforeSentinel<T>(q: seq<Option<T>>): seq<T> {
    Values(q[..SentinelIndex(q)])
  }

  /** What a drain loop leaves in the queue: everything after the first
      sentinel, or nothing when there is no sentinel. */
  function AfterSentinel<T>(q: seq<Option<T>>): seq<Option<T>> {
    var n := SentinelIndex(q);
    if n < |q| then q[n + 1..] else []
  }

  /** The queue entries `queue.put(x)` adds for each x of `xs`. */
  function Items<T>(xs: seq<T>): (q: seq<Option<T>>)
    ensures |q| == |xs|
    ensures forall i :: 0 <= i < |xs| ==> q[i] == Some(xs[i])
  {
    seq(|xs|, i requires 0 <= i < |xs| => Some(xs[i]))
  }

  /** Loop helper: putting one more item extends the entries by one. */
  lemma ItemsSnoc<T>(xs: seq<T>, i: nat)
    requires i < |xs|
    ensures Items(xs[..i + 1]) == Items(xs[..i]) + [Some(xs[i])]
  {
  }

  /** Items put as `xs` followed by a sentinel are drained as exactly `xs`,
      whatever was put after the sentinel. */
  lemma {:induction false} DrainAfterPuts<T>(xs: seq<T>, rest: seq<Option<T>>)
    ensures SentinelIndex(Items(xs) + [None] + rest) == |xs|
    ensures BeforeSentinel(Items(xs) + [None] + rest) == xs
    ensures AfterSentinel(Items(xs) + [None] + rest) == rest
  {
    var q := Items(xs) + [None] + rest;
    if xs != [] {
      DrainAfterPuts(xs[1..], rest);
      assert q[1..] == Items(xs[1..]) + [None] + rest;
    }
    assert q[..|xs|] == Items(xs);
    assert q[|xs| + 1..] == rest;
  }
}
