/**
 * The fetcher base (fetcher/fetcher.py): a queue shared with the consumer,
 * a `finished` flag, the concurrency and retry settings, and the end-of-data
 * signal. The asynchronous queue is modelled as the sequence of everything
 * ever put on it.
 */
module Fetching {
  import opened Text

  const DEFAULT_MAX_CONCURRENCY := 8
  const DEFAULT_MAX_RETRIES := 3

  /** One queue item: data, or the `None` sentinel that ends the stream. */
  datatype Slot<+T> = Sentinel | Put(item: T)

  /** The queue items for putting each of `xs` in turn. */
  function Puts<T>(xs: seq<T>): (r: seq<Slot<T>>)
    ensures |r| == |xs|
  {
    if xs == [] then [] else [Put(xs[0])] + Puts(xs[1..])
  }

  /** The i-th queue item puts the i-th value, and no sentinel is among them. */
  lemma {:induction false} PutsAt<T>(xs: seq<T>)
    ensures forall i :: 0 <= i < |xs| ==> Puts(xs)[i] == Put(xs[i])
    ensures Sentinel !in Puts(xs)
    decreases |xs|
  {
    if xs != [] {
      PutsAt(xs[1..]);
      assert Puts(xs) == [Put(xs[0])] + Puts(xs[1..]);
    }
  }

  lemma PutsAppend<T>(a: seq<T>, b: seq<T>)
    ensures Puts(a + b) == Puts(a) + Puts(b)
  {
    PutsAt(a + b);
    PutsAt(a);
    PutsAt(b);
    assert |Puts(a + b)| == |Puts(a) + Puts(b)|;
    forall i | 0 <= i < |a + b| ensures Puts(a + b)[i] == (Puts(a) + Puts(b))[i] {
      if i >= |a| {
        assert (a + b)[i] == b[i - |a|];
      }
    }
  }

  /** The number of data items (not sentinels) in a queue. */
  function DataCount<T>(q: seq<Slot<T>>): (n: nat)
    ensures n <= |q|
    ensures n == |q| <==> Sentinel !in q
  {
    if q == [] then 0
    else
      assert q == [q[0]] + q[1..];
      (if q[0].Put? then 1 else 0) + DataCount(q[1..])
  }

  /** Counting data items distributes over concatenation. */
  lemma {:induction false} DataCountAppend<T>(a: seq<Slot<T>>, b: seq<Slot<T>>)
    ensures DataCount(a + b) == DataCount(a) + DataCount(b)
    decreases |a|
  {
    if a != [] {
      assert (a + b)[1..] == a[1..] + b;
      DataCountAppend(a[1..], b);
    } else {
      assert a + b == b;
    }
  }

  /** The result of a fetch: the event batches posted, and whether it completed without raising. */
  datatype Fetched<E> = Fetched(posts: seq<seq<E>>, ok: bool)

  class Fetcher<T> {
    var queue: seq<Slot<T>>
    var finished: bool
    const maxConcurrency: int
    const maxRetries: int

    /** `finished` is only ever set once the sentinel is on the queue. */
    ghost predicate Valid()
      reads this
    {
      finished ==> Sentinel in queue
    }

    /** A fetcher posting to the caller's queue, as the sequence of what is on it so far. */
    constructor (resultQueue: seq<Slot<T>>, maxConcurrency: int := DEFAULT_MAX_CONCURRENCY,
                 maxRetries: int := DEFAULT_MAX_RETRIES)
      ensures Valid()
      ensures queue == resultQueue && !finished
      ensures this.maxConcurrency == maxConcurrency && this.maxRetries == maxRetries
    {
      this.maxConcurrency := maxConcurrency;
      this.maxRetries := maxRetries;
      queue := resultQueue;
      finished := false;
    }

    /** Whether all data were fetched; once it says so, the sentinel has been posted. */
    function IsFinished(): (r: bool)
      reads this
      requires Valid()
      ensures r ==> Sentinel in queue
    {
      finished
    }

    /** Signal that fetching is complete: post the sentinel, then set `finished`. */
    method Done()
      requires Valid()
      modifies this
      ensures Valid()
      ensures queue == old(queue) + [Sentinel]
      ensures finished
    {
      queue := queue + [Sentinel];
      finished := true;
    }
  }

  /** The `+00:00` → `Z` rewrite applied to the ISO-8601 text of a timestamp. */
  function GetUtcStr(iso: string): string
  {
    ReplaceAll(iso, "+00:00", "Z")
  }

  /** A UTC timestamp ends in `Z` instead of `+00:00`; the rest of its text is kept. */
  lemma GetUtcStrUtc(body: string)
    requires '+' !in body
    ensures GetUtcStr(body + "+00:00") == body + "Z"
  {
    ReplaceAllSuffix(body, "+00:00", "Z");
  }

  /** Text without a `+00:00` offset (another offset, or none) is left unchanged. */
  lemma GetUtcStrOtherOffset(iso: string)
    requires !Occurs(iso, "+00:00")
    ensures GetUtcStr(iso) == iso
  {
    ReplaceAllAbsent(iso, "+00:00", "Z");
  }
}
