/**
 * Partitioning of a time range `[start, end)` into fixed-size windows, and the
 * grouping of windows into batches of bounded size, as the fetch drivers of
 * fetcher/loggly.py and fetcher/logly.py do it. Timestamps are integers in
 * microseconds, the resolution of Python's `datetime`.
 */
module TimeWindows {

  const MICROS_PER_SECOND := 1000000

  /** The half-open interval `[start, end)`. */
  datatype Window = Window(start: int, end: int)

  function Min(a: int, b: int): int
  {
    if a <= b then a else b
  }

  /**
   * The windows `[s, min(s + delta, end))` for `s = start, start + delta, …`
   * while `s < end`. An empty range has no windows, whatever `delta` is.
   */
  function Windows(start: int, end: int, delta: int): seq<Window>
    requires start < end ==> delta > 0
    decreases end - start
  {
    if start < end then [Window(start, Min(start + delta, end))] + Windows(start + delta, end, delta)
    else []
  }

  /**
   * There are no windows exactly when the range is empty; otherwise the first
   * starts at `start` and the last ends at `end`. Every window is non-empty,
   * lies inside the range, and is at most `delta` long; all but the last are
   * exactly `delta` long and end where the next one starts.
   */
  lemma WindowsShape(start: int, end: int, delta: int)
    requires delta > 0
    ensures var ws := Windows(start, end, delta);
      && (ws == [] <==> start >= end)
      && (ws != [] ==> ws[0].start == start && ws[|ws| - 1].end == end)
      && (forall i :: 0 <= i < |ws| ==> start <= ws[i].start < ws[i].end <= end)
      && (forall i :: 0 <= i < |ws| ==> ws[i].end - ws[i].start <= delta)
      && (forall i :: 0 <= i < |ws| - 1 ==> ws[i].end - ws[i].start == delta && ws[i].end == ws[i + 1].start)
  {
    WindowsEnds(start, end, delta);
    WindowsInside(start, end, delta, Windows(start, end, delta));
    WindowsSteps(start, end, delta, Windows(start, end, delta));
  }

  /** No windows exactly for an empty range; else the first starts at `start` and the last ends at `end`. */
  lemma {:induction false} WindowsEnds(start: int, end: int, delta: int)
    requires delta > 0
    ensures var ws := Windows(start, end, delta);
      && (ws == [] <==> start >= end)
      && (ws != [] ==> ws[0].start == start && ws[|ws| - 1].end == end)
    decreases end - start
  {
    if start < end {
      WindowsEnds(start + delta, end, delta);
    }
  }

  /** Every window is non-empty, lies inside the range and is at most `delta` long. */
  lemma {:induction false} WindowsInside(start: int, end: int, delta: int, ws: seq<Window>)
    requires delta > 0 && ws == Windows(start, end, delta)
    ensures forall i :: 0 <= i < |ws| ==> start <= ws[i].start < ws[i].end <= end && ws[i].end - ws[i].start <= delta
    decreases end - start
  {
    if start < end {
      var rest := Windows(start + delta, end, delta);
      WindowsInside(start + delta, end, delta, rest);
      assert ws == [Window(start, Min(start + delta, end))] + rest;
      forall i | 0 < i < |ws|
        ensures start <= ws[i].start < ws[i].end <= end && ws[i].end - ws[i].start <= delta
      {
        assert ws[i] == rest[i - 1];
      }
    }
  }

  /** All windows but the last are exactly `delta` long and end where the next one starts. */
  lemma {:induction false} WindowsSteps(start: int, end: int, delta: int, ws: seq<Window>)
    requires delta > 0 && ws == Windows(start, end, delta)
    ensures forall i :: 0 <= i < |ws| - 1 ==> ws[i].end - ws[i].start == delta && ws[i].end == ws[i + 1].start
    decreases end - start
  {
    if start < end {
      var rest := Windows(start + delta, end, delta);
      WindowsSteps(start + delta, end, delta, rest);
      WindowsEnds(start + delta, end, delta);
      assert ws == [Window(start, Min(start + delta, end))] + rest;
      forall i | 0 <= i < |ws| - 1
        ensures ws[i].end - ws[i].start == delta && ws[i].end == ws[i + 1].start
      {
        assert ws[i + 1] == rest[i];
        if i > 0 {
          assert ws[i] == rest[i - 1];
        }
      }
    }
  }

  /** Some window of `ws` contains the instant `t`. */
  ghost predicate Covered(ws: seq<Window>, t: int)
  {
    exists i :: 0 <= i < |ws| && ws[i].start <= t < ws[i].end
  }

  /** Every instant of `[start, end)` lies in some window. */
  lemma {:induction false} WindowsCover(start: int, end: int, delta: int, t: int)
    requires delta > 0 && start <= t < end
    ensures Covered(Windows(start, end, delta), t)
    decreases end - start
  {
    var ws := Windows(start, end, delta);
    if t >= start + delta {
      WindowsCover(start + delta, end, delta, t);
      var rest := Windows(start + delta, end, delta);
      var i :| 0 <= i < |rest| && rest[i].start <= t < rest[i].end;
      assert ws[i + 1] == rest[i];
    } else {
      assert 0 < |ws| && ws[0].start <= t < ws[0].end;
    }
  }

  /** Windows do not overlap, and they come in increasing time order. */
  lemma {:induction false} WindowsDisjoint(start: int, end: int, delta: int)
    requires delta > 0
    ensures var ws := Windows(start, end, delta);
      forall i, j :: 0 <= i < j < |ws| ==> ws[i].end <= ws[j].start
    decreases end - start
  {
    if start < end {
      var ws := Windows(start, end, delta);
      var rest := Windows(start + delta, end, delta);
      WindowsDisjoint(start + delta, end, delta);
      WindowsShape(start + delta, end, delta);
      forall i, j | 0 <= i < j < |ws| ensures ws[i].end <= ws[j].start {
        assert ws[j] == rest[j - 1];
        if i > 0 {
          assert ws[i] == rest[i - 1];
        }
      }
    }
  }

  /** The windows of the batches, in batch order (`tasks` lists flushed one after another). */
  function Flatten<T>(batches: seq<seq<T>>): seq<T>
  {
    if batches == [] then [] else Flatten(batches[..|batches| - 1]) + batches[|batches| - 1]
  }

  lemma FlattenAppend<T>(batches: seq<seq<T>>, b: seq<T>)
    ensures Flatten(batches + [b]) == Flatten(batches) + b
  {
    assert (batches + [b])[..|batches|] == batches;
  }

  /** The number of tasks gathered at once for a concurrency setting: never less than one. */
  function BatchSize(maxConcurrency: int): (k: int)
    ensures k >= 1 && k >= maxConcurrency
    ensures maxConcurrency >= 1 ==> k == maxConcurrency
  {
    if maxConcurrency < 1 then 1 else maxConcurrency
  }

  /** Consecutive non-empty batches of at most `k`, all but the last exactly `k`. */
  ghost predicate Batched<T>(batches: seq<seq<T>>, k: int)
  {
    && (forall i :: 0 <= i < |batches| ==> 0 < |batches[i]| <= k)
    && (forall i :: 0 <= i < |batches| - 1 ==> |batches[i]| == k)
  }
}
