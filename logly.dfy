/**
 * The sequential window fetcher of fetcher/logly.py. Each window costs a
 * search request and an events request; the remote side is abstracted as a
 * function from a window to the events response, or to nothing when either
 * request fails (`raise_for_status` raises).
 */
module Logly {
  import opened Common
  import opened Fetching
  import opened TimeWindows

  /** The remote side returns at most this many events per search. */
  const MAX_RECORD_SIZE := 5000
  const DEFAULT_INTERVAL_SECS := 5

  /** The JSON of an events response: `total_events` and the `events` list. */
  datatype EventsResponse<E> = EventsResponse(totalEvents: int, events: seq<E>)

  /**
   * What fetching the windows `ws` one after another posts, and whether it
   * completes: each window posts its `events` list, and the first window
   * whose requests fail ends the fetch.
   */
  function Sequential<E>(server: Window -> Option<EventsResponse<E>>, ws: seq<Window>): Fetched<E>
    decreases |ws|
  {
    if ws == [] then Fetched([], true)
    else match server(ws[0])
      case None => Fetched([], false)
      case Some(resp) =>
        var rest := Sequential(server, ws[1..]);
        Fetched([resp.events] + rest.posts, rest.ok)
  }

  /** The fetch of the windows from `start` on, after the event lists `sofar` have been posted. */
  function SequentialAfter<E>(server: Window -> Option<EventsResponse<E>>, start: int, endTime: int, delta: int,
                              sofar: seq<seq<E>>): Fetched<E>
    requires start < endTime ==> delta > 0
  {
    var rest := Sequential(server, Windows(start, endTime, delta));
    Fetched(sofar + rest.posts, rest.ok)
  }

  /**
   * One step of the fetch loop: past the end nothing is left; a window whose
   * requests fail ends the fetch with what was posted so far; a window that
   * succeeds adds its events and moves on by `delta`.
   */
  lemma SequentialStep<E>(server: Window -> Option<EventsResponse<E>>, start: int, endTime: int, delta: int,
                          sofar: seq<seq<E>>)
    requires start < endTime ==> delta > 0
    ensures start >= endTime ==> SequentialAfter(server, start, endTime, delta, sofar) == Fetched(sofar, true)
    ensures var w := Window(start, Min(start + delta, endTime));
      start < endTime && server(w).None? ==>
        SequentialAfter(server, start, endTime, delta, sofar) == Fetched(sofar, false)
    ensures var w := Window(start, Min(start + delta, endTime));
      start < endTime && server(w).Some? ==>
        SequentialAfter(server, start, endTime, delta, sofar)
          == SequentialAfter(server, start + delta, endTime, delta, sofar + [server(w).value.events])
  {
    var ws := Windows(start, endTime, delta);
    if start >= endTime {
      assert sofar + [] == sofar;
    } else {
      var w := Window(start, Min(start + delta, endTime));
      assert ws[0] == w && ws[1..] == Windows(start + delta, endTime, delta);
      if server(w).None? {
        assert sofar + [] == sofar;
      } else {
        var tail := Sequential(server, ws[1..]).posts;
        assert sofar + ([server(w).value.events] + tail) == sofar + [server(w).value.events] + tail;
      }
    }
  }

  /** Putting data items never adds a sentinel to the queue. */
  lemma PutsKeepSentinel<E>(q: seq<Slot<E>>, xs: seq<E>)
    ensures Sentinel in q + Puts(xs) <==> Sentinel in q
  {
    PutsAt(xs);
  }

  /**
   * The posted event lists are those of the first windows, in window order;
   * the fetch completes exactly when every window's requests succeed, and
   * otherwise it stopped right at the first window whose requests failed.
   */
  lemma {:induction false} SequentialOrder<E>(server: Window -> Option<EventsResponse<E>>, ws: seq<Window>)
    ensures var r := Sequential(server, ws);
      && |r.posts| <= |ws|
      && (forall i :: 0 <= i < |r.posts| ==> server(ws[i]).Some? && r.posts[i] == server(ws[i]).value.events)
      && (r.ok <==> forall i :: 0 <= i < |ws| ==> server(ws[i]).Some?)
      && (r.ok ==> |r.posts| == |ws|)
      && (!r.ok ==> |r.posts| < |ws| && server(ws[|r.posts|]).None?)
    decreases |ws|
  {
    if ws != [] {
      SequentialOrder(server, ws[1..]);
      var r := Sequential(server, ws);
      if server(ws[0]).Some? {
        assert r.posts[1..] == Sequential(server, ws[1..]).posts;
        assert forall i :: 1 <= i < |ws| ==> ws[i] == ws[1..][i - 1];
      }
    }
  }

  /** The LoglyFetcher: one window at a time, with no end-of-data signal. */
  class LoglyFetcher<E> {
    const baseUri: string
    const queryParam: string
    const authToken: string
    const sourceGroup: string
    /** The queue handed in by the caller, as the sequence of everything put on it. */
    var queue: seq<Slot<seq<E>>>
    const intervalSecs: int

    constructor (baseUri: string, queryParam: string, authToken: string, sourceGroup: string, resultQueue: seq<Slot<seq<E>>>)
      ensures this.baseUri == baseUri && this.queryParam == queryParam
      ensures this.authToken == authToken && this.sourceGroup == sourceGroup
      ensures queue == resultQueue
      ensures intervalSecs == DEFAULT_INTERVAL_SECS
    {
      this.baseUri := baseUri;
      this.queryParam := queryParam;
      this.authToken := authToken;
      this.sourceGroup := sourceGroup;
      queue := resultQueue;
      intervalSecs := DEFAULT_INTERVAL_SECS;
    }

    /**
     * `putData`: put the `events` list on the queue unchanged. A response
     * with more than `MAX_RECORD_SIZE` events only raises the warning.
     */
    method PutData(json: EventsResponse<E>) returns (warned: bool)
      modifies this
      ensures warned <==> json.totalEvents > MAX_RECORD_SIZE
      ensures queue == old(queue) + [Put(json.events)]
    {
      warned := json.totalEvents > MAX_RECORD_SIZE;
      queue := queue + [Put(json.events)];
    }

    /** `fetchTimeRange`: the response for one window is posted; a failed request raises. */
    method FetchTimeRange(resp: Option<EventsResponse<E>>) returns (outcome: Outcome)
      modifies this
      ensures outcome.Pass? <==> resp.Some?
      ensures queue == old(queue) + if resp.Some? then [Put(resp.value.events)] else []
    {
      if resp.None? {
        assert queue + [] == queue;
        return Fail("request failed");
      }
      var _ := PutData(resp.value);
      outcome := Pass;
    }

    /**
     * One round of the `fetch` loop: the window at `start` is fetched, and
     * the event lists posted so far grow from `sofar` to `posted`.
     */
    method FetchNext(start: int, endTime: int, delta: int, server: Window -> Option<EventsResponse<E>>,
                     ghost q0: seq<Slot<seq<E>>>, ghost sofar: seq<seq<E>>)
      returns (outcome: Outcome, ghost posted: seq<seq<E>>)
      requires start < endTime && delta > 0
      requires queue == q0 + Puts(sofar)
      modifies this
      ensures queue == q0 + Puts(posted)
      ensures outcome.Fail? ==> posted == sofar && SequentialAfter(server, start, endTime, delta, sofar) == Fetched(sofar, false)
      ensures outcome.Pass? ==>
        SequentialAfter(server, start, endTime, delta, sofar) == SequentialAfter(server, start + delta, endTime, delta, posted)
    {
      var w := Window(start, Min(start + delta, endTime));
      SequentialStep(server, start, endTime, delta, sofar);
      outcome := FetchTimeRange(server(w));
      if outcome.Fail? {
        posted := sofar;
        return;
      }
      posted := sofar + [server(w).value.events];
      PutsAppend(sofar, [server(w).value.events]);
    }

    /**
     * `fetch`: the windows of `[startTime, endTime)`, `intervalSecs` seconds
     * long, fetched strictly one after another. Nothing else is put on the
     * queue: no sentinel is ever posted.
     */
    method Fetch(startTime: int, endTime: int, server: Window -> Option<EventsResponse<E>>,
                 intervalSecs: int := DEFAULT_INTERVAL_SECS)
      returns (outcome: Outcome)
      requires startTime < endTime ==> intervalSecs > 0
      modifies this
      ensures var r := Sequential(server, Windows(startTime, endTime, intervalSecs * MICROS_PER_SECOND));
        && queue == old(queue) + Puts(r.posts)
        && (outcome.Pass? <==> r.ok)
      ensures Sentinel in queue <==> Sentinel in old(queue)
    {
      var delta := intervalSecs * MICROS_PER_SECOND;
      ghost var sofar: seq<seq<E>> := [];
      var start := startTime;
      ghost var target := Sequential(server, Windows(startTime, endTime, delta));
      assert [] + target.posts == target.posts;
      while start < endTime
        invariant start < endTime ==> delta > 0
        invariant queue == old(queue) + Puts(sofar)
        invariant target == SequentialAfter(server, start, endTime, delta, sofar)
        decreases endTime - start
      {
        outcome, sofar := FetchNext(start, endTime, delta, server, old(queue), sofar);
        if outcome.Fail? {
          PutsKeepSentinel(old(queue), sofar);
          return;
        }
        start := start + delta;
      }
      assert target == Fetched(sofar, true) by {
        SequentialStep(server, start, endTime, delta, sofar);
      }
      PutsKeepSentinel(old(queue), sofar);
      outcome := Pass;
    }
  }
}
