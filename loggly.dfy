/**
 * The paginated, windowed fetch driver of fetcher/loggly.py. HTTP is replaced
 * by abstract outcomes: for each window, the remote side is a chain of page
 * requests, and each request is a sequence of attempts, each of which either
 * fails (network error or non-2xx status) or returns a page.
 */
module Loggly {
  import opened Common
  import opened Fetching
  import opened TimeWindows

  const MAX_RECORD_SIZE := 1000
  const FETCH_INTERVAL_SECS := 5 * 60
  const ITERATE_PATH := "events/iterate"

  /** One JSON response: its `events` list and its `next` link (`""` when absent). */
  datatype Page<E> = Page(events: seq<E>, next: string)

  /** The outcome of the n-th HTTP attempt of one request. */
  type Attempts<E> = nat -> Option<Page<E>>

  /** The index of the first successful attempt in `[from, limit)`, if any. */
  function FirstSuccess<E>(attempts: Attempts<E>, from: nat, limit: int): (r: Option<nat>)
    ensures r.Some? ==> from <= r.value < limit && attempts(r.value).Some?
    ensures forall j :: from <= j < limit && (r.None? || j < r.value) ==> attempts(j).None?
    decreases limit - from
  {
    if from >= limit then None
    else if attempts(from).Some? then Some(from)
    else FirstSuccess(attempts, from + 1, limit)
  }

  /**
   * What `_fetchJson` returns: `tries` starts at 1 and the loop runs while
   * `tries < maxRetries`, so only attempts `0 .. maxRetries - 2` are made.
   */
  function FetchResult<E>(attempts: Attempts<E>, maxRetries: int): Option<Page<E>>
  {
    match FirstSuccess(attempts, 0, maxRetries - 1)
    case None => None
    case Some(i) => attempts(i)
  }

  /**
   * The chain of page requests of one window ends: the last request, if it
   * succeeds, returns a page without a `next` link. (A chain of `next` links
   * that never ends would keep `_fetchTimeRange` looping forever.)
   */
  ghost predicate ClosedChain<E>(chain: seq<Attempts<E>>, maxRetries: int)
  {
    && |chain| > 0
    && var last := FetchResult(chain[|chain| - 1], maxRetries);
       last.Some? ==> last.value.next == ""
  }

  /**
   * What `_fetchTimeRange` posts for one window from page request `i` on, and
   * whether it completes. (A closed chain never runs past its end.)
   */
  function Paginate<E>(chain: seq<Attempts<E>>, i: nat, maxRetries: int): (r: Fetched<E>)
    decreases |chain| - i
  {
    if i >= |chain| then Fetched([], true)
    else match FetchResult(chain[i], maxRetries)
    case None => Fetched([], false)
    case Some(page) =>
      if page.next == "" then Fetched([page.events], true)
      else
        var rest := Paginate(chain, i + 1, maxRetries);
        Fetched([page.events] + rest.posts, rest.ok)
  }

  /** A page with a `next` link is followed by the next request, which exists in a closed chain. */
  lemma PaginateFollow<E>(chain: seq<Attempts<E>>, i: nat, maxRetries: int)
    requires ClosedChain(chain, maxRetries) && i < |chain|
    requires FetchResult(chain[i], maxRetries).Some? && FetchResult(chain[i], maxRetries).value.next != ""
    ensures i + 1 < |chain|
    ensures Paginate(chain, i, maxRetries)
         == Fetched([FetchResult(chain[i], maxRetries).value.events] + Paginate(chain, i + 1, maxRetries).posts,
                    Paginate(chain, i + 1, maxRetries).ok)
  {
  }

  /**
   * One step of pagination from request `i`, seen from the pages `sofar`
   * already posted: a failed request ends it unfinished, a page without a
   * `next` link ends it finished, and any other page is followed.
   */
  lemma PaginateStep<E>(chain: seq<Attempts<E>>, i: nat, maxRetries: int, sofar: seq<seq<E>>)
    requires ClosedChain(chain, maxRetries) && i < |chain|
    ensures var p := Paginate(chain, i, maxRetries);
      var res := FetchResult(chain[i], maxRetries);
      && (res.None? ==> Fetched(sofar + p.posts, p.ok) == Fetched(sofar, false))
      && (res.Some? && res.value.next == "" ==> Fetched(sofar + p.posts, p.ok) == Fetched(sofar + [res.value.events], true))
      && (res.Some? && res.value.next != "" ==>
            && i + 1 < |chain|
            && Fetched(sofar + p.posts, p.ok)
               == Fetched(sofar + [res.value.events] + Paginate(chain, i + 1, maxRetries).posts, Paginate(chain, i + 1, maxRetries).ok))
  {
    var res := FetchResult(chain[i], maxRetries);
    if res.None? {
      assert sofar + [] == sofar;
    } else if res.value.next != "" {
      PaginateFollow(chain, i, maxRetries);
      assert sofar + ([res.value.events] + Paginate(chain, i + 1, maxRetries).posts)
          == sofar + [res.value.events] + Paginate(chain, i + 1, maxRetries).posts;
    }
  }

  /** Pagination posts the `events` of successive pages, in page order, one batch per page. */
  lemma {:induction false} PaginatePosts<E>(chain: seq<Attempts<E>>, i: nat, maxRetries: int)
    requires ClosedChain(chain, maxRetries) && i < |chain|
    ensures var r := Paginate(chain, i, maxRetries);
      && i + |r.posts| <= |chain|
      && forall n :: i <= n < i + |r.posts| ==>
           FetchResult(chain[n], maxRetries).Some? && r.posts[n - i] == FetchResult(chain[n], maxRetries).value.events
    decreases |chain| - i
  {
    var res := FetchResult(chain[i], maxRetries);
    if res.Some? && res.value.next != "" {
      PaginateFollow(chain, i, maxRetries);
      PaginatePosts(chain, i + 1, maxRetries);
      assert Paginate(chain, i, maxRetries).posts[1..] == Paginate(chain, i + 1, maxRetries).posts;
    }
  }

  /** Every posted page but the last carried a `next` link. */
  lemma {:induction false} PaginateLinks<E>(chain: seq<Attempts<E>>, i: nat, maxRetries: int)
    requires ClosedChain(chain, maxRetries) && i < |chain|
    ensures var r := Paginate(chain, i, maxRetries);
      forall n :: i <= n < i + |r.posts| - 1 ==>
        n < |chain| && FetchResult(chain[n], maxRetries).Some? && FetchResult(chain[n], maxRetries).value.next != ""
    decreases |chain| - i
  {
    var res := FetchResult(chain[i], maxRetries);
    if res.Some? && res.value.next != "" {
      PaginateFollow(chain, i, maxRetries);
      PaginateLinks(chain, i + 1, maxRetries);
    }
  }

  /**
   * Pagination completes exactly when it reaches a page without a `next`
   * link; otherwise it stopped at a request whose retries were exhausted,
   * right after the pages it posted.
   */
  lemma {:induction false} PaginateEnd<E>(chain: seq<Attempts<E>>, i: nat, maxRetries: int)
    requires ClosedChain(chain, maxRetries) && i < |chain|
    ensures var r := Paginate(chain, i, maxRetries);
      var last := i + |r.posts| - 1;
      && (r.ok <==> |r.posts| > 0 && last < |chain| && FetchResult(chain[last], maxRetries).Some?
                    && FetchResult(chain[last], maxRetries).value.next == "")
      && (!r.ok ==> last + 1 < |chain| && FetchResult(chain[last + 1], maxRetries).None?)
    decreases |chain| - i
  {
    var res := FetchResult(chain[i], maxRetries);
    if res.Some? && res.value.next != "" {
      PaginateFollow(chain, i, maxRetries);
      PaginateEnd(chain, i + 1, maxRetries);
    }
  }

  /**
   * What the first `j` windows of `ws`, fetched one after another, post, and
   * whether all of them complete; the first window that raises ends the fetch.
   */
  function FetchUpTo<E>(server: Window -> seq<Attempts<E>>, ws: seq<Window>, j: nat, maxRetries: int): Fetched<E>
    requires j <= |ws|
    decreases j
  {
    if j == 0 then Fetched([], true)
    else
      var before := FetchUpTo(server, ws, j - 1, maxRetries);
      if !before.ok then before
      else
        var page := Paginate(server(ws[j - 1]), 0, maxRetries);
        Fetched(before.posts + page.posts, page.ok)
  }

  /** What all of the windows `ws` post, and whether they all complete. */
  function FetchAll<E>(server: Window -> seq<Attempts<E>>, ws: seq<Window>, maxRetries: int): Fetched<E>
  {
    FetchUpTo(server, ws, |ws|, maxRetries)
  }

  /** Only the first `j` windows matter to what they post. */
  lemma {:induction false} FetchUpToPrefix<E>(server: Window -> seq<Attempts<E>>, a: seq<Window>, b: seq<Window>, j: nat, maxRetries: int)
    requires j <= |a| && j <= |b| && a[..j] == b[..j]
    ensures FetchUpTo(server, a, j, maxRetries) == FetchUpTo(server, b, j, maxRetries)
    decreases j
  {
    if j > 0 {
      assert a[..j - 1] == a[..j][..j - 1] && b[..j - 1] == b[..j][..j - 1];
      assert a[j - 1] == a[..j][j - 1] && b[j - 1] == b[..j][j - 1];
      FetchUpToPrefix(server, a, b, j - 1, maxRetries);
    }
  }

  /** Once one of the first `j` windows has raised, later windows add nothing. */
  lemma {:induction false} FetchUpToStops<E>(server: Window -> seq<Attempts<E>>, ws: seq<Window>, j: nat, k: nat, maxRetries: int)
    requires j <= k <= |ws| && !FetchUpTo(server, ws, j, maxRetries).ok
    ensures FetchUpTo(server, ws, k, maxRetries) == FetchUpTo(server, ws, j, maxRetries)
    decreases k
  {
    if k > j {
      FetchUpToStops(server, ws, j, k - 1, maxRetries);
    }
  }

  /** Fetching one more window: nothing more once a window has raised, else that window's pages. */
  lemma FetchAllSnoc<E>(server: Window -> seq<Attempts<E>>, ws: seq<Window>, w: Window, maxRetries: int)
    ensures var before := FetchAll(server, ws, maxRetries);
      var page := Paginate(server(w), 0, maxRetries);
      FetchAll(server, ws + [w], maxRetries)
        == if !before.ok then before else Fetched(before.posts + page.posts, page.ok)
  {
    assert (ws + [w])[..|ws|] == ws[..|ws|];
    assert (ws + [w])[|ws|] == w;
    FetchUpToPrefix(server, ws + [w], ws, |ws|, maxRetries);
  }

  /** Once a window has raised, later windows add nothing. */
  lemma FetchAllStops<E>(server: Window -> seq<Attempts<E>>, ws: seq<Window>, more: seq<Window>, maxRetries: int)
    requires !FetchAll(server, ws, maxRetries).ok
    ensures FetchAll(server, ws + more, maxRetries) == FetchAll(server, ws, maxRetries)
  {
    assert (ws + more)[..|ws|] == ws[..|ws|];
    FetchUpToPrefix(server, ws + more, ws, |ws|, maxRetries);
    FetchUpToStops(server, ws + more, |ws|, |ws + more|, maxRetries);
  }

  /**
   * Fetching `a` and then `b` is fetching `a + b`: `b` is fetched only when
   * `a` completed, and its pages follow those of `a`.
   */
  lemma {:induction false} FetchAllAppend<E>(server: Window -> seq<Attempts<E>>, a: seq<Window>, b: seq<Window>, maxRetries: int)
    ensures var fa := FetchAll(server, a, maxRetries);
      var fb := FetchAll(server, b, maxRetries);
      FetchAll(server, a + b, maxRetries) == if !fa.ok then fa else Fetched(fa.posts + fb.posts, fb.ok)
    decreases |b|
  {
    var fa := FetchAll(server, a, maxRetries);
    if b == [] {
      assert a + b == a;
      assert fa.posts + [] == fa.posts;
    } else {
      var init := b[..|b| - 1];
      var w := b[|b| - 1];
      assert a + b == (a + init) + [w];
      assert init + [w] == b;
      FetchAllAppend(server, a, init, maxRetries);
      FetchAllSnoc(server, a + init, w, maxRetries);
      FetchAllSnoc(server, init, w, maxRetries);
      if fa.ok && FetchAll(server, init, maxRetries).ok {
        var fi := FetchAll(server, init, maxRetries);
        var page := Paginate(server(w), 0, maxRetries);
        assert (fa.posts + fi.posts) + page.posts == fa.posts + (fi.posts + page.posts);
      }
    }
  }

  /** After windows that completed, the next batch's posts follow theirs and decide completion. */
  lemma FetchAllThen<E>(server: Window -> seq<Attempts<E>>, done: seq<Window>, batch: seq<Window>, maxRetries: int)
    requires FetchAll(server, done, maxRetries).ok
    ensures FetchAll(server, done + batch, maxRetries).ok == FetchAll(server, batch, maxRetries).ok
    ensures Puts(FetchAll(server, done + batch, maxRetries).posts)
         == Puts(FetchAll(server, done, maxRetries).posts) + Puts(FetchAll(server, batch, maxRetries).posts)
  {
    FetchAllAppend(server, done, batch, maxRetries);
    PutsAppend(FetchAll(server, done, maxRetries).posts, FetchAll(server, batch, maxRetries).posts);
  }

  /** Fetching window `j` after the first `j` completed: its pages follow, and it decides completion. */
  lemma FetchUpToNext<E>(q: seq<Slot<seq<E>>>, server: Window -> seq<Attempts<E>>, ws: seq<Window>, j: nat, maxRetries: int)
    requires j < |ws| && FetchUpTo(server, ws, j, maxRetries).ok
    ensures var page := Paginate(server(ws[j]), 0, maxRetries);
      && FetchUpTo(server, ws, j + 1, maxRetries).ok == page.ok
      && q + Puts(FetchUpTo(server, ws, j + 1, maxRetries).posts)
         == q + Puts(FetchUpTo(server, ws, j, maxRetries).posts) + Puts(page.posts)
  {
    PutsAppend(FetchUpTo(server, ws, j, maxRetries).posts, Paginate(server(ws[j]), 0, maxRetries).posts);
  }

  /** The first `j` windows complete exactly when each of their paginations completes. */
  lemma {:induction false} FetchUpToOk<E>(server: Window -> seq<Attempts<E>>, ws: seq<Window>, j: nat, maxRetries: int)
    requires j <= |ws|
    ensures FetchUpTo(server, ws, j, maxRetries).ok <==> forall i :: 0 <= i < j ==> Paginate(server(ws[i]), 0, maxRetries).ok
    decreases j
  {
    if j > 0 {
      FetchUpToOk(server, ws, j - 1, maxRetries);
    }
  }

  /** All windows complete exactly when each window's pagination completes. */
  lemma FetchAllOk<E>(server: Window -> seq<Attempts<E>>, ws: seq<Window>, maxRetries: int)
    ensures FetchAll(server, ws, maxRetries).ok <==> forall i :: 0 <= i < |ws| ==> Paginate(server(ws[i]), 0, maxRetries).ok
  {
    FetchUpToOk(server, ws, |ws|, maxRetries);
  }

  /** Moving one element from the front of the rest onto the end of the middle part. */
  lemma Regroup<T>(a: seq<T>, b: seq<T>, x: T, rest: seq<T>)
    ensures a + b + ([x] + rest) == a + (b + [x]) + rest
  {
  }

  /**
   * The state of the window loop of `fetch`: the windows `all` are the
   * windows `prior` of the batches gathered so far, then the pending `tasks`,
   * then the windows `todo` still to come. Every gathered batch is full, and
   * what the gathered windows posted is on the queue after `q0`.
   */
  ghost predicate Scheduled<E>(server: Window -> seq<Attempts<E>>, q0: seq<Slot<seq<E>>>, all: seq<Window>,
                               prior: seq<Window>, tasks: seq<Window>, batches: seq<seq<Window>>, todo: seq<Window>, k: int,
                               queue: seq<Slot<seq<E>>>, maxRetries: int)
  {
    && all == prior + tasks + todo
    && prior == Flatten(batches)
    && (forall i :: 0 <= i < |batches| ==> |batches[i]| == k)
    && |tasks| < k
    && FetchAll(server, prior, maxRetries).ok
    && queue == q0 + Puts(FetchAll(server, prior, maxRetries).posts)
  }

  /** The LogglyFetcher: a Fetcher that pages through the remote API window by window. */
  class LogglyFetcher<E> {
    const fetcher: Fetcher<seq<E>>
    const baseUri: string
    const queryParam: string
    const authToken: string
    const sourceGroup: string
    const intervalSecs: int

    ghost predicate Valid()
      reads this, fetcher
    {
      fetcher.Valid() && intervalSecs > 0
    }

    /** A fetcher with the base defaults: concurrency 8, 3 retries, 5-minute windows. */
    constructor (resultQueue: seq<Slot<seq<E>>>, baseUri: string, queryParam: string, authToken: string, sourceGroup: string)
      ensures Valid() && fresh(fetcher)
      ensures fetcher.queue == resultQueue && !fetcher.finished
      ensures fetcher.maxConcurrency == DEFAULT_MAX_CONCURRENCY && fetcher.maxRetries == DEFAULT_MAX_RETRIES
      ensures intervalSecs == FETCH_INTERVAL_SECS
      ensures this.baseUri == baseUri && this.queryParam == queryParam
      ensures this.authToken == authToken && this.sourceGroup == sourceGroup
    {
      fetcher := new Fetcher(resultQueue);
      this.authToken := authToken;
      this.sourceGroup := sourceGroup;
      this.baseUri := baseUri;
      this.queryParam := queryParam;
      intervalSecs := FETCH_INTERVAL_SECS;
    }

    /**
     * `_fetchJson`: retry one request. It makes at most `maxRetries - 1`
     * attempts and returns the page of the first successful one, or None when
     * they all fail.
     */
    method FetchJson(attempts: Attempts<E>) returns (json: Option<Page<E>>, attempted: nat)
      ensures json == FetchResult(attempts, fetcher.maxRetries)
      ensures attempted <= if fetcher.maxRetries > 1 then fetcher.maxRetries - 1 else 0
      ensures json.Some? ==> attempted >= 1 && json == attempts(attempted - 1)
      ensures forall j :: 0 <= j < attempted && (json.None? || j < attempted - 1) ==> attempts(j).None?
      ensures json.None? ==> attempted == if fetcher.maxRetries > 1 then fetcher.maxRetries - 1 else 0
    {
      var tries := 1;
      attempted := 0;
      while tries < fetcher.maxRetries
        invariant attempted == tries - 1
        invariant tries == 1 || tries <= fetcher.maxRetries
        invariant FirstSuccess(attempts, 0, fetcher.maxRetries - 1) == FirstSuccess(attempts, attempted, fetcher.maxRetries - 1)
        invariant forall j :: 0 <= j < attempted ==> attempts(j).None?
      {
        var resp := attempts(tries - 1);
        attempted := attempted + 1;
        if resp.Some? {
          return resp, attempted;
        }
        tries := tries + 1;
      }
      json := None;
    }

    /** `_putData`: the page's `events` list goes on the queue unchanged, as one item. */
    method PutData(json: Page<E>)
      requires fetcher.Valid()
      modifies fetcher
      ensures fetcher.Valid()
      ensures fetcher.queue == old(fetcher.queue) + [Put(json.events)]
      ensures fetcher.finished == old(fetcher.finished)
    {
      fetcher.queue := fetcher.queue + [Put(json.events)];
    }

    /** `_fetchTimeRange`: follow `next` links for one window, posting each page; raise when a request fails. */
    method FetchTimeRange(chain: seq<Attempts<E>>) returns (outcome: Outcome)
      requires fetcher.Valid() && ClosedChain(chain, fetcher.maxRetries)
      modifies fetcher
      ensures fetcher.Valid()
      ensures fetcher.queue == old(fetcher.queue) + Puts(Paginate(chain, 0, fetcher.maxRetries).posts)
      ensures fetcher.finished == old(fetcher.finished)
      ensures outcome.Pass? <==> Paginate(chain, 0, fetcher.maxRetries).ok
    {
      var mr := fetcher.maxRetries;
      var url := baseUri + ITERATE_PATH;
      var i := 0;
      ghost var sofar: seq<seq<E>> := [];
      ghost var whole := Paginate(chain, 0, mr);
      while url != ""
        invariant i <= |chain| && (url != "" ==> i < |chain|)
        invariant fetcher.Valid() && fetcher.finished == old(fetcher.finished)
        invariant fetcher.queue == old(fetcher.queue) + Puts(sofar)
        invariant url != "" ==> whole == Fetched(sofar + Paginate(chain, i, mr).posts, Paginate(chain, i, mr).ok)
        invariant url == "" ==> whole == Fetched(sofar, true)
        decreases |chain| - i
      {
        var json, _ := FetchJson(chain[i]);
        PaginateStep(chain, i, mr, sofar);
        if json.None? {
          return Fail("fetching data failed with max tries");
        }
        PutData(json.value);
        PutsAppend(sofar, [json.value.events]);
        sofar := sofar + [json.value.events];
        url := json.value.next;
        i := i + 1;
      }
      outcome := Pass;
    }

    /** One turn of the loop of `gather`: the task of window `batch[j]` runs. */
    method GatherNext(server: Window -> seq<Attempts<E>>, batch: seq<Window>, j: nat, ghost q0: seq<Slot<seq<E>>>)
      returns (outcome: Outcome)
      requires j < |batch| && fetcher.Valid() && ClosedChain(server(batch[j]), fetcher.maxRetries)
      requires FetchUpTo(server, batch, j, fetcher.maxRetries).ok
      requires fetcher.queue == q0 + Puts(FetchUpTo(server, batch, j, fetcher.maxRetries).posts)
      modifies fetcher
      ensures fetcher.Valid() && fetcher.finished == old(fetcher.finished)
      ensures fetcher.queue == q0 + Puts(FetchUpTo(server, batch, j + 1, fetcher.maxRetries).posts)
      ensures outcome.Pass? <==> FetchUpTo(server, batch, j + 1, fetcher.maxRetries).ok
    {
      outcome := FetchTimeRange(server(batch[j]));
      FetchUpToNext(q0, server, batch, j, fetcher.maxRetries);
    }

    /** `asyncio.gather` over one batch of windows, run here one after another in window order. */
    method Gather(server: Window -> seq<Attempts<E>>, batch: seq<Window>) returns (outcome: Outcome)
      requires fetcher.Valid()
      requires forall w :: w in batch ==> ClosedChain(server(w), fetcher.maxRetries)
      modifies fetcher
      ensures fetcher.Valid() && fetcher.finished == old(fetcher.finished)
      ensures fetcher.queue == old(fetcher.queue) + Puts(FetchAll(server, batch, fetcher.maxRetries).posts)
      ensures outcome.Pass? <==> FetchAll(server, batch, fetcher.maxRetries).ok
    {
      var mr := fetcher.maxRetries;
      var j := 0;
      while j < |batch|
        invariant 0 <= j <= |batch|
        invariant fetcher.Valid() && fetcher.finished == old(fetcher.finished)
        invariant FetchUpTo(server, batch, j, mr).ok
        invariant fetcher.queue == old(fetcher.queue) + Puts(FetchUpTo(server, batch, j, mr).posts)
      {
        assert batch[j] in batch;
        outcome := GatherNext(server, batch, j, old(fetcher.queue));
        if outcome.Fail? {
          FetchUpToStops(server, batch, j + 1, |batch|, mr);
          return;
        }
        j := j + 1;
      }
      outcome := Pass;
    }

    /**
     * Gather the batch `tasks` after the windows `prior` of the earlier
     * batches, which all completed, and record it as the next batch.
     */
    method Flush(server: Window -> seq<Attempts<E>>, ghost q0: seq<Slot<seq<E>>>, ghost prior: seq<Window>,
                 tasks: seq<Window>, batches: seq<seq<Window>>)
      returns (outcome: Outcome, batches': seq<seq<Window>>)
      requires fetcher.Valid()
      requires forall w :: w in tasks ==> ClosedChain(server(w), fetcher.maxRetries)
      requires FetchAll(server, prior, fetcher.maxRetries).ok
      requires fetcher.queue == q0 + Puts(FetchAll(server, prior, fetcher.maxRetries).posts)
      requires prior == Flatten(batches)
      modifies fetcher
      ensures fetcher.Valid() && fetcher.finished == old(fetcher.finished)
      ensures fetcher.queue == q0 + Puts(FetchAll(server, prior + tasks, fetcher.maxRetries).posts)
      ensures outcome.Pass? <==> FetchAll(server, prior + tasks, fetcher.maxRetries).ok
      ensures batches' == batches + [tasks] && Flatten(batches') == prior + tasks
    {
      outcome := Gather(server, tasks);
      FetchAllThen(server, prior, tasks, fetcher.maxRetries);
      FlattenAppend(batches, tasks);
      batches' := batches + [tasks];
    }

    /**
     * The end of `fetch`: gather the windows left over in `tasks`, if any,
     * then post the sentinel.
     */
    method FinishFetch(server: Window -> seq<Attempts<E>>, ghost q0: seq<Slot<seq<E>>>, ghost prior: seq<Window>,
                       tasks: seq<Window>, batches: seq<seq<Window>>, ghost k: int)
      returns (outcome: Outcome, batches': seq<seq<Window>>)
      requires fetcher.Valid()
      requires forall w :: w in tasks ==> ClosedChain(server(w), fetcher.maxRetries)
      requires FetchAll(server, prior, fetcher.maxRetries).ok
      requires fetcher.queue == q0 + Puts(FetchAll(server, prior, fetcher.maxRetries).posts)
      requires prior == Flatten(batches) && 1 <= k && |tasks| <= k
      requires forall i :: 0 <= i < |batches| ==> |batches[i]| == k
      modifies fetcher
      ensures fetcher.Valid()
      ensures var r := FetchAll(server, prior + tasks, fetcher.maxRetries);
        && fetcher.queue == q0 + Puts(r.posts) + (if r.ok then [Sentinel] else [])
        && fetcher.finished == (old(fetcher.finished) || r.ok)
        && (outcome.Pass? <==> r.ok)
      ensures outcome.Pass? ==> Flatten(batches') == prior + tasks && Batched(batches', k)
    {
      batches' := batches;
      if |tasks| > 0 {
        outcome, batches' := Flush(server, q0, prior, tasks, batches);
        if outcome.Fail? {
          return;
        }
      } else {
        assert prior + tasks == prior;
      }
      fetcher.Done();
      outcome := Pass;
    }

    /**
     * One turn of the window loop of `fetch`: add the task for window `w`,
     * and gather the pending tasks once there are `maxConcurrency` of them.
     */
    method Schedule(server: Window -> seq<Attempts<E>>, ghost q0: seq<Slot<seq<E>>>, ghost all: seq<Window>,
                    ghost prior: seq<Window>, tasks: seq<Window>, batches: seq<seq<Window>>,
                    start: int, endTime: int, delta: int)
      returns (outcome: Outcome, ghost prior': seq<Window>, tasks': seq<Window>, batches': seq<seq<Window>>)
      requires start < endTime && delta > 0
      requires fetcher.Valid()
      requires Scheduled(server, q0, all, prior, tasks, batches, Windows(start, endTime, delta), BatchSize(fetcher.maxConcurrency),
                         fetcher.queue, fetcher.maxRetries)
      requires forall v :: v in all ==> ClosedChain(server(v), fetcher.maxRetries)
      modifies fetcher
      ensures fetcher.Valid() && fetcher.finished == old(fetcher.finished)
      ensures outcome.Fail? ==>
        && !FetchAll(server, all, fetcher.maxRetries).ok
        && fetcher.queue == q0 + Puts(FetchAll(server, all, fetcher.maxRetries).posts)
      ensures outcome.Pass? ==>
        Scheduled(server, q0, all, prior', tasks', batches', Windows(start + delta, endTime, delta), BatchSize(fetcher.maxConcurrency),
                  fetcher.queue, fetcher.maxRetries)
    {
      var k := BatchSize(fetcher.maxConcurrency);
      var w := Window(start, Min(start + delta, endTime));
      ghost var rest := Windows(start + delta, endTime, delta);
      assert Windows(start, endTime, delta) == [w] + rest;
      assert all == prior + (tasks + [w]) + rest by {
        Regroup(prior, tasks, w, rest);
      }
      tasks' := tasks + [w];
      prior' := prior;
      batches' := batches;
      outcome := Pass;
      if |tasks'| >= fetcher.maxConcurrency {
        assert |tasks'| == k;
        assert forall v :: v in tasks' ==> v in all;
        outcome, batches' := Flush(server, q0, prior, tasks', batches);
        if outcome.Fail? {
          FetchAllStops(server, prior + tasks', rest, fetcher.maxRetries);
          return;
        }
        assert forall i :: 0 <= i < |batches'| ==> batches'[i] == if i < |batches| then batches[i] else tasks';
        assert all == (prior + tasks') + [] + rest by {
          assert (prior + tasks') + [] == prior + tasks';
        }
        prior' := prior + tasks';
        tasks' := [];
      }
    }

    /**
     * The window loop of `fetch`: cut `[startTime, endTime)` into windows and
     * gather each full batch of `maxConcurrency` of them as soon as it fills.
     * It stops at the first window that raises; otherwise it hands back the
     * windows of the last, partial batch.
     */
    method GatherWindows(startTime: int, endTime: int, server: Window -> seq<Attempts<E>>)
      returns (outcome: Outcome, batches: seq<seq<Window>>, tasks: seq<Window>, ghost prior: seq<Window>)
      requires Valid()
      requires forall w :: w in Windows(startTime, endTime, intervalSecs * MICROS_PER_SECOND) ==>
                 ClosedChain(server(w), fetcher.maxRetries)
      modifies fetcher
      ensures fetcher.Valid() && fetcher.finished == old(fetcher.finished)
      ensures var r := FetchAll(server, Windows(startTime, endTime, intervalSecs * MICROS_PER_SECOND), fetcher.maxRetries);
        outcome.Fail? ==> !r.ok && fetcher.queue == old(fetcher.queue) + Puts(r.posts)
      ensures outcome.Pass? ==>
        Scheduled(server, old(fetcher.queue), Windows(startTime, endTime, intervalSecs * MICROS_PER_SECOND),
                  prior, tasks, batches, [], BatchSize(fetcher.maxConcurrency), fetcher.queue, fetcher.maxRetries)
    {
      var delta := intervalSecs * MICROS_PER_SECOND;
      ghost var all := Windows(startTime, endTime, delta);
      ghost var q0 := fetcher.queue;
      var start := startTime;
      outcome := Pass;
      tasks := [];
      batches := [];
      prior := [];
      assert all == prior + tasks + all;
      while start < endTime
        invariant fetcher.Valid()
        invariant Scheduled(server, q0, all, prior, tasks, batches, Windows(start, endTime, delta), BatchSize(fetcher.maxConcurrency),
                            fetcher.queue, fetcher.maxRetries)
        invariant fetcher.finished == old(fetcher.finished)
        invariant outcome.Pass?
        decreases endTime - start
      {
        outcome, prior, tasks, batches := Schedule(server, q0, all, prior, tasks, batches, start, endTime, delta);
        if outcome.Fail? {
          return;
        }
        start := start + delta;
      }
    }

    /**
     * `fetch`: cut `[startTime, endTime)` into windows, gather them in batches
     * of `maxConcurrency`, and post the sentinel once every batch is done.
     */
    method Fetch(startTime: int, endTime: int, server: Window -> seq<Attempts<E>>)
      returns (outcome: Outcome, batches: seq<seq<Window>>)
      requires Valid()
      requires forall w :: w in Windows(startTime, endTime, intervalSecs * MICROS_PER_SECOND) ==>
                 ClosedChain(server(w), fetcher.maxRetries)
      modifies fetcher
      ensures Valid()
      ensures var r := FetchAll(server, Windows(startTime, endTime, intervalSecs * MICROS_PER_SECOND), fetcher.maxRetries);
        && fetcher.queue == old(fetcher.queue) + Puts(r.posts) + (if r.ok then [Sentinel] else [])
        && fetcher.finished == (old(fetcher.finished) || r.ok)
        && (outcome.Pass? <==> r.ok)
      ensures outcome.Pass? ==>
        && Flatten(batches) == Windows(startTime, endTime, intervalSecs * MICROS_PER_SECOND)
        && Batched(batches, BatchSize(fetcher.maxConcurrency))
    {
      ghost var q0 := fetcher.queue;
      ghost var all := Windows(startTime, endTime, intervalSecs * MICROS_PER_SECOND);
      var tasks;
      ghost var prior;
      outcome, batches, tasks, prior := GatherWindows(startTime, endTime, server);
      if outcome.Fail? {
        assert fetcher.queue + [] == fetcher.queue;
        return;
      }
      assert prior + tasks == all;
      assert forall w :: w in tasks ==> w in all;
      outcome, batches := FinishFetch(server, q0, prior, tasks, batches, BatchSize(fetcher.maxConcurrency));
    }
  }
}
