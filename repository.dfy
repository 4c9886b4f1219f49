/**
 * `_MemoryRepo`: the in-memory thread store behind the review API. Each
 * thread keeps the analysed state, the report text and its chat messages;
 * threads are listed newest first.
 *
 * uuid4 and the clock are parameters (`freshId`, `now`); the state dict is a
 * value of the caller's type `S`, so the copies the source makes are implicit.
 */
module Repository {
  import opened Wrappers
  import Text
  import Sorting

  datatype StoredMessage = StoredMessage(role: string, content: string, ts: real)

  /** `_MemThread`; `get_thread` returns the same fields as a snapshot. */
  datatype MemThread<S> = MemThread(id: string, createdAt: real, title: string, state: S,
                                    reportText: Option<string>, messages: seq<StoredMessage>)

  /** One entry of `list_threads`. */
  datatype ThreadSummary = ThreadSummary(id: string, createdAt: real, title: string, messageCount: nat)

  const DefaultTitle := "Code Review"
  const DefaultListLimit := 50

  /** The id `create_or_update_thread` uses for a new thread: the given one unless it is missing or empty. */
  function NewThreadId(threadId: Option<string>, freshId: string): (tid: string)
    ensures threadId.Some? && threadId.value != [] ==> tid == threadId.value
    ensures threadId.None? || threadId.value == [] ==> tid == freshId
  {
    if threadId.Some? && threadId.value != [] then threadId.value else freshId
  }

  predicate NoDuplicates(xs: seq<string>) {
    forall i, j :: 0 <= i < j < |xs| ==> xs[i] != xs[j]
  }

  /** The key set of a map and the (duplicate-free) key order agree. */
  predicate OrderMatches<S>(order: seq<string>, threads: map<string, MemThread<S>>) {
    NoDuplicates(order)
    && (forall k :: k in order ==> k in threads)
    && (forall k :: k in threads ==> k in order)
  }

  /** The threads in the dict's insertion order. */
  function InOrder<S>(order: seq<string>, threads: map<string, MemThread<S>>): (r: seq<MemThread<S>>)
    requires forall k :: k in order ==> k in threads
    ensures |r| == |order|
    ensures forall i :: 0 <= i < |order| ==> r[i] == threads[order[i]]
  {
    if order == [] then [] else [threads[order[0]]] + InOrder(order[1..], threads)
  }

  function Summary<S>(t: MemThread<S>): ThreadSummary {
    ThreadSummary(t.id, t.createdAt, t.title, |t.messages|)
  }

  function NegCreated<S>(t: MemThread<S>): real {
    -t.createdAt
  }

  /** Newest first: `created_at` never increases along the sequence. */
  predicate NewestFirst(r: seq<ThreadSummary>) {
    forall i, j :: 0 <= i < j < |r| ==> r[i].createdAt >= r[j].createdAt
  }

  /**
   * `list_threads(limit)` over the threads in insertion order: sorted by
   * `created_at` descending (ties keep insertion order), cut to `limit`.
   */
  function Listing<S>(ts: seq<MemThread<S>>, limit: int): (r: seq<ThreadSummary>)
    ensures |r| <= |ts|
    ensures limit >= 0 ==> |r| == if limit < |ts| then limit else |ts|
    ensures NewestFirst(r)
    ensures forall i :: 0 <= i < |r| ==> r[i] in Summaries(ts)
  {
    var sorted := Sorting.SortBy(ts, NegCreated);
    var top := Newest(ts, limit);
    var r := Summaries(top);
    SummariesFrom(ts, sorted, top);
    SummariesNewest(sorted, top);
    r
  }

  /** The threads `list_threads` reports: the sort by `created_at`, newest first, cut to `limit`. */
  function Newest<S>(ts: seq<MemThread<S>>, limit: int): seq<MemThread<S>> {
    Text.Take(Sorting.SortBy(ts, NegCreated), limit)
  }

  /**
   * `list_threads` reports the newest threads: the listing summarises the
   * `limit` threads it picks; each of them is a stored thread, listed no more
   * often than it is stored; and no thread left out is newer than a listed one.
   */
  lemma ListingNewest<S>(ts: seq<MemThread<S>>, limit: int)
    ensures Listing(ts, limit) == Summaries(Newest(ts, limit))
    ensures multiset(Newest(ts, limit)) <= multiset(ts)
    ensures forall a, b :: a in Newest(ts, limit) && b in multiset(ts) - multiset(Newest(ts, limit)) ==>
              b.createdAt <= a.createdAt
  {
    var sorted := Sorting.SortBy(ts, NegCreated);
    var top := Newest(ts, limit);
    var n := |top|;
    assert top == sorted[..n];
    assert sorted == top + sorted[n..];
    assert multiset(sorted) == multiset(top) + multiset(sorted[n..]);
    Sorting.SortedSplit(sorted, NegCreated, n);
    forall a, b | a in top && b in multiset(ts) - multiset(top) ensures b.createdAt <= a.createdAt {
      assert b in multiset(sorted[n..]);
      assert NegCreated(a) <= NegCreated(b);
    }
  }

  function Summaries<S>(ts: seq<MemThread<S>>): (r: seq<ThreadSummary>)
    ensures |r| == |ts| && forall i :: 0 <= i < |ts| ==> r[i] == Summary(ts[i])
  {
    seq(|ts|, i requires 0 <= i < |ts| => Summary(ts[i]))
  }

  lemma SummariesFrom<S>(ts: seq<MemThread<S>>, sorted: seq<MemThread<S>>, top: seq<MemThread<S>>)
    requires multiset(sorted) == multiset(ts) && |top| <= |sorted| && top == sorted[..|top|]
    ensures forall i :: 0 <= i < |top| ==> Summaries(top)[i] in Summaries(ts)
  {
    forall i | 0 <= i < |top| ensures Summaries(top)[i] in Summaries(ts) {
      assert top[i] == sorted[i];
      assert sorted[i] in multiset(sorted);
      var p :| 0 <= p < |ts| && ts[p] == sorted[i];
      assert Summaries(ts)[p] == Summaries(top)[i];
    }
  }

  lemma SummariesNewest<S>(sorted: seq<MemThread<S>>, top: seq<MemThread<S>>)
    requires Sorting.SortedBy(sorted, NegCreated) && |top| <= |sorted| && top == sorted[..|top|]
    ensures NewestFirst(Summaries(top))
  {
    var r := Summaries(top);
    forall i, j | 0 <= i < j < |r| ensures r[i].createdAt >= r[j].createdAt {
      assert top[i] == sorted[i] && top[j] == sorted[j];
      assert NegCreated(sorted[i]) <= NegCreated(sorted[j]);
    }
  }

  /** Every listed thread is a stored thread, and no thread is listed twice when ids are distinct. */
  lemma ListingFromStore<S>(order: seq<string>, threads: map<string, MemThread<S>>, limit: int)
    requires OrderMatches(order, threads)
    requires forall k :: k in threads ==> threads[k].id == k
    ensures forall i :: 0 <= i < |Listing(InOrder(order, threads), limit)| ==>
              Listing(InOrder(order, threads), limit)[i].id in threads
  {
    var ts := InOrder(order, threads);
    var r := Listing(ts, limit);
    forall i | 0 <= i < |r| ensures r[i].id in threads {
      var p :| 0 <= p < |ts| && Summaries(ts)[p] == r[i];
      var k := order[p];
      assert k in order && k in threads;
      assert r[i] == Summary(threads[k]);
      assert threads[k].id == k;
    }
  }

  class MemoryRepo<S> {
    /** `_threads`: id → thread. */
    var threads: map<string, MemThread<S>>
    /** The insertion order of `_threads`' keys, which `list_threads` falls back on for equal timestamps. */
    var order: seq<string>

    ghost predicate Valid()
      reads this
    {
      OrderMatches(order, threads) && forall k :: k in threads ==> threads[k].id == k
    }

    constructor ()
      ensures Valid() && threads == map[] && order == []
    {
      threads := map[];
      order := [];
    }

    /**
     * `create_or_update_thread(initial_state, report_text, thread_id)`: an
     * existing thread gets the new state and report text and keeps its title,
     * creation time and messages; otherwise a "Code Review" thread with no
     * messages is stored under the given id or a fresh one.
     */
    method CreateOrUpdateThread(initialState: S, reportText: Option<string>, threadId: Option<string>,
                                freshId: string, now: real) returns (tid: string)
      requires Valid()
      modifies this
      ensures Valid()
      ensures old(threads).Keys <= threads.Keys
      ensures threadId.Some? && threadId.value != [] && threadId.value in old(threads) ==>
                tid == threadId.value
                && threads == old(threads)[tid := old(threads)[tid].(state := initialState, reportText := reportText)]
                && order == old(order)
      ensures !(threadId.Some? && threadId.value != [] && threadId.value in old(threads)) ==>
                tid == NewThreadId(threadId, freshId)
                && threads == old(threads)[tid := MemThread(tid, now, DefaultTitle, initialState, reportText, [])]
                && order == if tid in old(threads) then old(order) else old(order) + [tid]
    {
      if threadId.Some? && threadId.value != [] && threadId.value in threads {
        var th := threads[threadId.value];
        threads := threads[threadId.value := th.(state := initialState, reportText := reportText)];
        return th.id;
      }
      tid := if threadId.Some? && threadId.value != [] then threadId.value else freshId;
      if tid !in threads {
        order := order + [tid];
      }
      threads := threads[tid := MemThread(tid, now, DefaultTitle, initialState, reportText, [])];
    }

    /** `add_message(thread_id, role, content)`: appends one message to a known thread; unknown ids are ignored. */
    method AddMessage(threadId: string, role: string, content: string, now: real)
      requires Valid()
      modifies this
      ensures Valid() && order == old(order)
      ensures threadId !in old(threads) ==> threads == old(threads)
      ensures threadId in old(threads) ==>
                threads == old(threads)[threadId := old(threads)[threadId].(
                             messages := old(threads)[threadId].messages + [StoredMessage(role, content, now)])]
    {
      if threadId !in threads {
        return;
      }
      var th := threads[threadId];
      threads := threads[threadId := th.(messages := th.messages + [StoredMessage(role, content, now)])];
    }

    /** `get_thread(thread_id)`: a snapshot of the thread, or nothing for an unknown id. */
    method GetThread(threadId: string) returns (r: Option<MemThread<S>>)
      ensures threadId !in threads ==> r.None?
      ensures threadId in threads ==> r == Some(threads[threadId])
    {
      if threadId !in threads {
        return None;
      }
      r := Some(threads[threadId]);
    }

    /** `list_threads(limit)` */
    method ListThreads(limit: int) returns (r: seq<ThreadSummary>)
      requires Valid()
      ensures r == Listing(InOrder(order, threads), limit)
    {
      var items := Newest(InOrder(order, threads), limit);
      r := [];
      var i := 0;
      while i < |items|
        invariant 0 <= i <= |items| && |r| == i
        invariant forall k :: 0 <= k < i ==> r[k] == Summary(items[k])
      {
        r := r + [ThreadSummary(items[i].id, items[i].createdAt, items[i].title, |items[i].messages|)];
        i := i + 1;
      }
      assert r == Summaries(items);
      ListingNewest(InOrder(order, threads), limit);
    }
  }
}
