/** The pagination controller of the infinite-scroll list: the five pieces of
    component state and the transitions that update them. The asynchronous
    fetch is split into its start and its two ways of completing; the
    intersection observer is reduced to the guard its callback evaluates. */
module Pagination {
  import opened PageSource

  /** The price total of `items`, folded from the left starting at 0, as the
      `reduce` over the fetched items does. */
  function SumPrices(items: seq<Item>): (total: int)
  {
    if items == [] then 0
    else SumPrices(items[..|items| - 1]) + items[|items| - 1].price
  }

  /** Folding the total over two runs of items one after the other gives the
      sum of their totals: this is why adding each page's total keeps the
      running total equal to the total of everything loaded. */
  lemma {:induction false} SumPricesAppend(a: seq<Item>, b: seq<Item>)
    ensures SumPrices(a + b) == SumPrices(a) + SumPrices(b)
  {
    if b != [] {
      var front := b[..|b| - 1];
      assert (a + b)[..|a + b| - 1] == a + front;
      SumPricesAppend(a, front);
    } else {
      assert a + b == a;
    }
  }

  class InfiniteScroll {
    /** The items loaded so far, in arrival order. */
    var data: seq<Item>
    /** The one-based page counter. */
    var pageNum: int
    /** True while a fetch is outstanding. */
    var loading: bool
    /** True once the page source has reported the last page. */
    var isEnd: bool
    /** The running price total shown under the list. */
    var totalPriceSum: int

    /** The zero-based page indices requested from the page source so far. */
    ghost var requested: seq<nat>

    /** The controller's invariant: the total is the total of the loaded items;
        pages 0, 1, 2, ... have been requested in order, one per value of the
        counter, and the request for the current counter value is the only
        one that can be outstanding; the end flag is only raised once the
        request for the current counter value has been made. */
    ghost predicate Valid()
      reads this
    {
      && pageNum >= 1
      && totalPriceSum == SumPrices(data)
      && pageNum - 1 <= |requested| <= pageNum
      && (forall i :: 0 <= i < |requested| ==> requested[i] == i)
      && (loading ==> |requested| == pageNum && !isEnd)
      && (isEnd ==> |requested| == pageNum)
    }

    /** The mount effect has issued the fetch for the current counter value,
        so the sensor is live. */
    ghost predicate FetchIssued()
      reads this
    {
      |requested| == pageNum
    }

    /** The sentinel element is rendered below the list exactly while the end
        has not been reached; only a rendered sentinel can be observed. */
    predicate SentinelRendered()
      reads this
    {
      !isEnd
    }

    /** The state on mount. */
    constructor ()
      ensures Valid()
      ensures data == [] && pageNum == 1 && !loading && !isEnd && totalPriceSum == 0
      ensures requested == []
    {
      data := [];
      pageNum := 1;
      loading := false;
      isEnd := false;
      totalPriceSum := 0;
      requested := [];
    }

    /** The start of a fetch, run each time the counter takes a new value:
        it raises the loading flag and asks the page source for the zero-based
        page `pageNum - 1`. The precondition says that no fetch has been made
        for this counter value yet. */
    method StartFetch() returns (request: nat)
      requires Valid()
      requires |requested| == pageNum - 1
      modifies this`loading, this`requested
      ensures Valid() && FetchIssued()
      ensures request == pageNum - 1
      ensures loading
      ensures requested == old(requested) + [request]
      ensures !old(loading) && !old(isEnd)
    {
      loading := true;
      request := pageNum - 1;
      requested := requested + [request];
    }

    /** A fetch that resolved with `datas` and the source's end flag: the items
        are appended in order, their total is added, the end flag is copied,
        and the loading flag is cleared. */
    method FetchSucceeded(datas: seq<Item>, pageIsEnd: bool)
      requires Valid()
      requires loading
      modifies this`data, this`totalPriceSum, this`isEnd, this`loading
      ensures Valid()
      ensures data == old(data) + datas
      ensures totalPriceSum == old(totalPriceSum) + SumPrices(datas)
      ensures totalPriceSum == SumPrices(data)
      ensures isEnd == pageIsEnd
      ensures !loading
    {
      var newData := data + datas;
      var newPriceSum := SumPrices(datas);
      SumPricesAppend(data, datas);
      totalPriceSum := totalPriceSum + newPriceSum;
      data := newData;
      isEnd := pageIsEnd;
      loading := false;
    }

    /** A fetch that was rejected: the error is only logged, so nothing but the
        loading flag changes. */
    method FetchFailed()
      requires Valid()
      requires loading
      modifies this`loading
      ensures Valid()
      ensures !loading
    {
      loading := false;
    }

    /** The intersection observer's callback: the counter advances by one only
        when the sentinel is intersecting, no fetch is outstanding and the end
        has not been reached; otherwise nothing changes. */
    method OnIntersect(intersecting: bool) returns (advanced: bool)
      requires Valid()
      requires FetchIssued()
      modifies this`pageNum
      ensures Valid()
      ensures advanced <==> intersecting && !loading && !isEnd
      ensures pageNum == old(pageNum) + (if advanced then 1 else 0)
      ensures advanced ==> SentinelRendered() && |requested| == pageNum - 1
    {
      advanced := intersecting && !loading && !isEnd;
      if advanced {
        pageNum := pageNum + 1;
      }
    }
  }

  /** Once the end is reached, no trigger can move the counter, no fetch can
      be started for the counter value it holds, and none is outstanding, so
      neither completion can reset the end flag: pagination has stopped. */
  lemma EndStopsFetching(c: InfiniteScroll)
    requires c.Valid() && c.isEnd
    ensures !c.SentinelRendered()
    ensures c.FetchIssued()
    ensures |c.requested| != c.pageNum - 1
    ensures !c.loading
  {
  }
}
