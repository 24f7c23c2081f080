/** Runs of the controller against the page source, in the order the
    component's effects and the sensor produce the calls: a fetch on mount,
    then, each time the sensor fires and the counter advances, a fetch for
    the new counter value. */
module Scenarios {
  import opened PageSource
  import opened Pagination

  /** A 25-item dataset is read in three pages of 10, 10 and 5 items; the third
      reports the end, after which the sensor no longer advances the counter. */
  method ThreePageRun(backing: seq<Item>)
    returns (sizes: seq<nat>, data: seq<Item>, isEnd: bool, pageNum: int, total: int, advancedAtEnd: bool)
    requires |backing| == 25
    ensures sizes == [10, 10, 5]
    ensures data == backing && total == SumPrices(backing)
    ensures isEnd && pageNum == 3 && !advancedAtEnd
  {
    var c := new InfiniteScroll();
    sizes := [];

    var request := c.StartFetch();
    assert request == 0;
    var page := GetPage(backing, request);
    assert !page.isEnd;
    c.FetchSucceeded(page.datas, page.isEnd);
    sizes := sizes + [|page.datas|];
    assert c.data == Pages(backing, 0);
    var advanced := c.OnIntersect(true);
    assert advanced;

    request := c.StartFetch();
    assert request == 1;
    page := GetPage(backing, request);
    c.FetchSucceeded(page.datas, page.isEnd);
    sizes := sizes + [|page.datas|];
    assert c.data == Pages(backing, 1);
    advanced := c.OnIntersect(true);
    assert advanced;

    request := c.StartFetch();
    assert request == 2;
    page := GetPage(backing, request);
    c.FetchSucceeded(page.datas, page.isEnd);
    sizes := sizes + [|page.datas|];
    advancedAtEnd := c.OnIntersect(true);

    PagesConcat(backing, 2);
    assert Pages(backing, 2) == c.data;
    data, isEnd, pageNum, total := c.data, c.isEnd, c.pageNum, c.totalPriceSum;
  }

  /** On an empty dataset the first fetch returns nothing and reports the end
      at once; the sensor then never advances the counter. */
  method EmptyRun() returns (data: seq<Item>, isEnd: bool, pageNum: int, total: int, advanced: bool)
    ensures data == [] && isEnd && pageNum == 1 && total == 0 && !advanced
  {
    var c := new InfiniteScroll();
    var request := c.StartFetch();
    var page := GetPage([], request);
    c.FetchSucceeded(page.datas, page.isEnd);
    advanced := c.OnIntersect(true);
    data, isEnd, pageNum, total := c.data, c.isEnd, c.pageNum, c.totalPriceSum;
  }

  /** Triggers that arrive while a fetch is outstanding do not move the counter. */
  method TriggersWhileLoading() returns (first: bool, second: bool, pageNum: int)
    ensures !first && !second && pageNum == 1
  {
    var c := new InfiniteScroll();
    var request := c.StartFetch();
    first := c.OnIntersect(true);
    second := c.OnIntersect(true);
    pageNum := c.pageNum;
  }

  /** After the first page of a 25-item dataset, the fetch of the second
      page fails: the items, the total and the end flag stay as they were,
      the loading flag is cleared, and the next trigger asks for the third
      page, so the second page's items are never loaded. */
  method FailedFetchRun(backing: seq<Item>)
    returns (data: seq<Item>, total: int, isEnd: bool, loading: bool, nextRequest: nat)
    requires |backing| == 25
    ensures data == backing[..10] && total == SumPrices(backing[..10])
    ensures !isEnd && !loading
    ensures nextRequest == 2
  {
    var c := new InfiniteScroll();
    var request := c.StartFetch();
    var page := GetPage(backing, request);
    assert page.datas == backing[..10];
    c.FetchSucceeded(page.datas, page.isEnd);
    assert [] + backing[..10] == backing[..10];
    var advanced := c.OnIntersect(true);
    assert advanced;

    request := c.StartFetch();
    c.FetchFailed();
    data, total, isEnd, loading := c.data, c.totalPriceSum, c.isEnd, c.loading;

    advanced := c.OnIntersect(true);
    assert advanced;
    nextRequest := c.StartFetch();
  }
}
