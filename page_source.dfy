/** The page source of the infinite-scroll list: a fixed-size window sliced out
    of a backing array of products, and a flag saying whether that window
    reaches the end of the array. The timer and the promise that wrap the slice
    are not modelled; the backing array is a parameter. */
module PageSource {

  /** One product row. The price is a JavaScript number in the component; here
      it is an integer (no floating-point rounding is modelled). */
  datatype Item = Item(productId: string, productName: string, price: int, boughtDate: string)

  /** The result the page source resolves with: the items of the page and
      whether the backing array holds nothing after them. */
  datatype Page = Page(datas: seq<Item>, isEnd: bool)

  /** Number of items in one page. */
  const PerPage: nat := 10

  /** The smaller of `a` and `b`. */
  function Min(a: int, b: int): (m: int)
    ensures m <= a && m <= b && (m == a || m == b)
  {
    if a <= b then a else b
  }

  /** `s.slice(start, end)` for non-negative arguments: both bounds are clipped
      to the length, and an end at or before the start gives the empty array. */
  function Slice<T>(s: seq<T>, start: nat, end: nat): (r: seq<T>)
    ensures |r| <= |s|
    ensures start <= end <= |s| ==> r == s[start..end]
    ensures |s| <= start ==> r == []
    ensures end <= start ==> r == []
    ensures start <= |s| <= end ==> r == s[start..]
  {
    var from := Min(start, |s|);
    var to := Min(end, |s|);
    if to <= from then [] else s[from..to]
  }

  /** The page with zero-based index `p` of `backing`. */
  function GetPage(backing: seq<Item>, p: nat): (r: Page)
    ensures |r.datas| <= PerPage
    ensures r.isEnd <==> PerPage * (p + 1) >= |backing|
    ensures r.datas == backing[Min(PerPage * p, |backing|)..Min(PerPage * (p + 1), |backing|)]
    ensures !r.isEnd ==> |r.datas| == PerPage
  {
    var datas := Slice(backing, PerPage * p, PerPage * (p + 1));
    var isEnd := PerPage * (p + 1) >= |backing|;
    Page(datas, isEnd)
  }

  /** The items of pages 0 through k, one after the other. */
  function Pages(backing: seq<Item>, k: nat): (r: seq<Item>)
  {
    if k == 0 then GetPage(backing, 0).datas
    else Pages(backing, k - 1) + GetPage(backing, k).datas
  }

  /** An empty backing array has an empty first page that is also the last. */
  lemma PageOfEmptyBacking()
    ensures GetPage([], 0) == Page([], true)
  {
  }

  /** A page that starts at or after the end of the array is empty and final. */
  lemma PageBeyondEnd(backing: seq<Item>, p: nat)
    requires PerPage * p >= |backing|
    ensures GetPage(backing, p).datas == [] && GetPage(backing, p).isEnd
  {
  }

  /** Once a page reports the end, every later page is empty and also reports
      the end. */
  lemma PagesAfterEndEmpty(backing: seq<Item>, p: nat, q: nat)
    requires GetPage(backing, p).isEnd
    requires p < q
    ensures GetPage(backing, q).datas == [] && GetPage(backing, q).isEnd
  {
  }

  /** Reading pages 0 through k in order yields exactly the first
      min(10 * (k + 1), length) items of the backing array. */
  lemma {:induction false} PagesConcat(backing: seq<Item>, k: nat)
    ensures Pages(backing, k) == backing[..Min(PerPage * (k + 1), |backing|)]
  {
    if k > 0 {
      PagesConcat(backing, k - 1);
      var mid := Min(PerPage * k, |backing|);
      var hi := Min(PerPage * (k + 1), |backing|);
      assert backing[..mid] + backing[mid..hi] == backing[..hi];
    }
  }
}
