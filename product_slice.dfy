// The client-side product cache: the query the fetch builds, and the state
// record the fetch/create/update/delete outcomes update in place.

module ProductSlice {
  import opened Js
  import opened Catalog

  const DefaultPage := 1
  const DefaultLimit := 10

  /** The `page` request parameter: the table's current page, or the first page
      when it is absent or 0. */
  function PageParam(current: Option<int>): (page: int)
    ensures page != 0
    ensures current.Some? && current.value != 0 ==> page == current.value
    ensures current.None? || current.value == 0 ==> page == DefaultPage
  {
    NumberOr(current, DefaultPage)
  }

  /** The `limit` request parameter: the table's page size, or 10 when it is
      absent or 0. */
  function LimitParam(pageSize: Option<int>): (limit: int)
    ensures limit != 0
    ensures pageSize.Some? && pageSize.value != 0 ==> limit == pageSize.value
    ensures pageSize.None? || pageSize.value == 0 ==> limit == DefaultLimit
  {
    NumberOr(pageSize, DefaultLimit)
  }

  /** The parameters of the fetch request, as name/value text. The filters are
      spread after `page` and `limit`, so a filter with either name wins. */
  function FetchQuery(current: Option<int>, pageSize: Option<int>, filters: map<string, string>): (q: map<string, string>)
    ensures q.Keys == filters.Keys + {"page", "limit"}
    ensures forall k :: k in filters ==> q[k] == filters[k]
    ensures "page" !in filters ==> q["page"] == NumberString(PageParam(current))
    ensures "limit" !in filters ==> q["limit"] == NumberString(LimitParam(pageSize))
  {
    map["page" := NumberString(PageParam(current)), "limit" := NumberString(LimitParam(pageSize))] + filters
  }

  /** The server reads back the page the table asked for. */
  lemma FetchQueryPage(current: Option<int>, pageSize: Option<int>, filters: map<string, string>)
    requires "page" !in filters
    ensures var p := FetchQuery(current, pageSize, filters)["page"];
      p != [] && (if p[0] == '-' then AllDigits(p[1..]) else AllDigits(p))
      && ParseNumber(p) == PageParam(current)
  {
    NumberStringRoundTrip(PageParam(current));
  }

  /** `items.findIndex(item => item._id === id)`. */
  function FindIndex(items: seq<Product>, id: string): (i: int)
    ensures -1 <= i < |items|
    ensures i == -1 <==> forall k :: 0 <= k < |items| ==> items[k].id != id
    ensures 0 <= i ==> items[i].id == id && forall k :: 0 <= k < i ==> items[k].id != id
  {
    if items == [] then -1
    else if items[0].id == id then 0
    else
      var j := FindIndex(items[1..], id);
      if j == -1 then -1 else j + 1
  }

  /** `items.filter(item => item._id !== id)`. */
  function RemoveId(items: seq<Product>, id: string): (r: seq<Product>)
    ensures |r| <= |items|
    ensures forall k :: 0 <= k < |r| ==> r[k].id != id
    ensures forall k :: 0 <= k < |items| && items[k].id != id ==> items[k] in r
  {
    if items == [] then []
    else
      var rest := RemoveId(items[1..], id);
      assert forall k :: 1 <= k < |items| ==> items[k] == items[1..][k - 1];
      if items[0].id == id then rest else [items[0]] + rest
  }

  /** Every item without the id is kept as often as it occurred; every item
      with it is gone. */
  lemma {:induction false} RemoveIdCounts(items: seq<Product>, id: string, x: Product)
    ensures multiset(RemoveId(items, id))[x] == if x.id == id then 0 else multiset(items)[x]
  {
    if items != [] {
      RemoveIdCounts(items[1..], id, x);
      assert items == [items[0]] + items[1..];
    }
  }

  /** Removing distributes over concatenation: the kept items stay in their
      original relative order. */
  lemma {:induction false} RemoveIdAppend(a: seq<Product>, b: seq<Product>, id: string)
    ensures RemoveId(a + b, id) == RemoveId(a, id) + RemoveId(b, id)
  {
    if a != [] {
      assert (a + b)[0] == a[0] && (a + b)[1..] == a[1..] + b;
      RemoveIdAppend(a[1..], b, id);
    } else {
      assert a + b == b;
    }
  }

  /** Removing an id nobody has changes nothing. */
  lemma {:induction false} RemoveIdAbsent(items: seq<Product>, id: string)
    requires forall k :: 0 <= k < |items| ==> items[k].id != id
    ensures RemoveId(items, id) == items
  {
    if items != [] {
      RemoveIdAbsent(items[1..], id);
    }
  }

  /** Deleting the same id twice is deleting it once. */
  lemma RemoveIdIdempotent(items: seq<Product>, id: string)
    ensures RemoveId(RemoveId(items, id), id) == RemoveId(items, id)
  {
    RemoveIdAbsent(RemoveId(items, id), id);
  }

  /** What a successful fetch returns: one page of products and the total count. */
  datatype ProductPage = ProductPage(products: seq<Product>, totalProducts: int)

  /** The products slice of the store. */
  class ProductState {
    var items: seq<Product>
    var totalProducts: int
    var loading: bool
    var error: Option<string>

    constructor ()
      ensures items == [] && totalProducts == 0 && !loading && error == None
    {
      items, totalProducts, loading, error := [], 0, false, None;
    }

    /** A fetch has started. */
    method FetchPending()
      modifies this`loading, this`error
      ensures loading && error == None
      ensures items == old(items) && totalProducts == old(totalProducts)
    {
      loading := true;
      error := None;
    }

    /** A fetch returned a page: the cache now holds exactly that page. */
    method FetchFulfilled(payload: ProductPage)
      modifies this`loading, this`items, this`totalProducts
      ensures !loading && error == old(error)
      ensures items == payload.products && totalProducts == payload.totalProducts
    {
      loading := false;
      items := payload.products;
      totalProducts := payload.totalProducts;
    }

    /** A fetch failed with the given message (absent when the error had none). */
    method FetchRejected(message: Option<string>)
      modifies this`loading, this`error
      ensures !loading && error == message
      ensures items == old(items) && totalProducts == old(totalProducts)
    {
      loading := false;
      error := message;
    }

    /** The server created `created`: it is appended after every cached item. */
    method CreateFulfilled(created: Product)
      modifies this`items
      ensures |items| == |old(items)| + 1 && items[|items| - 1] == created
      ensures items[..|old(items)|] == old(items)
      ensures totalProducts == old(totalProducts) && loading == old(loading) && error == old(error)
    {
      items := items + [created];
    }

    /** The server returned `updated`: the first cached item with its id is
        replaced, and the cache is unchanged when there is none. */
    method UpdateFulfilled(updated: Product)
      modifies this`items
      ensures |items| == |old(items)|
      ensures var i := FindIndex(old(items), updated.id);
        && (i == -1 ==> items == old(items))
        && (i != -1 ==> items[i] == updated && forall k :: 0 <= k < |items| && k != i ==> items[k] == old(items)[k])
      ensures totalProducts == old(totalProducts) && loading == old(loading) && error == old(error)
    {
      var index := FindIndex(items, updated.id);
      if index != -1 {
        items := items[index := updated];
      }
    }

    /** The server deleted `id`: every cached item with that id goes. */
    method DeleteFulfilled(id: string)
      modifies this`items
      ensures items == RemoveId(old(items), id)
      ensures totalProducts == old(totalProducts) && loading == old(loading) && error == old(error)
    {
      items := RemoveId(items, id);
    }
  }
}
