// The client-side cache of the statistics payload. The payload is whatever
// the server sends; every key the view reads may be missing.

module StatisticsSlice {
  import opened Js
  import opened Catalog

  /** One element of a price bucket's array (`{count}`). */
  datatype BucketEntry = BucketEntry(count: Option<int>)

  /** An embedded category reference (`{category_name}`). */
  datatype CategoryName = CategoryName(categoryName: Option<string>)

  /** One element of `categoryHighestPrice`. */
  datatype CategoryStat = CategoryStat(
    id: Option<string>,
    category: Option<seq<CategoryName>>,
    highestPrice: Option<int>,
    productCount: Option<int>)

  /** The statistics record. The first six keys are the ones the view reads.
      The last three are the keys of the initial state, which the view never
      reads; they only ever hold empty arrays on the client, so their element
      type is taken from the keys they stand beside. */
  datatype StatsData = StatsData(
    totalProducts: Option<int>,
    activeProducts: Option<int>,
    totalValue: Option<int>,
    priceRangeCount: Option<map<string, seq<BucketEntry>>>,
    categoryHighestPrice: Option<seq<CategoryStat>>,
    productsWithNoMedia: Option<seq<Product>>,
    categoryPrices: Option<seq<CategoryStat>>,
    priceRanges: Option<seq<BucketEntry>>,
    productsWithoutMedia: Option<seq<Product>>)

  /** The data before any fetch: zero totals and empty lists, under key names
      that differ from those of the server's payload. */
  function InitialData(): (d: StatsData)
    ensures d.totalProducts == Some(0) && d.activeProducts == Some(0) && d.totalValue == Some(0)
    ensures d.categoryPrices == Some([]) && d.priceRanges == Some([]) && d.productsWithoutMedia == Some([])
    ensures d.priceRangeCount.None? && d.categoryHighestPrice.None? && d.productsWithNoMedia.None?
  {
    StatsData(Some(0), Some(0), Some(0), None, None, None, Some([]), Some([]), Some([]))
  }

  /** The statistics slice of the store. */
  class StatisticsState {
    var data: StatsData
    var loading: bool
    var error: Option<string>

    constructor ()
      ensures data == InitialData() && !loading && error == None
    {
      data, loading, error := InitialData(), false, None;
    }

    /** A fetch has started; the data loaded so far stays on screen. */
    method Pending()
      modifies this`loading, this`error
      ensures loading && error == None && data == old(data)
    {
      loading := true;
      error := None;
    }

    /** A fetch returned: its payload replaces the data wholesale. */
    method Fulfilled(payload: StatsData)
      modifies this`loading, this`data
      ensures !loading && data == payload && error == old(error)
    {
      loading := false;
      data := payload;
    }

    /** A fetch failed with the given message; the previous data is kept. */
    method Rejected(message: Option<string>)
      modifies this`loading, this`error
      ensures !loading && error == message && data == old(data)
    {
      loading := false;
      error := message;
    }
  }

  /** A successful fetch, from start to finish, leaves the slice idle, without
      an error, and holding the payload, whatever state it started in. */
  method SuccessfulFetch(s: StatisticsState, payload: StatsData)
    modifies s
    ensures !s.loading && s.error == None && s.data == payload
  {
    s.Pending();
    s.Fulfilled(payload);
  }

  /** A failed fetch keeps the data the slice held before it started. */
  method FailedFetch(s: StatisticsState, message: Option<string>)
    modifies s
    ensures !s.loading && s.error == message && s.data == old(s.data)
  {
    s.Pending();
    s.Rejected(message);
  }
}
