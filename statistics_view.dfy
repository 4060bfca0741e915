// The statistics page's view-model: what it derives from the cached payload
// before rendering. Nothing here changes state.

module StatisticsView {
  import opened Js
  import opened Catalog
  import opened StatisticsSlice

  /** The page shows only an error card while the slice holds a truthy error. */
  function ShowsError(error: Option<string>): (b: bool)
    ensures b <==> error.Some? && error.value != ""
  {
    TextOr(error, "") != ""
  }

  /** The three summary cards (`stats.x || 0`). */
  datatype Summary = Summary(totalProducts: int, activeProducts: int, totalValue: int)

  function SummaryCards(stats: StatsData): (c: Summary)
    ensures c.totalProducts == (if stats.totalProducts.Some? then stats.totalProducts.value else 0)
    ensures c.activeProducts == (if stats.activeProducts.Some? then stats.activeProducts.value else 0)
    ensures c.totalValue == (if stats.totalValue.Some? then stats.totalValue.value else 0)
  {
    Summary(NumberOr(stats.totalProducts, 0), NumberOr(stats.activeProducts, 0), NumberOr(stats.totalValue, 0))
  }

  /** The payload keys of the three price buckets, and the bars' labels, in chart order. */
  const BucketKeys: seq<string> := ["0-500", "501-1000", "1000+"]
  const BarNames: seq<string> := ["\U{20B9}0-500", "\U{20B9}501-1000", "\U{20B9}1000+"]

  /** `stats.priceRangeCount?.[key]?.[0]?.count`: present only when the map,
      the key, a first element and its count all are. */
  function FirstCount(stats: StatsData, key: string): (c: Option<int>)
    ensures c.Some? <==>
      && stats.priceRangeCount.Some?
      && key in stats.priceRangeCount.value
      && |stats.priceRangeCount.value[key]| > 0
      && stats.priceRangeCount.value[key][0].count.Some?
    ensures c.Some? ==> c.value == stats.priceRangeCount.value[key][0].count.value
  {
    match stats.priceRangeCount
    case None => None
    case Some(ranges) =>
      if key in ranges && |ranges[key]| > 0 then ranges[key][0].count else None
  }

  /** A bucket's bar height: the reported count, or 0 when anything on the way is missing. */
  function BucketCount(stats: StatsData, key: string): (n: int)
    ensures FirstCount(stats, key).Some? ==> n == FirstCount(stats, key).value
    ensures FirstCount(stats, key).None? ==> n == 0
  {
    NumberOr(FirstCount(stats, key), 0)
  }

  datatype PriceBar = PriceBar(name: string, count: int)

  /** `priceRangeData`: always the three buckets, in their fixed order. */
  function PriceRangeData(stats: StatsData): (bars: seq<PriceBar>)
    ensures |bars| == |BucketKeys| == 3
    ensures forall i :: 0 <= i < |bars| ==> bars[i].name == BarNames[i] && bars[i].count == BucketCount(stats, BucketKeys[i])
  {
    seq(3, i requires 0 <= i < 3 => PriceBar(BarNames[i], BucketCount(stats, BucketKeys[i])))
  }

  /** `bars.some(item => item.count > 0)`. */
  function AnyPositive(bars: seq<PriceBar>): (b: bool)
    ensures b <==> exists i :: 0 <= i < |bars| && bars[i].count > 0
  {
    if bars == [] then false
    else
      var rest := AnyPositive(bars[1..]);
      assert forall i :: 1 <= i < |bars| ==> bars[i] == bars[1..][i - 1];
      bars[0].count > 0 || rest
  }

  /** The bar chart is drawn exactly when some bucket has a positive count;
      otherwise an empty placeholder is shown. */
  lemma ChartShown(stats: StatsData)
    ensures AnyPositive(PriceRangeData(stats)) <==>
      (BucketCount(stats, "0-500") > 0 || BucketCount(stats, "501-1000") > 0 || BucketCount(stats, "1000+") > 0)
  {
    var bars := PriceRangeData(stats);
    assert bars[0].count == BucketCount(stats, "0-500");
    assert bars[1].count == BucketCount(stats, "501-1000");
    assert bars[2].count == BucketCount(stats, "1000+");
  }

  /** A row of the products-without-media table. */
  datatype MediaRow = MediaRow(key: string, sku: string, name: string, category: string)

  /** The product's category came populated, with a non-empty name. */
  predicate HasCategoryName(p: Product) {
    && p.categoryId.Some? && p.categoryId.value.PopulatedCategory?
    && p.categoryId.value.doc.categoryName.Some? && p.categoryId.value.doc.categoryName.value != ""
  }

  /** `product.category_id?.category_name || 'N/A'`. */
  function CategoryLabel(p: Product): (shown: string)
    ensures shown == if HasCategoryName(p) then p.categoryId.value.doc.categoryName.value else "N/A"
  {
    match p.categoryId
    case Some(PopulatedCategory(doc)) => TextOr(doc.categoryName, "N/A")
    case _ => "N/A"
  }

  function MediaRowOf(p: Product): (row: MediaRow)
    ensures row.key == p.id && row.sku == p.sku && row.name == p.productName && row.category == CategoryLabel(p)
  {
    MediaRow(p.id, p.sku, p.productName, CategoryLabel(p))
  }

  /** `productsWithNoMediaData`: one row per product, in payload order; no rows
      when the key is missing. */
  function NoMediaRows(stats: StatsData): (rows: seq<MediaRow>)
    ensures stats.productsWithNoMedia.None? ==> rows == []
    ensures stats.productsWithNoMedia.Some? ==>
      |rows| == |stats.productsWithNoMedia.value|
      && forall i :: 0 <= i < |rows| ==> rows[i] == MediaRowOf(stats.productsWithNoMedia.value[i])
  {
    var products := ListOr(stats.productsWithNoMedia, []);
    seq(|products|, i requires 0 <= i < |products| => MediaRowOf(products[i]))
  }

  /** A row of the category price table. */
  datatype PriceRow = PriceRow(key: Option<string>, category: string, highestPrice: int, productCount: int)

  /** The entry's first embedded category has a non-empty name. */
  predicate HasStatName(c: CategoryStat) {
    && c.category.Some? && |c.category.value| > 0
    && c.category.value[0].categoryName.Some? && c.category.value[0].categoryName.value != ""
  }

  /** `cat.category?.[0]?.category_name || 'N/A'`. */
  function CategoryStatLabel(c: CategoryStat): (shown: string)
    ensures shown == if HasStatName(c) then c.category.value[0].categoryName.value else "N/A"
  {
    match c.category
    case Some(names) => if |names| > 0 then TextOr(names[0].categoryName, "N/A") else "N/A"
    case None => "N/A"
  }

  /** One category's row: missing price and count read as 0. */
  function PriceRowOf(c: CategoryStat): (row: PriceRow)
    ensures row.key == c.id && row.category == CategoryStatLabel(c)
    ensures row.highestPrice == (if c.highestPrice.Some? then c.highestPrice.value else 0)
    ensures row.productCount == (if c.productCount.Some? then c.productCount.value else 0)
  {
    PriceRow(c.id, CategoryStatLabel(c), NumberOr(c.highestPrice, 0), NumberOr(c.productCount, 0))
  }

  /** The rows before sorting, in payload order. */
  function PriceRows(cats: seq<CategoryStat>): (rows: seq<PriceRow>)
    ensures |rows| == |cats| && forall i :: 0 <= i < |rows| ==> rows[i] == PriceRowOf(cats[i])
  {
    seq(|cats|, i requires 0 <= i < |cats| => PriceRowOf(cats[i]))
  }

  predicate NonIncreasing(rows: seq<PriceRow>) {
    forall i, j :: 0 <= i < j < |rows| ==> rows[i].highestPrice >= rows[j].highestPrice
  }

  /** A row no cheaper than the head of a non-increasing list can go in front of it. */
  lemma PrependNonIncreasing(h: PriceRow, rows: seq<PriceRow>)
    requires NonIncreasing(rows)
    requires rows == [] || h.highestPrice >= rows[0].highestPrice
    ensures NonIncreasing([h] + rows)
  {
    var r := [h] + rows;
    forall i, j | 0 <= i < j < |r|
      ensures r[i].highestPrice >= r[j].highestPrice
    {
      assert r[j] == rows[j - 1];
      if i > 0 {
        assert r[i] == rows[i - 1];
      }
    }
  }

  /** Dropping the head keeps a list non-increasing. */
  lemma TailNonIncreasing(rows: seq<PriceRow>)
    requires rows != [] && NonIncreasing(rows)
    ensures NonIncreasing(rows[1..])
  {
    assert forall k :: 0 <= k < |rows| - 1 ==> rows[1..][k] == rows[k + 1];
  }

  /** Places `x` before the first row whose price is not above its own. */
  function InsertByPrice(x: PriceRow, rows: seq<PriceRow>): (r: seq<PriceRow>)
    requires NonIncreasing(rows)
    ensures NonIncreasing(r)
    ensures r != []
    ensures r[0] == x || (rows != [] && r[0] == rows[0])
  {
    if rows == [] || rows[0].highestPrice <= x.highestPrice then
      PrependNonIncreasing(x, rows);
      [x] + rows
    else
      var tail := rows[1..];
      TailNonIncreasing(rows);
      var rest := InsertByPrice(x, tail);
      PrependNonIncreasing(rows[0], rest);
      [rows[0]] + rest
  }

  /** Inserting adds exactly the one row. */
  lemma {:induction false} InsertByPriceCount(x: PriceRow, rows: seq<PriceRow>)
    requires NonIncreasing(rows)
    ensures multiset(InsertByPrice(x, rows)) == multiset(rows) + multiset{x}
  {
    if rows != [] && rows[0].highestPrice > x.highestPrice {
      TailNonIncreasing(rows);
      InsertByPriceCount(x, rows[1..]);
      assert rows == [rows[0]] + rows[1..];
    }
  }

  /** `sort((a, b) => b.highestPrice - a.highestPrice)`: a stable sort by
      highest price, largest first. */
  function SortByPriceDesc(rows: seq<PriceRow>): (r: seq<PriceRow>)
    ensures NonIncreasing(r)
    ensures multiset(r) == multiset(rows)
  {
    if rows == [] then []
    else
      assert rows == [rows[0]] + rows[1..];
      InsertByPriceCount(rows[0], SortByPriceDesc(rows[1..]));
      InsertByPrice(rows[0], SortByPriceDesc(rows[1..]))
  }

  /** `categoryPriceData`: the rows sorted by highest price, largest first, and
      no rows when the key is missing. */
  function CategoryPriceData(stats: StatsData): (rows: seq<PriceRow>)
    ensures stats.categoryHighestPrice.None? ==> rows == []
    ensures NonIncreasing(rows)
    ensures multiset(rows) == multiset(PriceRows(ListOr(stats.categoryHighestPrice, [])))
  {
    match stats.categoryHighestPrice
    case None => []
    case Some(cats) => SortByPriceDesc(PriceRows(cats))
  }

  /** The rows whose highest price is `v`, in order. */
  function WithPrice(rows: seq<PriceRow>, v: int): (r: seq<PriceRow>)
    ensures forall k :: 0 <= k < |r| ==> r[k].highestPrice == v
  {
    if rows == [] then []
    else if rows[0].highestPrice == v then [rows[0]] + WithPrice(rows[1..], v)
    else WithPrice(rows[1..], v)
  }

  /** Selecting by price from a list with a known head. */
  lemma WithPriceCons(h: PriceRow, rows: seq<PriceRow>, v: int)
    ensures WithPrice([h] + rows, v) == (if h.highestPrice == v then [h] else []) + WithPrice(rows, v)
  {
    var r := [h] + rows;
    assert r[0] == h && r[1..] == rows;
  }

  lemma {:induction false} InsertByPriceStable(x: PriceRow, rows: seq<PriceRow>, v: int)
    requires NonIncreasing(rows)
    ensures WithPrice(InsertByPrice(x, rows), v)
      == (if x.highestPrice == v then [x] else []) + WithPrice(rows, v)
  {
    if rows == [] || rows[0].highestPrice <= x.highestPrice {
      WithPriceCons(x, rows, v);
    } else {
      var tail := rows[1..];
      TailNonIncreasing(rows);
      var rest := InsertByPrice(x, tail);
      InsertByPriceStable(x, tail, v);
      WithPriceCons(rows[0], rest, v);
      assert rows == [rows[0]] + tail;
      WithPriceCons(rows[0], tail, v);
    }
  }

  /** Rows with equal highest price keep their payload order. */
  lemma {:induction false} SortByPriceDescStable(rows: seq<PriceRow>, v: int)
    ensures WithPrice(SortByPriceDesc(rows), v) == WithPrice(rows, v)
  {
    if rows != [] {
      SortByPriceDescStable(rows[1..], v);
      InsertByPriceStable(rows[0], SortByPriceDesc(rows[1..]), v);
    }
  }

  /** Before the first fetch completes the slice holds its initial data, whose
      keys are not the ones read here: every bucket is 0, no chart is drawn and
      both tables are empty. */
  lemma InitialViewIsEmpty()
    ensures forall i :: 0 <= i < 3 ==> PriceRangeData(InitialData())[i].count == 0
    ensures !AnyPositive(PriceRangeData(InitialData()))
    ensures NoMediaRows(InitialData()) == [] && CategoryPriceData(InitialData()) == []
  {
    var bars := PriceRangeData(InitialData());
    forall i | 0 <= i < 3 ensures bars[i].count == 0 {
      assert FirstCount(InitialData(), BucketKeys[i]).None?;
    }
  }
}
