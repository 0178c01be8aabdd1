/**
 * The four aggregate views of sales_analysis/views.py: sales by region, by
 * clothing type (with a share of the grand total), by price range, and the
 * distribution of ratings over rating categories (with a share of all
 * ratings). Each view runs one grouped query over the ledger and then builds
 * its result list row by row in a loop.
 */
module SalesAnalysis {
  import opened Wrappers
  import opened Ledger
  import opened Grouping
  import opened Percent

  datatype RegionSales = RegionSales(regionName: string, totalSales: real, orderCount: nat)

  datatype ClothingTypeSales = ClothingTypeSales(clothingTypeName: string, totalSales: real, orderCount: nat, percentage: real)

  datatype PriceRangeSales = PriceRangeSales(priceRangeName: string, totalSales: real, orderCount: nat)

  datatype RatingShare = RatingShare(ratingCategory: string, ratingCount: nat, percentage: real)

  // ---------------------------------------------------------------------------
  // Orderings used by the queries.
  // ---------------------------------------------------------------------------

  /** `order_by('-total_sales')`. */
  predicate TotalDesc<L>(a: Bucket<L>, b: Bucket<L>)
  {
    a.total >= b.total
  }

  /** `order_by('-rating_count')`. */
  predicate CountDesc<L>(a: Bucket<L>, b: Bucket<L>)
  {
    a.count >= b.count
  }

  /** The grouping columns of the price-range query: Django adds the `order_by` column to GROUP BY. */
  datatype RangeKey = RangeKey(name: string, minPrice: real)

  /** `order_by('clothing__price_range__min_price')`; the group without a price range sorts last. */
  predicate MinPriceAsc(a: Bucket<Option<RangeKey>>, b: Bucket<Option<RangeKey>>)
  {
    match (a.key, b.key)
    case (Some(x), Some(y)) => x.minPrice <= y.minPrice
    case (_, None) => true
    case (None, Some(_)) => false
  }

  // ---------------------------------------------------------------------------
  // Sales by region.
  // ---------------------------------------------------------------------------

  /** Each order contributes its `total_amount` under its region's name. */
  function RegionRows(orders: seq<SalesOrder>): seq<Row<string>>
  {
    seq(|orders|, i requires 0 <= i < |orders| => Row(orders[i].region.name, orders[i].totalAmount))
  }

  /**
   * `SalesOrder.objects.values('region__name').annotate(total_sales=Sum('total_amount'),
   * order_count=Count('id')).order_by('-total_sales')`.
   */
  function RegionSalesQuery(orders: seq<SalesOrder>): (q: seq<Bucket<string>>)
    ensures IsGrouping(q, RegionRows(orders))
    ensures SortedBy(q, TotalDesc)
  {
    GroupedQuery(RegionRows(orders), TotalDesc)
  }

  /** `RegionSalesAnalysisView.get`: one result row per region, largest total first. */
  method RegionSalesAnalysis(orders: seq<SalesOrder>) returns (result: seq<RegionSales>)
    ensures var q := RegionSalesQuery(orders);
      |result| == |q| &&
      forall i :: 0 <= i < |q| ==> result[i] == RegionSales(q[i].key, q[i].total, q[i].count)
    ensures forall i, j :: 0 <= i < j < |result| ==> result[i].totalSales >= result[j].totalSales
    ensures forall i, j :: 0 <= i < j < |result| ==> result[i].regionName != result[j].regionName
    ensures forall i :: 0 <= i < |result| ==>
      && result[i].totalSales == SumWhere(RegionRows(orders), result[i].regionName)
      && result[i].orderCount == CountWhere(RegionRows(orders), result[i].regionName)
      && result[i].orderCount > 0
    ensures forall k :: 0 <= k < |orders| ==>
      exists i :: 0 <= i < |result| && result[i].regionName == orders[k].region.name
  {
    var q := RegionSalesQuery(orders);
    result := RegionResponse(q);
    RegionRowsShown(orders, q, result);
  }

  /** The loop of the region view: one result row per query row, in order. */
  method RegionResponse(q: seq<Bucket<string>>) returns (result: seq<RegionSales>)
    ensures |result| == |q|
    ensures forall i :: 0 <= i < |q| ==> result[i] == RegionSales(q[i].key, q[i].total, q[i].count)
  {
    result := [];
    for n := 0 to |q|
      invariant |result| == n
      invariant forall i :: 0 <= i < n ==> result[i] == RegionSales(q[i].key, q[i].total, q[i].count)
    {
      result := result + [RegionSales(q[n].key, q[n].total, q[n].count)];
    }
  }

  /** Result rows copied from the region query keep its order, its distinct names and its sums and counts. */
  lemma RegionRowsShown(orders: seq<SalesOrder>, q: seq<Bucket<string>>, result: seq<RegionSales>)
    requires q == RegionSalesQuery(orders)
    requires |result| == |q| && forall i :: 0 <= i < |q| ==> result[i] == RegionSales(q[i].key, q[i].total, q[i].count)
    ensures forall i, j :: 0 <= i < j < |result| ==> result[i].totalSales >= result[j].totalSales
    ensures forall i, j :: 0 <= i < j < |result| ==> result[i].regionName != result[j].regionName
    ensures forall i :: 0 <= i < |result| ==>
      && result[i].totalSales == SumWhere(RegionRows(orders), result[i].regionName)
      && result[i].orderCount == CountWhere(RegionRows(orders), result[i].regionName)
      && result[i].orderCount > 0
    ensures forall k :: 0 <= k < |orders| ==>
      exists i :: 0 <= i < |result| && result[i].regionName == orders[k].region.name
  {
    var rows := RegionRows(orders);
    forall i, j | 0 <= i < j < |result|
      ensures result[i].totalSales >= result[j].totalSales
    {
      assert TotalDesc(q[i], q[j]);
    }
    forall k | 0 <= k < |orders|
      ensures exists i :: 0 <= i < |result| && result[i].regionName == orders[k].region.name
    {
      assert rows[k].key == orders[k].region.name;
      var i :| 0 <= i < |q| && q[i].key == rows[k].key;
      assert result[i].regionName == orders[k].region.name;
    }
  }

  // ---------------------------------------------------------------------------
  // Sales by clothing type, with each type's share of all sales.
  // ---------------------------------------------------------------------------

  /** Each order item contributes `price * quantity` under its garment's type name. */
  function TypeRows(items: seq<OrderItem>): seq<Row<string>>
  {
    seq(|items|, i requires 0 <= i < |items| =>
      Row(items[i].clothing.clothingType.name, items[i].price * items[i].quantity as real))
  }

  /**
   * `OrderItem.objects.values('clothing__clothing_type__name').annotate(total_sales=
   * Sum(F('price') * F('quantity')), order_count=Count('id')).order_by('-total_sales')`.
   */
  function ClothingTypeSalesQuery(items: seq<OrderItem>): (q: seq<Bucket<string>>)
    ensures IsGrouping(q, TypeRows(items))
    ensures SortedBy(q, TotalDesc)
  {
    GroupedQuery(TypeRows(items), TotalDesc)
  }

  /**
   * `OrderItem.objects.aggregate(total=Sum(F('price') * F('quantity')))['total'] or 0`:
   * the grand total, which the per-type totals partition (0 without items).
   */
  function TotalSalesAmount(items: seq<OrderItem>): (t: real)
    ensures t == Totals(ClothingTypeSalesQuery(items))
    ensures items == [] ==> t == 0.0
  {
    SumAll(TypeRows(items))
  }

  /** One row of the clothing-type view: the bucket and its rounded share of `whole`. */
  function TypeShareRow(b: Bucket<string>, whole: real): ClothingTypeSales
  {
    ClothingTypeSales(b.key, b.total, b.count, Round2(Percentage(b.total, whole)))
  }

  /** `ClothingTypeSalesAnalysisView.get`: the per-type rows with their rounded percentage. */
  method ClothingTypeSalesAnalysis(items: seq<OrderItem>) returns (result: seq<ClothingTypeSales>)
    ensures var q := ClothingTypeSalesQuery(items);
      |result| == |q| &&
      forall i :: 0 <= i < |q| ==> result[i] == TypeShareRow(q[i], TotalSalesAmount(items))
    ensures forall i, j :: 0 <= i < j < |result| ==> result[i].totalSales >= result[j].totalSales
    ensures forall i :: 0 <= i < |result| ==>
      && result[i].totalSales == SumWhere(TypeRows(items), result[i].clothingTypeName)
      && result[i].orderCount == CountWhere(TypeRows(items), result[i].clothingTypeName)
    ensures TotalSalesAmount(items) <= 0.0 ==> forall i :: 0 <= i < |result| ==> result[i].percentage == 0.0
  {
    var q := ClothingTypeSalesQuery(items);
    var totalSalesAmount := TotalSalesAmount(items);
    result := TypeShareResponse(q, totalSalesAmount);
    TypeRowsShown(items, q, result);
  }

  /** The loop of the clothing-type view: each query row with its rounded share of `totalSalesAmount`. */
  method TypeShareResponse(q: seq<Bucket<string>>, totalSalesAmount: real) returns (result: seq<ClothingTypeSales>)
    ensures |result| == |q|
    ensures forall i :: 0 <= i < |q| ==> result[i] == TypeShareRow(q[i], totalSalesAmount)
  {
    result := [];
    for n := 0 to |q|
      invariant |result| == n
      invariant forall i :: 0 <= i < n ==> result[i] == TypeShareRow(q[i], totalSalesAmount)
    {
      var percentage := 0.0;
      if totalSalesAmount > 0.0 {
        percentage := q[n].total / totalSalesAmount * 100.0;
      }
      assert percentage == Percentage(q[n].total, totalSalesAmount);
      result := result + [ClothingTypeSales(q[n].key, q[n].total, q[n].count, Round2(percentage))];
    }
  }

  /** Result rows built from the clothing-type query keep its order and its sums and counts. */
  lemma TypeRowsShown(items: seq<OrderItem>, q: seq<Bucket<string>>, result: seq<ClothingTypeSales>)
    requires q == ClothingTypeSalesQuery(items)
    requires |result| == |q| && forall i :: 0 <= i < |q| ==> result[i] == TypeShareRow(q[i], TotalSalesAmount(items))
    ensures forall i, j :: 0 <= i < j < |result| ==> result[i].totalSales >= result[j].totalSales
    ensures forall i :: 0 <= i < |result| ==>
      && result[i].totalSales == SumWhere(TypeRows(items), result[i].clothingTypeName)
      && result[i].orderCount == CountWhere(TypeRows(items), result[i].clothingTypeName)
    ensures TotalSalesAmount(items) <= 0.0 ==> forall i :: 0 <= i < |result| ==> result[i].percentage == 0.0
  {
    forall i, j | 0 <= i < j < |result|
      ensures result[i].totalSales >= result[j].totalSales
    {
      assert TotalDesc(q[i], q[j]);
    }
    forall i | 0 <= i < |result| && TotalSalesAmount(items) <= 0.0
      ensures result[i].percentage == 0.0
    {
      assert Percentage(q[i].total, TotalSalesAmount(items)) == 0.0;
      assert (0.0 * 100.0).Floor == 0;
    }
  }

  /** Sum of the unrounded shares of the bucket totals in `whole`. */
  function Shares<L>(bs: seq<Bucket<L>>, whole: real): real
  {
    if bs == [] then 0.0 else Percentage(bs[0].total, whole) + Shares(bs[1..], whole)
  }

  /** Sum of the shares as the view reports them, each rounded to cents. */
  function RoundedShares<L>(bs: seq<Bucket<L>>, whole: real): real
  {
    if bs == [] then 0.0 else Round2(Percentage(bs[0].total, whole)) + RoundedShares(bs[1..], whole)
  }

  lemma {:induction false} SharesScale<L>(bs: seq<Bucket<L>>, whole: real)
    requires 0.0 < whole
    ensures Shares(bs, whole) * whole == Totals(bs) * 100.0
  {
    if bs != [] {
      SharesScale(bs[1..], whole);
      var p := Percentage(bs[0].total, whole);
      Distribute(p, Shares(bs[1..], whole), whole);
      Distribute(bs[0].total, Totals(bs[1..]), 100.0);
    }
  }

  /** Multiplication distributes over a sum. */
  lemma Distribute(a: real, b: real, c: real)
    ensures (a + b) * c == a * c + b * c
  {
  }

  /** Shares of a positive whole that the buckets partition add up to 100. */
  lemma SharesOfWhole<L>(bs: seq<Bucket<L>>, whole: real)
    requires 0.0 < whole && Totals(bs) == whole
    ensures Shares(bs, whole) == 100.0
  {
    var s := Shares(bs, whole);
    SharesScale(bs, whole);
    calc {
      s * whole;
      Totals(bs) * 100.0;
      whole * 100.0;
    }
    assert (s - 100.0) * whole == 0.0;
  }

  lemma {:induction false} RoundedSharesNear<L>(bs: seq<Bucket<L>>, whole: real)
    ensures Shares(bs, whole) - 0.005 * |bs| as real <= RoundedShares(bs, whole)
    ensures RoundedShares(bs, whole) <= Shares(bs, whole) + 0.005 * |bs| as real
  {
    if bs != [] {
      RoundedSharesNear(bs[1..], whole);
    }
  }

  /**
   * With a positive grand total the clothing-type shares add up to exactly
   * 100 before rounding, and the reported (rounded) percentages to 100 within
   * half a cent per row.
   */
  lemma ClothingTypeSharesSum(items: seq<OrderItem>)
    requires TotalSalesAmount(items) > 0.0
    ensures Shares(ClothingTypeSalesQuery(items), TotalSalesAmount(items)) == 100.0
    ensures var q := ClothingTypeSalesQuery(items);
      100.0 - 0.005 * |q| as real <= RoundedShares(q, TotalSalesAmount(items)) <= 100.0 + 0.005 * |q| as real
  {
    var q := ClothingTypeSalesQuery(items);
    var w := TotalSalesAmount(items);
    SharesOfWhole(q, w);
    RoundedSharesNear(q, w);
  }

  // ---------------------------------------------------------------------------
  // Sales by price range.
  // ---------------------------------------------------------------------------

  /** The grouping columns of an item's garment's price range, or none without a range. */
  function RangeKeyOf(c: Clothing): Option<RangeKey>
  {
    match c.priceRange
    case None => None
    case Some(pr) => Some(RangeKey(pr.name, pr.minPrice))
  }

  /** Each order item contributes `price * quantity` under its garment's price range. */
  function RangeRows(items: seq<OrderItem>): seq<Row<Option<RangeKey>>>
  {
    seq(|items|, i requires 0 <= i < |items| =>
      Row(RangeKeyOf(items[i].clothing), items[i].price * items[i].quantity as real))
  }

  /**
   * `OrderItem.objects.values('clothing__price_range__name').annotate(..)
   * .order_by('clothing__price_range__min_price')`.
   */
  function PriceRangeSalesQuery(items: seq<OrderItem>): (q: seq<Bucket<Option<RangeKey>>>)
    ensures IsGrouping(q, RangeRows(items))
    ensures SortedBy(q, MinPriceAsc)
  {
    GroupedQuery(RangeRows(items), MinPriceAsc)
  }

  /** The view's `if item['clothing__price_range__name']`: a range is present and its name is non-empty. */
  predicate NamedRange(b: Bucket<Option<RangeKey>>)
  {
    b.key.Some? && b.key.value.name != ""
  }

  function PriceRangeRow(b: Bucket<Option<RangeKey>>): PriceRangeSales
  {
    PriceRangeSales(if b.key.Some? then b.key.value.name else "", b.total, b.count)
  }

  /** `PriceRangeSalesAnalysisView.get`: the rows of the query whose range name is truthy, in query order. */
  method PriceRangeSalesAnalysis(items: seq<OrderItem>) returns (result: seq<PriceRangeSales>)
    ensures var shown := Filter(PriceRangeSalesQuery(items), NamedRange);
      |result| == |shown| &&
      forall i :: 0 <= i < |shown| ==> result[i] == PriceRangeRow(shown[i])
  {
    var salesData := PriceRangeSalesQuery(items);
    result := PriceRangeResponse(salesData);
  }

  /** The loop of the price-range view over the query's rows, skipping those without a range name. */
  method PriceRangeResponse(salesData: seq<Bucket<Option<RangeKey>>>) returns (result: seq<PriceRangeSales>)
    ensures var shown := Filter(salesData, NamedRange);
      |result| == |shown| &&
      forall i :: 0 <= i < |shown| ==> result[i] == PriceRangeRow(shown[i])
  {
    result := [];
    ghost var shown: seq<Bucket<Option<RangeKey>>> := [];
    for n := 0 to |salesData|
      invariant shown == Filter(salesData[..n], NamedRange)
      invariant |result| == |shown|
      invariant forall i :: 0 <= i < |result| ==> result[i] == PriceRangeRow(shown[i])
    {
      var item := salesData[n];
      assert salesData[..n + 1] == salesData[..n] + [item];
      FilterSnoc(salesData[..n], item, NamedRange);
      if item.key.Some? && item.key.value.name != "" {
        result := result + [PriceRangeSales(item.key.value.name, item.total, item.count)];
        shown := shown + [item];
      }
    }
    assert salesData[..|salesData|] == salesData;
  }

  /**
   * The rows the price-range view shows: only ranges with a non-empty name,
   * lowest `min_price` first, one row per range, each with the sum and count
   * of the items in that range; every named range that has items is shown.
   */
  lemma PriceRangeShown(items: seq<OrderItem>)
    ensures var shown := Filter(PriceRangeSalesQuery(items), NamedRange);
      && (forall i :: 0 <= i < |shown| ==> shown[i].key.Some? && shown[i].key.value.name != "")
      && (forall i, j :: 0 <= i < j < |shown| ==> shown[i].key.value.minPrice <= shown[j].key.value.minPrice)
      && DistinctLabels(shown)
      && (forall i :: 0 <= i < |shown| ==>
            shown[i].total == SumWhere(RangeRows(items), shown[i].key)
            && shown[i].count == CountWhere(RangeRows(items), shown[i].key))
      && (forall k :: 0 <= k < |items| && RangeKeyOf(items[k].clothing).Some? &&
                      RangeKeyOf(items[k].clothing).value.name != "" ==>
            exists i :: 0 <= i < |shown| && shown[i].key == RangeKeyOf(items[k].clothing))
  {
    var q := PriceRangeSalesQuery(items);
    var shown := Filter(q, NamedRange);
    FilterKeepsOrder(q, NamedRange, MinPriceAsc);
    FilterKeepsDistinct(q, NamedRange);
    NamedRowsExact(q, RangeRows(items), shown);
    forall i, j | 0 <= i < j < |shown|
      ensures shown[i].key.value.minPrice <= shown[j].key.value.minPrice
    {
      assert MinPriceAsc(shown[i], shown[j]);
    }
    NamedRangesCovered(items, q, shown);
  }

  /** Each row kept by the view's name filter is a bucket of the grouping, with a named range. */
  lemma NamedRowsExact(q: seq<Bucket<Option<RangeKey>>>, rows: seq<Row<Option<RangeKey>>>, shown: seq<Bucket<Option<RangeKey>>>)
    requires IsGrouping(q, rows) && shown == Filter(q, NamedRange)
    ensures forall i :: 0 <= i < |shown| ==>
      && shown[i].key.Some? && shown[i].key.value.name != ""
      && shown[i].total == SumWhere(rows, shown[i].key)
      && shown[i].count == CountWhere(rows, shown[i].key)
  {
    forall i | 0 <= i < |shown|
      ensures shown[i].key.Some? && shown[i].key.value.name != ""
      ensures shown[i].total == SumWhere(rows, shown[i].key)
      ensures shown[i].count == CountWhere(rows, shown[i].key)
    {
      assert shown[i] in shown;
      var p :| 0 <= p < |q| && q[p] == shown[i];
    }
  }

  /** Every item whose garment has a named range finds that range among the rows kept by the filter. */
  lemma NamedRangesCovered(items: seq<OrderItem>, q: seq<Bucket<Option<RangeKey>>>, shown: seq<Bucket<Option<RangeKey>>>)
    requires IsGrouping(q, RangeRows(items)) && shown == Filter(q, NamedRange)
    ensures forall k :: 0 <= k < |items| && RangeKeyOf(items[k].clothing).Some? &&
                        RangeKeyOf(items[k].clothing).value.name != "" ==>
              exists i :: 0 <= i < |shown| && shown[i].key == RangeKeyOf(items[k].clothing)
  {
    forall k | 0 <= k < |items| && RangeKeyOf(items[k].clothing).Some? && RangeKeyOf(items[k].clothing).value.name != ""
      ensures exists i :: 0 <= i < |shown| && shown[i].key == RangeKeyOf(items[k].clothing)
    {
      assert RangeRows(items)[k].key == RangeKeyOf(items[k].clothing);
      var p :| 0 <= p < |q| && q[p].key == RangeRows(items)[k].key;
      assert NamedRange(q[p]);
      assert q[p] in shown;
      var i :| 0 <= i < |shown| && shown[i] == q[p];
    }
  }

  // ---------------------------------------------------------------------------
  // Distribution of ratings over categories.
  // ---------------------------------------------------------------------------

  /** Each rating counts once under its category's name, or under none without a category. */
  function RatingRows(ratings: seq<Rating>): seq<Row<Option<string>>>
  {
    seq(|ratings|, i requires 0 <= i < |ratings| =>
      Row(if ratings[i].category.Some? then Some(ratings[i].category.value.name) else None, 1.0))
  }

  /** `Rating.objects.values('category__name').annotate(rating_count=Count('id')).order_by('-rating_count')`. */
  function RatingDistributionQuery(ratings: seq<Rating>): (q: seq<Bucket<Option<string>>>)
    ensures IsGrouping(q, RatingRows(ratings))
    ensures SortedBy(q, CountDesc)
    ensures Counts(q) == |ratings|
  {
    GroupedQuery(RatingRows(ratings), CountDesc)
  }

  /** The view's `if item['category__name']`: a category is present and its name is non-empty. */
  predicate NamedCategory(b: Bucket<Option<string>>)
  {
    b.key.Some? && b.key.value != ""
  }

  function RatingShareRow(b: Bucket<Option<string>>, totalRatings: nat): RatingShare
  {
    RatingShare(if b.key.Some? then b.key.value else "", b.count,
                Round2(Percentage(b.count as real, totalRatings as real)))
  }

  /**
   * `RatingDistributionView.get`: the categories with a truthy name, most
   * rated first, each with its share of ALL ratings (`Rating.objects.count()`,
   * which includes ratings without a category).
   */
  method RatingDistribution(ratings: seq<Rating>) returns (result: seq<RatingShare>)
    ensures var shown := Filter(RatingDistributionQuery(ratings), NamedCategory);
      |result| == |shown| &&
      forall i :: 0 <= i < |shown| ==> result[i] == RatingShareRow(shown[i], |ratings|)
  {
    var distribution := RatingDistributionQuery(ratings);
    var totalRatings := |ratings|;
    result := RatingResponse(distribution, totalRatings);
  }

  /** The loop of the rating view over the query's rows, skipping those without a category name. */
  method RatingResponse(distribution: seq<Bucket<Option<string>>>, totalRatings: nat) returns (result: seq<RatingShare>)
    ensures var shown := Filter(distribution, NamedCategory);
      |result| == |shown| &&
      forall i :: 0 <= i < |shown| ==> result[i] == RatingShareRow(shown[i], totalRatings)
  {
    result := [];
    ghost var shown: seq<Bucket<Option<string>>> := [];
    for n := 0 to |distribution|
      invariant shown == Filter(distribution[..n], NamedCategory)
      invariant SharesShown(result, shown, totalRatings)
    {
      var item := distribution[n];
      assert distribution[..n + 1] == distribution[..n] + [item];
      FilterSnoc(distribution[..n], item, NamedCategory);
      if item.key.Some? && item.key.value != "" {
        var percentage := 0.0;
        if totalRatings > 0 {
          percentage := item.count as real / totalRatings as real * 100.0;
        }
        assert percentage == Percentage(item.count as real, totalRatings as real);
        SharesShownSnoc(result, shown, totalRatings, item);
        result := result + [RatingShare(item.key.value, item.count, Round2(percentage))];
        shown := shown + [item];
      }
    }
    assert distribution[..|distribution|] == distribution;
  }

  /** Each response row is the share row of the bucket at its position. */
  ghost predicate SharesShown(result: seq<RatingShare>, shown: seq<Bucket<Option<string>>>, totalRatings: nat)
  {
    |result| == |shown| && forall i :: 0 <= i < |result| ==> result[i] == RatingShareRow(shown[i], totalRatings)
  }

  lemma SharesShownSnoc(result: seq<RatingShare>, shown: seq<Bucket<Option<string>>>, totalRatings: nat,
                        b: Bucket<Option<string>>)
    requires SharesShown(result, shown, totalRatings)
    ensures SharesShown(result + [RatingShareRow(b, totalRatings)], shown + [b], totalRatings)
  {
    var result', shown' := result + [RatingShareRow(b, totalRatings)], shown + [b];
    forall i | 0 <= i < |result'| ensures result'[i] == RatingShareRow(shown'[i], totalRatings) {
      if i < |result| {
        assert result'[i] == result[i] && shown'[i] == shown[i];
      }
    }
  }

  /** Sum of the unrounded shares of the bucket counts in `whole`. */
  function CountShares<L>(bs: seq<Bucket<L>>, whole: real): real
  {
    if bs == [] then 0.0 else Percentage(bs[0].count as real, whole) + CountShares(bs[1..], whole)
  }

  lemma {:induction false} CountSharesScale<L>(bs: seq<Bucket<L>>, whole: real)
    requires 0.0 < whole
    ensures CountShares(bs, whole) * whole == CountTotal(bs) * 100.0
  {
    if bs != [] {
      CountSharesScale(bs[1..], whole);
      var p := Percentage(bs[0].count as real, whole);
      Distribute(p, CountShares(bs[1..], whole), whole);
      Distribute(bs[0].count as real, CountTotal(bs[1..]), 100.0);
    }
  }

  /** The bucket counts summed as reals. */
  function CountTotal<L>(bs: seq<Bucket<L>>): real
  {
    if bs == [] then 0.0 else bs[0].count as real + CountTotal(bs[1..])
  }

  lemma {:induction false} CountTotalIsCounts<L>(bs: seq<Bucket<L>>)
    ensures CountTotal(bs) == Counts(bs) as real
  {
    if bs != [] {
      CountTotalIsCounts(bs[1..]);
    }
  }

  /** Shares of `whole` that bucket counts not exceeding `whole` take add up to at most 100. */
  lemma CountSharesBound<L>(bs: seq<Bucket<L>>, whole: nat)
    requires Counts(bs) <= whole
    ensures CountShares(bs, whole as real) <= 100.0
  {
    if whole > 0 {
      CountTotalIsCounts(bs);
      PositiveCountSharesBound(bs, whole as real);
    } else {
      CountSharesOfNothing(bs);
    }
  }

  lemma PositiveCountSharesBound<L>(bs: seq<Bucket<L>>, w: real)
    requires 0.0 < w && CountTotal(bs) <= w
    ensures CountShares(bs, w) <= 100.0
  {
    CountSharesScale(bs, w);
    ShareAtMost100(CountShares(bs, w), w, CountTotal(bs));
  }

  /** A share that scales to a part no larger than the whole is at most 100. */
  lemma ShareAtMost100(s: real, w: real, c: real)
    requires 0.0 < w && s * w == c * 100.0 && c <= w
    ensures s <= 100.0
  {
    assert (100.0 - s) * w == (w - c) * 100.0;
    FactorSign(100.0 - s, w);
  }

  /** A product with a positive factor has the sign of the other factor. */
  lemma FactorSign(x: real, w: real)
    requires 0.0 < w && 0.0 <= x * w
    ensures 0.0 <= x
  {
  }

  /** Sum of the count shares as the view reports them, each rounded to cents. */
  function RoundedCountShares<L>(bs: seq<Bucket<L>>, whole: real): real
  {
    if bs == [] then 0.0 else Round2(Percentage(bs[0].count as real, whole)) + RoundedCountShares(bs[1..], whole)
  }

  lemma {:induction false} RoundedCountSharesNear<L>(bs: seq<Bucket<L>>, whole: real)
    ensures CountShares(bs, whole) - 0.005 * |bs| as real <= RoundedCountShares(bs, whole)
    ensures RoundedCountShares(bs, whole) <= CountShares(bs, whole) + 0.005 * |bs| as real
  {
    if bs != [] {
      RoundedCountSharesNear(bs[1..], whole);
    }
  }

  lemma {:induction false} CountSharesOfNothing<L>(bs: seq<Bucket<L>>)
    ensures CountShares(bs, 0.0) == 0.0
  {
    if bs != [] {
      CountSharesOfNothing(bs[1..]);
    }
  }

  /**
   * The shown rating shares never add up to more than 100 before rounding:
   * their denominator counts every rating, shown or not. Rounded as reported,
   * they exceed 100 by at most half a cent per row. The shown rows have
   * distinct, non-empty category names, most rated first.
   */
  lemma RatingSharesAtMost100(ratings: seq<Rating>)
    ensures var shown := Filter(RatingDistributionQuery(ratings), NamedCategory);
      && CountShares(shown, |ratings| as real) <= 100.0
      && RoundedCountShares(shown, |ratings| as real) <= 100.0 + 0.005 * |shown| as real
      && (forall i :: 0 <= i < |shown| ==> shown[i].key.Some? && shown[i].key.value != "")
      && (forall i, j :: 0 <= i < j < |shown| ==> shown[i].count >= shown[j].count)
      && DistinctLabels(shown)
  {
    var q := RatingDistributionQuery(ratings);
    var shown := Filter(q, NamedCategory);
    FilterKeepsOrder(q, NamedCategory, CountDesc);
    FilterKeepsDistinct(q, NamedCategory);
    FilterCounts(q, NamedCategory);
    CountSharesBound(shown, |ratings|);
    RoundedCountSharesNear(shown, |ratings| as real);
    forall i | 0 <= i < |shown| ensures shown[i].key.Some? && shown[i].key.value != "" {
      assert shown[i] in shown;
    }
  }
}
