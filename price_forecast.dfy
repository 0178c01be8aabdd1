/**
 * `PriceForecastView.get` (sales_analysis/views.py): the average listed price
 * per clothing type, merged with the quantity sold and the average selling
 * price per type, and a three-way rule that suggests raising, lowering or
 * keeping the price.
 */
module PriceForecast {
  import opened Wrappers
  import opened Ledger
  import opened Grouping
  import opened Percent

  // ---------------------------------------------------------------------------
  // `order_by('clothing_type__name')`: code-point lexicographic order.
  // ---------------------------------------------------------------------------

  /** `a` sorts before or equal to `b`, character by character, a prefix first. */
  predicate LexLe(a: string, b: string)
    decreases |a|
  {
    |a| == 0 || (|b| > 0 && (a[0] < b[0] || (a[0] == b[0] && LexLe(a[1..], b[1..]))))
  }

  lemma {:induction false} LexLeTotal(a: string, b: string)
    ensures LexLe(a, b) || LexLe(b, a)
    decreases |a|
  {
    if |a| > 0 && |b| > 0 && a[0] == b[0] {
      LexLeTotal(a[1..], b[1..]);
    }
  }

  lemma {:induction false} LexLeTransitive(a: string, b: string, c: string)
    requires LexLe(a, b) && LexLe(b, c)
    ensures LexLe(a, c)
    decreases |a|
  {
    if |a| > 0 && a[0] == b[0] && b[0] == c[0] {
      LexLeTransitive(a[1..], b[1..], c[1..]);
    }
  }

  lemma {:induction false} LexLeAntisymmetric(a: string, b: string)
    requires LexLe(a, b) && LexLe(b, a)
    ensures a == b
    decreases |a|
  {
    if |a| > 0 {
      LexLeAntisymmetric(a[1..], b[1..]);
      assert a == [a[0]] + a[1..] && b == [b[0]] + b[1..];
    }
  }

  predicate NameAsc(a: Bucket<string>, b: Bucket<string>)
  {
    LexLe(a.key, b.key)
  }

  lemma NameAscIsTotalPreorder()
    ensures TotalPreorder(NameAsc)
  {
    forall a: Bucket<string>, b: Bucket<string> ensures NameAsc(a, b) || NameAsc(b, a) {
      LexLeTotal(a.key, b.key);
    }
    forall a: Bucket<string>, b: Bucket<string>, c: Bucket<string> | NameAsc(a, b) && NameAsc(b, c)
      ensures NameAsc(a, c)
    {
      LexLeTransitive(a.key, b.key, c.key);
    }
  }

  /** A grouping sorted by name has strictly increasing names. */
  lemma SortedByNameIsStrict(q: seq<Bucket<string>>)
    requires DistinctLabels(q) && SortedBy(q, NameAsc)
    ensures forall i, j :: 0 <= i < j < |q| ==> LexLe(q[i].key, q[j].key) && !LexLe(q[j].key, q[i].key)
  {
    forall i, j | 0 <= i < j < |q| ensures !LexLe(q[j].key, q[i].key) {
      if LexLe(q[j].key, q[i].key) {
        LexLeAntisymmetric(q[i].key, q[j].key);
      }
    }
  }

  // ---------------------------------------------------------------------------
  // The two queries.
  // ---------------------------------------------------------------------------

  /** Each garment contributes its listed price under its type's name. */
  function ListedPriceRows(clothes: seq<Clothing>): seq<Row<string>>
  {
    seq(|clothes|, i requires 0 <= i < |clothes| => Row(clothes[i].clothingType.name, clothes[i].price))
  }

  /** `Clothing.objects.values('clothing_type__name').annotate(avg_price=Avg('price')).order_by('clothing_type__name')`. */
  function PriceDataQuery(clothes: seq<Clothing>): (q: seq<Bucket<string>>)
    ensures IsGrouping(q, ListedPriceRows(clothes))
    ensures SortedBy(q, NameAsc)
  {
    NameAscIsTotalPreorder();
    GroupedQuery(ListedPriceRows(clothes), NameAsc)
  }

  /** `Avg(..)` of a non-empty group. */
  function Average(b: Bucket<string>): (a: real)
    requires b.count > 0
    ensures a * b.count as real == b.total
  {
    b.total / b.count as real
  }

  /** One row of the sales query: a type's total quantity sold and its average selling price. */
  datatype SalesStat = SalesStat(typeName: string, totalQuantity: real, avgSoldPrice: real)

  /** Each order item contributes its quantity under its garment's type name. */
  function QuantityRows(items: seq<OrderItem>): seq<Row<string>>
  {
    seq(|items|, i requires 0 <= i < |items| => Row(items[i].clothing.clothingType.name, items[i].quantity as real))
  }

  /** Each order item contributes its selling price under its garment's type name. */
  function SoldPriceRows(items: seq<OrderItem>): seq<Row<string>>
  {
    seq(|items|, i requires 0 <= i < |items| => Row(items[i].clothing.clothingType.name, items[i].price))
  }

  /**
   * `OrderItem.objects.values('clothing__clothing_type__name').annotate(total_quantity=
   * Sum('quantity'), avg_sold_price=Avg('price')).order_by('clothing__clothing_type__name')`.
   */
  function SalesDataQuery(items: seq<OrderItem>): (s: seq<SalesStat>)
    ensures forall i, j :: 0 <= i < j < |s| ==> s[i].typeName != s[j].typeName
    ensures forall i :: 0 <= i < |s| ==>
      && CountWhere(SoldPriceRows(items), s[i].typeName) > 0
      && s[i].totalQuantity == SumWhere(QuantityRows(items), s[i].typeName)
      && s[i].avgSoldPrice == SumWhere(SoldPriceRows(items), s[i].typeName) / CountWhere(SoldPriceRows(items), s[i].typeName) as real
    ensures forall k :: 0 <= k < |items| ==> HasSalesRow(s, items[k].clothing.clothingType.name)
  {
    NameAscIsTotalPreorder();
    var q := GroupedQuery(QuantityRows(items), NameAsc);
    SameCounts(items, q);
    var s := SalesStats(items, q);
    SalesStatsCover(items, q, s);
    s
  }

  /** The sales rows built from the groups `q` of the quantity rows. */
  function SalesStats(items: seq<OrderItem>, q: seq<Bucket<string>>): (s: seq<SalesStat>)
    requires IsGrouping(q, QuantityRows(items))
    requires forall i :: 0 <= i < |q| ==> CountWhere(SoldPriceRows(items), q[i].key) == CountWhere(QuantityRows(items), q[i].key)
    ensures |s| == |q|
    ensures forall i :: 0 <= i < |q| ==> s[i].typeName == q[i].key
    ensures forall i :: 0 <= i < |s| ==>
      && CountWhere(SoldPriceRows(items), s[i].typeName) > 0
      && s[i].totalQuantity == SumWhere(QuantityRows(items), s[i].typeName)
      && s[i].avgSoldPrice == SumWhere(SoldPriceRows(items), s[i].typeName) / CountWhere(SoldPriceRows(items), s[i].typeName) as real
  {
    seq(|q|, i requires 0 <= i < |q| =>
      SalesStat(q[i].key, q[i].total, SumWhere(SoldPriceRows(items), q[i].key) / q[i].count as real))
  }

  /** Some sales row is for the type named `name`. */
  ghost predicate HasSalesRow(s: seq<SalesStat>, name: string)
  {
    exists i :: 0 <= i < |s| && s[i].typeName == name
  }

  /** Rows that carry the labels of a grouping of the quantity rows name every item's type. */
  lemma SalesStatsCover(items: seq<OrderItem>, q: seq<Bucket<string>>, s: seq<SalesStat>)
    requires IsGrouping(q, QuantityRows(items))
    requires |s| == |q| && forall i :: 0 <= i < |q| ==> s[i].typeName == q[i].key
    ensures forall k :: 0 <= k < |items| ==> HasSalesRow(s, items[k].clothing.clothingType.name)
  {
    var rows := QuantityRows(items);
    forall k | 0 <= k < |items|
      ensures HasSalesRow(s, items[k].clothing.clothingType.name)
    {
      assert rows[k].key == items[k].clothing.clothingType.name;
      var i :| 0 <= i < |q| && q[i].key == rows[k].key;
      assert s[i].typeName == q[i].key;
    }
  }

  /** The quantity and price rows of the same items have the same labels, so the same count per label. */
  lemma SameCounts(items: seq<OrderItem>, q: seq<Bucket<string>>)
    ensures forall i :: 0 <= i < |q| ==> CountWhere(SoldPriceRows(items), q[i].key) == CountWhere(QuantityRows(items), q[i].key)
  {
    forall i | 0 <= i < |q| ensures CountWhere(SoldPriceRows(items), q[i].key) == CountWhere(QuantityRows(items), q[i].key) {
      SameKeysSameCount(SoldPriceRows(items), QuantityRows(items), q[i].key);
    }
  }

  lemma {:induction false} SameKeysSameCount(a: seq<Row<string>>, b: seq<Row<string>>, l: string)
    requires |a| == |b| && forall k :: 0 <= k < |a| ==> a[k].key == b[k].key
    ensures CountWhere(a, l) == CountWhere(b, l)
  {
    if a != [] {
      SameKeysSameCount(a[..|a| - 1], b[..|b| - 1], l);
    }
  }

  // ---------------------------------------------------------------------------
  // The merge and the decision rule.
  // ---------------------------------------------------------------------------

  /** One value of `combined_data`. */
  datatype Combined = Combined(avgPrice: real, totalQuantity: real, avgSoldPrice: real)

  /** One row of the response. */
  datatype PriceSuggestion = PriceSuggestion(clothingType: string, forecastedPrice: real)

  /** The last sales row named `name`: the one whose values the second loop leaves in place. */
  function LastSale(salesData: seq<SalesStat>, name: string): (r: Option<SalesStat>)
    ensures r.None? <==> forall i :: 0 <= i < |salesData| ==> salesData[i].typeName != name
    ensures r.Some? ==> r.value.typeName == name && r.value in salesData
    ensures forall i :: 0 <= i < |salesData| && salesData[i].typeName == name ==>
      r.Some? && (LastNamed(salesData, name, i) ==> r.value == salesData[i])
  {
    if salesData == [] then None
    else if salesData[|salesData| - 1].typeName == name then Some(salesData[|salesData| - 1])
    else
      var prefix := salesData[..|salesData| - 1];
      LastNamedPrefix(salesData, name);
      LastSale(prefix, name)
  }

  /** Below a last row that is named otherwise, the last row named `name` is the same in the prefix. */
  lemma LastNamedPrefix(salesData: seq<SalesStat>, name: string)
    requires |salesData| > 0 && salesData[|salesData| - 1].typeName != name
    ensures forall i :: 0 <= i < |salesData| - 1 ==>
      salesData[..|salesData| - 1][i] == salesData[i] &&
      (LastNamed(salesData, name, i) <==> LastNamed(salesData[..|salesData| - 1], name, i))
  {
  }

  /** Row `i` is the last sales row named `name`. */
  predicate LastNamed(salesData: seq<SalesStat>, name: string, i: int)
    requires 0 <= i < |salesData|
  {
    salesData[i].typeName == name && forall j :: i < j < |salesData| ==> salesData[j].typeName != name
  }

  /** The merged entry of a type: its listed average, and the figures of its last sales row or the defaults 0 and 0. */
  function Merged(avgPrice: real, salesData: seq<SalesStat>, name: string): (c: Combined)
    ensures c.avgPrice == avgPrice
    ensures (forall i :: 0 <= i < |salesData| ==> salesData[i].typeName != name) ==>
      c.totalQuantity == 0.0 && c.avgSoldPrice == 0.0
    ensures forall i :: 0 <= i < |salesData| && LastNamed(salesData, name, i) ==>
      c.totalQuantity == salesData[i].totalQuantity && c.avgSoldPrice == salesData[i].avgSoldPrice
  {
    match LastSale(salesData, name)
    case None => Combined(avgPrice, 0.0, 0.0)
    case Some(s) => Combined(avgPrice, s.totalQuantity, s.avgSoldPrice)
  }

  /**
   * The suggestion rule, first match wins: raise to 105% of the average
   * selling price when more than 100 were sold above the listed average;
   * otherwise lower to 95% of it when fewer than 50 were sold below; otherwise
   * keep the listed average.
   */
  function SuggestPrice(c: Combined): (r: real)
    ensures r == c.avgPrice || r == c.avgSoldPrice * 1.05 || r == c.avgSoldPrice * 0.95
    ensures r != c.avgPrice ==>
      (c.totalQuantity > 100.0 && c.avgSoldPrice > c.avgPrice) || (c.totalQuantity < 50.0 && c.avgSoldPrice < c.avgPrice)
  {
    if c.totalQuantity > 100.0 && c.avgSoldPrice > c.avgPrice then c.avgSoldPrice * 1.05
    else if c.totalQuantity < 50.0 && c.avgSoldPrice < c.avgPrice then c.avgSoldPrice * 0.95
    else c.avgPrice
  }

  /** The first two loops of the view: `combined_data` as a map and the order its keys were inserted in. */
  method Merge(priceData: seq<Bucket<string>>, salesData: seq<SalesStat>)
    returns (combined: map<string, Combined>, order: seq<string>)
    requires DistinctLabels(priceData)
    requires forall i :: 0 <= i < |priceData| ==> priceData[i].count > 0
    ensures |order| == |priceData|
    ensures forall i :: 0 <= i < |order| ==> order[i] == priceData[i].key
    ensures forall name :: name in combined <==> name in order
    ensures forall i :: 0 <= i < |priceData| ==>
      combined[priceData[i].key] == Merged(Average(priceData[i]), salesData, priceData[i].key)
  {
    combined, order := ListedPrices(priceData);
    combined := MergeSales(priceData, salesData, combined, order);
  }

  /** The first loop: every listed type with its average price and no sales yet, in query order. */
  method ListedPrices(priceData: seq<Bucket<string>>) returns (combined: map<string, Combined>, order: seq<string>)
    requires DistinctLabels(priceData)
    requires forall i :: 0 <= i < |priceData| ==> priceData[i].count > 0
    ensures |order| == |priceData|
    ensures forall i :: 0 <= i < |order| ==> order[i] == priceData[i].key
    ensures forall name :: name in combined <==> name in order
    ensures forall i :: 0 <= i < |priceData| ==> combined[priceData[i].key] == Combined(Average(priceData[i]), 0.0, 0.0)
  {
    combined := map[];
    order := [];
    for n := 0 to |priceData|
      invariant |order| == n
      invariant forall i :: 0 <= i < n ==> order[i] == priceData[i].key
      invariant forall name :: name in combined <==> name in order
      invariant forall i :: 0 <= i < n ==> combined[priceData[i].key] == Combined(Average(priceData[i]), 0.0, 0.0)
    {
      var item := priceData[n];
      var typeName := item.key;
      assert typeName !in order by {
        forall i | 0 <= i < n ensures order[i] != typeName { assert priceData[i].key != priceData[n].key; }
      }
      combined := combined[typeName := Combined(Average(item), 0.0, 0.0)];
      order := order + [typeName];
    }
  }

  /** The second loop: each sales row overwrites the sales figures of its type when the type is listed. */
  method MergeSales(priceData: seq<Bucket<string>>, salesData: seq<SalesStat>, combined0: map<string, Combined>, order: seq<string>)
    returns (combined: map<string, Combined>)
    requires forall i :: 0 <= i < |priceData| ==> priceData[i].count > 0
    requires forall name :: name in combined0 <==> name in order
    requires forall i :: 0 <= i < |priceData| ==>
      priceData[i].key in combined0 && combined0[priceData[i].key] == Combined(Average(priceData[i]), 0.0, 0.0)
    ensures forall name :: name in combined <==> name in order
    ensures forall i :: 0 <= i < |priceData| ==>
      combined[priceData[i].key] == Merged(Average(priceData[i]), salesData, priceData[i].key)
  {
    combined := combined0;
    assert salesData[..0] == [];
    for n := 0 to |salesData|
      invariant forall name :: name in combined <==> name in order
      invariant forall i :: 0 <= i < |priceData| ==>
        combined[priceData[i].key] == Merged(Average(priceData[i]), salesData[..n], priceData[i].key)
    {
      var item := salesData[n];
      var typeName := item.typeName;
      assert salesData[..n + 1][..n] == salesData[..n];
      if typeName in combined {
        combined := combined[typeName := combined[typeName].(totalQuantity := item.totalQuantity, avgSoldPrice := item.avgSoldPrice)];
      }
    }
    assert salesData[..|salesData|] == salesData;
  }

  /** The third loop: one suggestion per key of `combined_data`, in insertion order, rounded to cents. */
  method Suggest(combined: map<string, Combined>, order: seq<string>) returns (result: seq<PriceSuggestion>)
    requires forall name :: name in order ==> name in combined
    ensures |result| == |order|
    ensures forall i :: 0 <= i < |order| ==>
      result[i] == PriceSuggestion(order[i], Round2(SuggestPrice(combined[order[i]])))
  {
    result := [];
    for n := 0 to |order|
      invariant |result| == n
      invariant forall i :: 0 <= i < n ==> result[i] == PriceSuggestion(order[i], Round2(SuggestPrice(combined[order[i]])))
    {
      var typeName := order[n];
      var data := combined[typeName];
      var forecastedPrice := data.avgPrice;
      if data.totalQuantity > 100.0 && data.avgSoldPrice > data.avgPrice {
        forecastedPrice := data.avgSoldPrice * 1.05;
      } else if data.totalQuantity < 50.0 && data.avgSoldPrice < data.avgPrice {
        forecastedPrice := data.avgSoldPrice * 0.95;
      }
      result := result + [PriceSuggestion(typeName, Round2(forecastedPrice))];
    }
  }

  /** The suggested price of one type of the price query, as the view reports it. */
  function SuggestionFor(clothes: seq<Clothing>, items: seq<OrderItem>, i: int): PriceSuggestion
    requires 0 <= i < |PriceDataQuery(clothes)|
  {
    var b := PriceDataQuery(clothes)[i];
    PriceSuggestion(b.key, Round2(SuggestPrice(Merged(Average(b), SalesDataQuery(items), b.key))))
  }

  /**
   * `PriceForecastView.get`: one suggestion per clothing type that has a
   * garment, in name order, and none for a type that only appears in sales.
   */
  method PriceForecastView(clothes: seq<Clothing>, items: seq<OrderItem>) returns (result: seq<PriceSuggestion>)
    ensures |result| == |PriceDataQuery(clothes)|
    ensures forall i :: 0 <= i < |result| ==> result[i] == SuggestionFor(clothes, items, i)
  {
    var priceData := PriceDataQuery(clothes);
    var salesData := SalesDataQuery(items);
    var combined, order := Merge(priceData, salesData);
    result := Suggest(combined, order);
  }

  // ---------------------------------------------------------------------------
  // Properties of the suggestions.
  // ---------------------------------------------------------------------------

  /** The response lists exactly the types that have a garment, each once, in name order. */
  lemma SuggestionsCoverTypes(clothes: seq<Clothing>, items: seq<OrderItem>, result: seq<PriceSuggestion>)
    requires |result| == |PriceDataQuery(clothes)|
    requires forall i :: 0 <= i < |result| ==> result[i] == SuggestionFor(clothes, items, i)
    ensures forall k :: 0 <= k < |clothes| ==>
      exists i :: 0 <= i < |result| && result[i].clothingType == clothes[k].clothingType.name
    ensures forall i, j :: 0 <= i < j < |result| ==>
      LexLe(result[i].clothingType, result[j].clothingType) && result[i].clothingType != result[j].clothingType
  {
    var q := PriceDataQuery(clothes);
    forall k | 0 <= k < |clothes|
      ensures exists i :: 0 <= i < |result| && result[i].clothingType == clothes[k].clothingType.name
    {
      assert ListedPriceRows(clothes)[k].key == clothes[k].clothingType.name;
      var i :| 0 <= i < |q| && q[i].key == ListedPriceRows(clothes)[k].key;
      assert result[i].clothingType == q[i].key;
    }
    forall i, j | 0 <= i < j < |result|
      ensures LexLe(result[i].clothingType, result[j].clothingType) && result[i].clothingType != result[j].clothingType
    {
      assert result[i].clothingType == q[i].key && result[j].clothingType == q[j].key;
    }
  }

  /** The two adjusting branches exclude each other, so the order of the tests does not matter. */
  lemma SuggestPriceCases(c: Combined)
    ensures c.totalQuantity > 100.0 && c.avgSoldPrice > c.avgPrice ==> SuggestPrice(c) == c.avgSoldPrice * 1.05
    ensures c.totalQuantity < 50.0 && c.avgSoldPrice < c.avgPrice ==> SuggestPrice(c) == c.avgSoldPrice * 0.95
    ensures 50.0 <= c.totalQuantity <= 100.0 ==> SuggestPrice(c) == c.avgPrice
    ensures c.avgSoldPrice == c.avgPrice ==> SuggestPrice(c) == c.avgPrice
  {
  }

  /**
   * The suggestion moves the price in the direction the rule names: up for a
   * best seller sold above its list price, down for a slow seller sold below.
   */
  lemma SuggestPriceDirection(c: Combined)
    ensures c.totalQuantity > 100.0 && c.avgSoldPrice > c.avgPrice && c.avgPrice >= 0.0 ==>
      SuggestPrice(c) > c.avgPrice
    ensures c.totalQuantity < 50.0 && 0.0 < c.avgSoldPrice < c.avgPrice ==>
      SuggestPrice(c) < c.avgPrice
    ensures c.totalQuantity < 50.0 && c.avgSoldPrice < c.avgPrice ==> SuggestPrice(c) < c.avgPrice || c.avgSoldPrice <= 0.0
  {
  }

  /** A type with no sales gets the defaults 0 and 0, so its suggestion is 0 when its listed average is positive. */
  lemma NoSalesSuggestsZero(clothes: seq<Clothing>, items: seq<OrderItem>, i: int)
    requires 0 <= i < |PriceDataQuery(clothes)|
    requires forall k :: 0 <= k < |items| ==> items[k].clothing.clothingType.name != PriceDataQuery(clothes)[i].key
    requires Average(PriceDataQuery(clothes)[i]) > 0.0
    ensures SuggestionFor(clothes, items, i).forecastedPrice == 0.0
  {
    var b := PriceDataQuery(clothes)[i];
    NoSalesRow(items, b.key);
    var c := Merged(Average(b), SalesDataQuery(items), b.key);
    assert c == Combined(Average(b), 0.0, 0.0);
    assert SuggestPrice(c) == 0.0;
  }

  /** A type no order item has does not appear in the sales query. */
  lemma NoSalesRow(items: seq<OrderItem>, name: string)
    requires forall k :: 0 <= k < |items| ==> items[k].clothing.clothingType.name != name
    ensures LastSale(SalesDataQuery(items), name).None?
  {
    var s := SalesDataQuery(items);
    assert forall k :: 0 <= k < |items| ==> SoldPriceRows(items)[k].key != name;
    AbsentLabel(SoldPriceRows(items), name);
    assert forall j :: 0 <= j < |s| ==> s[j].typeName != name;
  }

  /**
   * Worked cases of the rule: 200 sold at 180 over a listed 150 raises to 189,
   * 150 sold at 200 over a listed 180 raises to 210, 30 sold at 140 under a
   * listed 150 lowers to 133, and exactly 100 or exactly 50 sold keeps the listed price.
   */
  lemma SuggestPriceExamples()
    ensures SuggestPrice(Combined(150.0, 200.0, 180.0)) == 189.0
    ensures SuggestPrice(Combined(150.0, 30.0, 140.0)) == 133.0
    ensures SuggestPrice(Combined(150.0, 100.0, 200.0)) == 150.0
    ensures SuggestPrice(Combined(150.0, 50.0, 100.0)) == 150.0
    ensures SuggestPrice(Combined(180.0, 150.0, 200.0)) == 210.0
  {
  }
}
