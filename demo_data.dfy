/**
 * The demo-data command (`Command.handle` in
 * sales_analysis/management/commands/generate_demo_data.py), limited to what
 * the analytics later read: the reference tables, the catalogue of thirty
 * garments with their first-match price range, and sixty days of orders with
 * their items, totals and ratings. Every random draw is a parameter whose
 * range is a precondition; every `objects.create` is an append to an
 * in-memory table.
 */
module DemoData {
  import opened Wrappers
  import opened Ledger
  import opened Grouping
  import SalesForecast

  // ---------------------------------------------------------------------------
  // Reference tables.
  // ---------------------------------------------------------------------------

  const DemoRegions: seq<Region> := [
    Region("华东地区", "EAST"),
    Region("华南地区", "SOUTH"),
    Region("华北地区", "NORTH"),
    Region("华中地区", "CENTRAL"),
    Region("西南地区", "SOUTHWEST"),
    Region("西北地区", "NORTHWEST"),
    Region("东北地区", "NORTHEAST")
  ]

  const DemoClothingTypes: seq<ClothingType> := [
    ClothingType("T恤", Some("简约舒适的休闲T恤")),
    ClothingType("衬衫", Some("正式场合的必备单品")),
    ClothingType("裤子", Some("各类裤装，包括牛仔裤、休闲裤等")),
    ClothingType("外套", Some("秋冬季节的保暖外套")),
    ClothingType("裙装", Some("女性优雅的裙装系列")),
    ClothingType("西装", Some("商务职场的正装西服")),
    ClothingType("运动装", Some("运动健身的专业装备")),
    ClothingType("内衣", Some("贴身舒适的内衣系列")),
    ClothingType("配饰", Some("时尚搭配的各类配饰"))
  ]

  /** Closed, adjacent ranges: each boundary price belongs to two of them. */
  const DemoPriceRanges: seq<PriceRange> := [
    PriceRange("低价区间", 0.0, 100.0),
    PriceRange("中低价区间", 100.0, 300.0),
    PriceRange("中价区间", 300.0, 500.0),
    PriceRange("中高价区间", 500.0, 1000.0),
    PriceRange("高价区间", 1000.0, 99999.0)
  ]

  /** The first seven categories are the praise categories, the last three the complaints. */
  const DemoRatingCategories: seq<RatingCategory> := [
    RatingCategory("质量好评", Some("产品质量优良")),
    RatingCategory("性价比高", Some("价格合理，物有所值")),
    RatingCategory("款式时尚", Some("设计新颖，款式时尚")),
    RatingCategory("舒适度佳", Some("穿着舒适，体验良好")),
    RatingCategory("做工精细", Some("做工精良，细节处理好")),
    RatingCategory("物流快速", Some("配送迅速，包装完好")),
    RatingCategory("服务满意", Some("售前售后服务态度好")),
    RatingCategory("质量差评", Some("产品质量不佳")),
    RatingCategory("尺码偏差", Some("尺码与描述不符")),
    RatingCategory("色差严重", Some("颜色与图片不符"))
  ]

  const GoodCategoryCount: nat := 7

  /** The catalogue is created only while fewer garments than this are stored. */
  const CatalogueThreshold: nat := 30

  /** Orders are created only while fewer orders than this are stored. */
  const OrderThreshold: nat := 100

  /** Days of history: `day_back` runs from 60 down to 1. */
  const HistoryDays: nat := 60

  // ---------------------------------------------------------------------------
  // The price-range lookup.
  // ---------------------------------------------------------------------------

  predicate InRange(pr: PriceRange, price: real)
  {
    pr.minPrice <= price <= pr.maxPrice
  }

  /** Position of the first range containing `price`, if any. */
  function FirstRange(ranges: seq<PriceRange>, price: real): (k: Option<nat>)
    ensures k.Some? ==> k.value < |ranges| && InRange(ranges[k.value], price)
    ensures k.Some? ==> forall j :: 0 <= j < k.value ==> !InRange(ranges[j], price)
    ensures k.None? <==> forall j :: 0 <= j < |ranges| ==> !InRange(ranges[j], price)
  {
    if ranges == [] then None
    else if InRange(ranges[0], price) then Some(0)
    else match FirstRange(ranges[1..], price)
      case None => None
      case Some(k) => Some(k + 1)
  }

  /**
   * `next((pr for pr in price_ranges if pr.min_price <= price <= pr.max_price), default)`:
   * the first range containing the price, or the default when none does.
   */
  function FindPriceRange(ranges: seq<PriceRange>, price: real, default: PriceRange): (r: PriceRange)
    ensures (forall j :: 0 <= j < |ranges| ==> !InRange(ranges[j], price)) ==> r == default
    ensures (exists j :: 0 <= j < |ranges| && InRange(ranges[j], price)) ==>
      exists k :: 0 <= k < |ranges| && r == ranges[k] && InRange(r, price) &&
        forall j :: 0 <= j < k ==> !InRange(ranges[j], price)
  {
    match FirstRange(ranges, price)
    case None => default
    case Some(k) => ranges[k]
  }

  /** A price on the boundary of two demo ranges resolves to the lower one. */
  lemma BoundaryPricesResolveLow(default: PriceRange)
    ensures FindPriceRange(DemoPriceRanges, 100.0, default) == DemoPriceRanges[0]
    ensures FindPriceRange(DemoPriceRanges, 300.0, default) == DemoPriceRanges[1]
    ensures FindPriceRange(DemoPriceRanges, 500.0, default) == DemoPriceRanges[2]
    ensures FindPriceRange(DemoPriceRanges, 1000.0, default) == DemoPriceRanges[3]
  {
  }

  /** The demo ranges cover 0..99999, so inside it the lookup never falls back to its default. */
  lemma DemoRangesCover(price: real, default: PriceRange)
    requires 0.0 <= price <= 99999.0
    ensures FirstRange(DemoPriceRanges, price).Some?
    ensures InRange(FindPriceRange(DemoPriceRanges, price, default), price)
    ensures FindPriceRange(DemoPriceRanges, price, default) in DemoPriceRanges
  {
    var j := if price <= 100.0 then 0 else if price <= 300.0 then 1
      else if price <= 500.0 then 2 else if price <= 1000.0 then 3 else 4;
    assert InRange(DemoPriceRanges[j], price);
  }

  // ---------------------------------------------------------------------------
  // The catalogue.
  // ---------------------------------------------------------------------------

  /**
   * One block of the catalogue: the garment names of one clothing type, the
   * bounds of `random.randint` for price and stock, and the position of the
   * range used as the lookup's default.
   */
  datatype Family = Family(
    typeName: string,
    names: seq<string>,
    minPrice: int,
    maxPrice: int,
    fallback: nat,
    minStock: int,
    maxStock: int)

  const Families: seq<Family> := [
    Family("T恤", ["基础纯色T恤", "印花图案T恤", "条纹T恤", "Polo衫", "宽松T恤"], 50, 300, 0, 100, 500),
    Family("衬衫", ["商务正装衬衫", "休闲格子衬衫", "牛津纺衬衫", "法兰绒衬衫", "亚麻衬衫"], 150, 600, 1, 100, 500),
    Family("裤子", ["修身牛仔裤", "直筒休闲裤", "运动裤", "工装裤", "西裤"], 120, 500, 1, 100, 500),
    Family("外套", ["羽绒服", "风衣", "夹克", "棉衣", "大衣"], 300, 1500, 2, 100, 500),
    Family("裙装", ["连衣裙", "A字裙", "半身裙", "褶皱裙", "包臀裙"], 200, 800, 2, 100, 500),
    Family("西装", ["商务西装", "休闲西装", "结婚西装", "职业套装", "燕尾服"], 800, 3000, 3, 50, 300)
  ]

  /** The two draws for one garment: its price and its stock. */
  datatype GarmentDraw = GarmentDraw(price: int, stock: int)

  predicate GarmentDrawOk(f: Family, d: GarmentDraw)
  {
    f.minPrice <= d.price <= f.maxPrice && f.minStock <= d.stock <= f.maxStock
  }

  /** `next(ct for ct in clothing_types if ct.name == name)`: the first type of that name. */
  function FirstNamed(types: seq<ClothingType>, name: string): (t: Option<ClothingType>)
    ensures t.Some? ==> t.value in types && t.value.name == name
    ensures t.None? <==> forall j :: 0 <= j < |types| ==> types[j].name != name
  {
    if types == [] then None
    else if types[0].name == name then Some(types[0])
    else FirstNamed(types[1..], name)
  }

  /** The garment `Clothing.objects.create` stores for name `name` of family `f`. */
  function Garment(f: Family, t: ClothingType, ranges: seq<PriceRange>, name: string, d: GarmentDraw): Clothing
    requires f.fallback < |ranges|
  {
    var price := d.price as real;
    Clothing(name, t, price, Some(FindPriceRange(ranges, price, ranges[f.fallback])), d.stock)
  }

  /** The garments of one family, in the order of its names. */
  function FamilyGarments(f: Family, t: ClothingType, ranges: seq<PriceRange>, draws: seq<GarmentDraw>): seq<Clothing>
    requires f.fallback < |ranges| && |draws| == |f.names|
  {
    seq(|f.names|, i requires 0 <= i < |f.names| => Garment(f, t, ranges, f.names[i], draws[i]))
  }

  ghost predicate CatalogueReady(fams: seq<Family>, types: seq<ClothingType>, ranges: seq<PriceRange>, draws: seq<seq<GarmentDraw>>)
  {
    && |draws| == |fams|
    && forall fi :: 0 <= fi < |fams| ==>
         && fams[fi].fallback < |ranges|
         && FirstNamed(types, fams[fi].typeName).Some?
         && |draws[fi]| == |fams[fi].names|
  }

  /** The catalogue the family blocks create, one block after the other. */
  ghost function Catalogue(fams: seq<Family>, types: seq<ClothingType>, ranges: seq<PriceRange>, draws: seq<seq<GarmentDraw>>): seq<Clothing>
    requires CatalogueReady(fams, types, ranges, draws)
    decreases |fams|
  {
    if fams == [] then []
    else
      var last := |fams| - 1;
      Catalogue(fams[..last], types, ranges, draws[..last])
        + FamilyGarments(fams[last], FirstNamed(types, fams[last].typeName).value, ranges, draws[last])
  }

  /** One `for name in ..._names` block: creates the family's garments and appends them. */
  method CreateFamily(f: Family, types: seq<ClothingType>, ranges: seq<PriceRange>, draws: seq<GarmentDraw>, clothingItems: seq<Clothing>)
    returns (clothingItems': seq<Clothing>)
    requires f.fallback < |ranges| && FirstNamed(types, f.typeName).Some? && |draws| == |f.names|
    ensures clothingItems' == clothingItems + FamilyGarments(f, FirstNamed(types, f.typeName).value, ranges, draws)
  {
    var clothingType := FirstNamed(types, f.typeName).value;
    clothingItems' := clothingItems;
    for i := 0 to |f.names|
      invariant clothingItems' == clothingItems + FamilyGarments(f, clothingType, ranges, draws)[..i]
    {
      var price := draws[i].price as real;
      var priceRange := FindPriceRange(ranges, price, ranges[f.fallback]);
      var clothing := Clothing(f.names[i], clothingType, price, Some(priceRange), draws[i].stock);
      clothingItems' := clothingItems' + [clothing];
      assert FamilyGarments(f, clothingType, ranges, draws)[..i + 1]
        == FamilyGarments(f, clothingType, ranges, draws)[..i] + [clothing];
    }
    assert FamilyGarments(f, clothingType, ranges, draws)[..|f.names|] == FamilyGarments(f, clothingType, ranges, draws);
  }

  /** The family blocks of `handle`, one after the other, in their order. */
  method CreateCatalogue(fams: seq<Family>, types: seq<ClothingType>, ranges: seq<PriceRange>, draws: seq<seq<GarmentDraw>>)
    returns (clothingItems: seq<Clothing>)
    requires CatalogueReady(fams, types, ranges, draws)
    ensures clothingItems == Catalogue(fams, types, ranges, draws)
  {
    clothingItems := [];
    for fi := 0 to |fams|
      invariant clothingItems == Catalogue(fams[..fi], types, ranges, draws[..fi])
    {
      CataloguePrefix(fams, types, ranges, draws, fi);
      clothingItems := CreateFamily(fams[fi], types, ranges, draws[fi], clothingItems);
    }
    assert fams[..|fams|] == fams;
    assert draws[..|fams|] == draws;
  }

  /** The catalogue of the first `fi + 1` families is that of the first `fi` followed by block `fi`. */
  lemma CataloguePrefix(fams: seq<Family>, types: seq<ClothingType>, ranges: seq<PriceRange>, draws: seq<seq<GarmentDraw>>, fi: nat)
    requires CatalogueReady(fams, types, ranges, draws) && fi < |fams|
    ensures CatalogueReady(fams[..fi], types, ranges, draws[..fi])
    ensures CatalogueReady(fams[..fi + 1], types, ranges, draws[..fi + 1])
    ensures Catalogue(fams[..fi + 1], types, ranges, draws[..fi + 1])
      == Catalogue(fams[..fi], types, ranges, draws[..fi])
         + FamilyGarments(fams[fi], FirstNamed(types, fams[fi].typeName).value, ranges, draws[fi])
  {
    assert fams[..fi + 1][..fi] == fams[..fi];
    assert draws[..fi + 1][..fi] == draws[..fi];
  }

  /** The first type named `name` is the one at position `i` when no earlier type has that name. */
  lemma {:induction false} FirstNamedAt(types: seq<ClothingType>, i: nat, name: string)
    requires i < |types| && types[i].name == name
    requires forall j :: 0 <= j < i ==> types[j].name != name
    ensures FirstNamed(types, name) == Some(types[i])
  {
    if i > 0 {
      FirstNamedAt(types[1..], i - 1, name);
    }
  }

  /** Family `fi` creates garments of the clothing type at position `fi` of the demo types. */
  lemma FamilyType(fi: nat)
    requires fi < |Families|
    ensures FirstNamed(DemoClothingTypes, Families[fi].typeName) == Some(DemoClothingTypes[fi])
  {
    var name := Families[fi].typeName;
    forall j | 0 <= j < fi
      ensures DemoClothingTypes[j].name != name
    {
      assert DemoClothingTypes[j].name[0] != name[0];
    }
    FirstNamedAt(DemoClothingTypes, fi, name);
  }

  /** Every family's type is among the demo types. */
  lemma FamiliesHaveTypes()
    ensures forall fi :: 0 <= fi < |Families| ==> FirstNamed(DemoClothingTypes, Families[fi].typeName).Some?
  {
    forall fi | 0 <= fi < |Families|
      ensures FirstNamed(DemoClothingTypes, Families[fi].typeName).Some?
    {
      FamilyType(fi);
    }
  }

  /** A garment of family `f`: its type, price and stock are the family's. */
  predicate OfFamily(f: Family, c: Clothing)
  {
    && c.clothingType.name == f.typeName
    && c.clothingType in DemoClothingTypes
    && f.minPrice as real <= c.price <= f.maxPrice as real
    && f.minStock <= c.stock <= f.maxStock
  }

  /** A garment whose price range is one of the demo ranges and contains its price. */
  predicate PricedInRange(c: Clothing)
  {
    c.priceRange.Some? && c.priceRange.value in DemoPriceRanges && InRange(c.priceRange.value, c.price)
  }

  /** A garment created within its family's bounds is of the family and priced in range. */
  lemma GarmentWellFormed(f: Family, draws: seq<GarmentDraw>, i: nat)
    requires f.fallback < |DemoPriceRanges| && FirstNamed(DemoClothingTypes, f.typeName).Some? && |draws| == |f.names|
    requires 0 <= f.minPrice && f.maxPrice <= 99999
    requires i < |draws| && GarmentDrawOk(f, draws[i])
    ensures var c := FamilyGarments(f, FirstNamed(DemoClothingTypes, f.typeName).value, DemoPriceRanges, draws)[i];
      OfFamily(f, c) && PricedInRange(c)
  {
    DemoRangesCover(draws[i].price as real, DemoPriceRanges[f.fallback]);
  }

  /** The garments block `fi` creates. */
  ghost function Block(fams: seq<Family>, types: seq<ClothingType>, ranges: seq<PriceRange>, draws: seq<seq<GarmentDraw>>,
                       fi: int): seq<Clothing>
    requires CatalogueReady(fams, types, ranges, draws) && 0 <= fi < |fams|
  {
    FamilyGarments(fams[fi], FirstNamed(types, fams[fi].typeName).value, ranges, draws[fi])
  }

  /** Garment `c` is one of those created by block `fi`. */
  ghost predicate InBlock(fams: seq<Family>, types: seq<ClothingType>, ranges: seq<PriceRange>, draws: seq<seq<GarmentDraw>>,
                          fi: int, c: Clothing)
  {
    && CatalogueReady(fams, types, ranges, draws)
    && 0 <= fi < |fams|
    && c in Block(fams, types, ranges, draws, fi)
  }

  /** A non-empty catalogue is that of all families but the last, followed by the last block. */
  lemma CatalogueSnoc(fams: seq<Family>, types: seq<ClothingType>, ranges: seq<PriceRange>, draws: seq<seq<GarmentDraw>>)
    requires CatalogueReady(fams, types, ranges, draws) && fams != []
    ensures CatalogueReady(fams[..|fams| - 1], types, ranges, draws[..|fams| - 1])
    ensures Catalogue(fams, types, ranges, draws)
      == Catalogue(fams[..|fams| - 1], types, ranges, draws[..|fams| - 1]) + Block(fams, types, ranges, draws, |fams| - 1)
  {
  }

  /** Block `fi` is the same in a prefix that contains it. */
  lemma BlockOfPrefix(fams: seq<Family>, types: seq<ClothingType>, ranges: seq<PriceRange>, draws: seq<seq<GarmentDraw>>,
                      k: nat, fi: nat)
    requires CatalogueReady(fams, types, ranges, draws) && fi < k <= |fams|
    ensures CatalogueReady(fams[..k], types, ranges, draws[..k])
    ensures Block(fams[..k], types, ranges, draws[..k], fi) == Block(fams, types, ranges, draws, fi)
  {
    assert fams[..k][fi] == fams[fi] && draws[..k][fi] == draws[fi];
  }

  /** Every garment of the catalogue was created by one of the family blocks. */
  lemma {:induction false} CatalogueMember(fams: seq<Family>, types: seq<ClothingType>, ranges: seq<PriceRange>,
                                           draws: seq<seq<GarmentDraw>>, c: Clothing)
    requires CatalogueReady(fams, types, ranges, draws)
    requires c in Catalogue(fams, types, ranges, draws)
    ensures exists fi :: InBlock(fams, types, ranges, draws, fi, c)
  {
    assert fams != [];
    var last := |fams| - 1;
    CatalogueSnoc(fams, types, ranges, draws);
    if c in Block(fams, types, ranges, draws, last) {
      assert InBlock(fams, types, ranges, draws, last, c);
    } else {
      CatalogueMember(fams[..last], types, ranges, draws[..last], c);
      var fi :| InBlock(fams[..last], types, ranges, draws[..last], fi, c);
      BlockOfPrefix(fams, types, ranges, draws, last, fi);
      assert InBlock(fams, types, ranges, draws, fi, c);
    }
  }

  /**
   * Every garment of a catalogue drawn within the families' bounds from the
   * demo tables has the type, price and stock of its family and a price range
   * containing its price: the lookup's default is never needed.
   */
  lemma CatalogueWellFormed(fams: seq<Family>, draws: seq<seq<GarmentDraw>>, c: Clothing)
    requires CatalogueReady(fams, DemoClothingTypes, DemoPriceRanges, draws)
    requires forall fi :: 0 <= fi < |fams| ==> 0 <= fams[fi].minPrice && fams[fi].maxPrice <= 99999
    requires forall fi, i :: 0 <= fi < |fams| && 0 <= i < |draws[fi]| ==> GarmentDrawOk(fams[fi], draws[fi][i])
    requires c in Catalogue(fams, DemoClothingTypes, DemoPriceRanges, draws)
    ensures exists fi :: 0 <= fi < |fams| && OfFamily(fams[fi], c)
    ensures PricedInRange(c)
  {
    CatalogueMember(fams, DemoClothingTypes, DemoPriceRanges, draws, c);
    var fi :| InBlock(fams, DemoClothingTypes, DemoPriceRanges, draws, fi, c);
    var block := Block(fams, DemoClothingTypes, DemoPriceRanges, draws, fi);
    var i :| 0 <= i < |block| && block[i] == c;
    GarmentWellFormed(fams[fi], draws[fi], i);
  }

  /** The demo families keep their prices inside the demo ranges. */
  lemma FamiliesInsideRanges()
    ensures forall fi :: 0 <= fi < |Families| ==> 0 <= Families[fi].minPrice && Families[fi].maxPrice <= 99999
    ensures forall fi :: 0 <= fi < |Families| ==> Families[fi].fallback < |DemoPriceRanges| && |Families[fi].names| == 5
  {
  }

  // ---------------------------------------------------------------------------
  // Orders, items and ratings.
  // ---------------------------------------------------------------------------

  /**
   * The draws for one rating: good or bad (`random.random() < 0.8`), the
   * star value, the category's position within its band, and the delay in days.
   */
  datatype RatingDraw = RatingDraw(good: bool, value: int, categoryOffset: nat, delayDays: int)

  /**
   * The draws for one order: the region, the sampled positions of the pool
   * (`random.sample`, hence distinct), one quantity per sampled garment,
   * whether the order is rated (`random.random() < 0.7`) and one rating draw
   * per sampled garment.
   */
  datatype OrderDraw = OrderDraw(regionIndex: nat, picks: seq<nat>, quantities: seq<nat>, rated: bool, ratings: seq<RatingDraw>)

  predicate RatingDrawOk(r: RatingDraw)
  {
    && 3 <= r.delayDays <= 15
    && if r.good then 4 <= r.value <= 5 && r.categoryOffset < GoodCategoryCount
       else 1 <= r.value <= 3 && r.categoryOffset < |DemoRatingCategories| - GoodCategoryCount
  }

  predicate OrderDrawOk(d: OrderDraw, poolSize: nat)
  {
    && d.regionIndex < |DemoRegions|
    && 1 <= |d.picks| <= 5
    && (forall j :: 0 <= j < |d.picks| ==> d.picks[j] < poolSize)
    && (forall i, j :: 0 <= i < j < |d.picks| ==> d.picks[i] != d.picks[j])
    && |d.quantities| == |d.picks|
    && (forall j :: 0 <= j < |d.quantities| ==> 1 <= d.quantities[j] <= 3)
    && |d.ratings| == |d.picks|
    && (forall j :: 0 <= j < |d.ratings| ==> RatingDrawOk(d.ratings[j]))
  }

  /** The items order number `k` gets: one per sampled garment, at the garment's price. */
  function OrderLines(k: nat, pool: seq<Clothing>, d: OrderDraw): seq<OrderItem>
    requires OrderDrawOk(d, |pool|)
  {
    Lines(k, pool, d.picks, d.quantities)
  }

  /** One item per sampled position of the pool, with its quantity and the garment's price. */
  function Lines(k: nat, pool: seq<Clothing>, picks: seq<nat>, quantities: seq<nat>): seq<OrderItem>
    requires |quantities| == |picks| && forall j :: 0 <= j < |picks| ==> picks[j] < |pool|
  {
    seq(|picks|, j requires 0 <= j < |picks| => OrderItem(k, pool[picks[j]], quantities[j], pool[picks[j]].price))
  }

  /** The rating of garment `item`, with its category from the praise or complaint band. */
  function RatingOf(item: Clothing, orderDate: Timestamp, r: RatingDraw): Rating
    requires RatingDrawOk(r)
  {
    var category := if r.good then DemoRatingCategories[r.categoryOffset]
      else DemoRatingCategories[GoodCategoryCount + r.categoryOffset];
    Rating(item, r.value, Some(category), AddDays(orderDate, r.delayDays))
  }

  /** The ratings an order adds: one per sampled garment when it is rated, none otherwise. */
  function OrderRatings(pool: seq<Clothing>, orderDate: Timestamp, d: OrderDraw): seq<Rating>
    requires OrderDrawOk(d, |pool|)
  {
    if d.rated then
      seq(|d.picks|, j requires 0 <= j < |d.picks| => RatingOf(pool[d.picks[j]], orderDate, d.ratings[j]))
    else []
  }

  /** The sum of `price * quantity` over some items. */
  function LineTotal(lines: seq<OrderItem>): real
  {
    if lines == [] then 0.0
    else LineTotal(lines[..|lines| - 1]) + lines[|lines| - 1].price * lines[|lines| - 1].quantity as real
  }

  /** The items of order number `k`, in creation order. */
  function ItemsOf(items: seq<OrderItem>, k: nat): seq<OrderItem>
  {
    if items == [] then []
    else ItemsOf(items[..|items| - 1], k) + (if items[|items| - 1].order == k then [items[|items| - 1]] else [])
  }

  /**
   * One iteration of the order loop: create the order with total 0, create
   * one item per sampled garment while adding up `price * quantity`, store
   * the sum as the order's total, and with the rating draw create one rating
   * per sampled garment.
   */
  method CreateOrder(orders: seq<SalesOrder>, items: seq<OrderItem>, ratings: seq<Rating>,
                     pool: seq<Clothing>, orderDate: Timestamp, d: OrderDraw)
    returns (orders': seq<SalesOrder>, items': seq<OrderItem>, ratings': seq<Rating>)
    requires OrderDrawOk(d, |pool|)
    ensures orders' == orders + [SalesOrder(DemoRegions[d.regionIndex], LineTotal(OrderLines(|orders|, pool, d)), orderDate)]
    ensures items' == items + OrderLines(|orders|, pool, d)
    ensures ratings' == ratings + OrderRatings(pool, orderDate, d)
  {
    var region := DemoRegions[d.regionIndex];
    var k := |orders|;
    orders' := orders + [SalesOrder(region, 0.0, orderDate)];
    var totalAmount;
    items', totalAmount := CreateItems(items, k, pool, d.picks, d.quantities);
    orders' := orders'[k := orders'[k].(totalAmount := totalAmount)];
    ratings' := ratings;
    if d.rated {
      ratings' := CreateRatings(ratings, pool, orderDate, d);
    }
  }

  /** The item loop of one order: one item per sampled garment, and the running sum of `price * quantity`. */
  method CreateItems(items: seq<OrderItem>, k: nat, pool: seq<Clothing>, picks: seq<nat>, quantities: seq<nat>)
    returns (items': seq<OrderItem>, totalAmount: real)
    requires |quantities| == |picks| && forall j :: 0 <= j < |picks| ==> picks[j] < |pool|
    ensures items' == items + Lines(k, pool, picks, quantities)
    ensures totalAmount == LineTotal(Lines(k, pool, picks, quantities))
  {
    totalAmount := 0.0;
    items' := items;
    ghost var lines := Lines(k, pool, picks, quantities);
    for j := 0 to |picks|
      invariant items' == items + lines[..j]
      invariant totalAmount == LineTotal(lines[..j])
    {
      var garment := pool[picks[j]];
      var quantity := quantities[j];
      var price := garment.price;
      var itemTotal := price * quantity as real;
      LineTotalStep(lines, j);
      totalAmount := totalAmount + itemTotal;
      items' := items' + [OrderItem(k, garment, quantity, price)];
      assert lines[..j + 1] == lines[..j] + [lines[j]];
    }
    assert lines[..|picks|] == lines;
  }

  lemma LineTotalStep(lines: seq<OrderItem>, j: nat)
    requires j < |lines|
    ensures LineTotal(lines[..j + 1]) == LineTotal(lines[..j]) + lines[j].price * lines[j].quantity as real
  {
    assert lines[..j + 1][..j] == lines[..j];
  }

  /** The rating loop of a rated order: one rating per sampled garment. */
  method CreateRatings(ratings: seq<Rating>, pool: seq<Clothing>, orderDate: Timestamp, d: OrderDraw)
    returns (ratings': seq<Rating>)
    requires OrderDrawOk(d, |pool|) && d.rated
    ensures ratings' == ratings + OrderRatings(pool, orderDate, d)
  {
    ratings' := ratings;
    ghost var added := OrderRatings(pool, orderDate, d);
    for j := 0 to |d.picks|
      invariant ratings' == ratings + added[..j]
    {
      var r := d.ratings[j];
      var category := if r.good then DemoRatingCategories[r.categoryOffset]
        else DemoRatingCategories[GoodCategoryCount + r.categoryOffset];
      ratings' := ratings' + [Rating(pool[d.picks[j]], r.value, Some(category), AddDays(orderDate, r.delayDays))];
      assert added[..j + 1] == added[..j] + [added[j]];
    }
    assert added[..|d.picks|] == added;
  }

  // --- Facts about the tables built so far. -----------------------------------

  /** The stars and the category of a rating fall in the same band. */
  predicate RatingBanded(r: Rating)
  {
    && r.category.Some?
    && ((4 <= r.rating <= 5 && r.category.value in DemoRatingCategories[..GoodCategoryCount])
        || (1 <= r.rating <= 3 && r.category.value in DemoRatingCategories[GoodCategoryCount..]))
  }

  ghost predicate ItemsWellFormed(orders: seq<SalesOrder>, items: seq<OrderItem>, pool: seq<Clothing>)
  {
    forall t :: 0 <= t < |items| ==>
      && items[t].order < |orders|
      && 1 <= items[t].quantity <= 3
      && items[t].price == items[t].clothing.price
      && items[t].clothing in pool
  }

  /** Every order's total is the line total of its items, and it has one to five of them. */
  ghost predicate TotalsAreLineSums(orders: seq<SalesOrder>, items: seq<OrderItem>)
  {
    forall k :: 0 <= k < |orders| ==>
      orders[k].totalAmount == LineTotal(ItemsOf(items, k)) && 1 <= |ItemsOf(items, k)| <= 5
  }

  /**
   * Every rating is banded, rates a garment of the pool, and is dated 3 to 15
   * days after the order `ratingOrder[r]` it was created for.
   */
  ghost predicate RatingsWellFormed(orders: seq<SalesOrder>, ratings: seq<Rating>, ratingOrder: seq<nat>, pool: seq<Clothing>)
  {
    && |ratingOrder| == |ratings|
    && forall r :: 0 <= r < |ratings| ==>
         && ratingOrder[r] < |orders|
         && RatingBanded(ratings[r])
         && ratings[r].clothing in pool
         && ratings[r].createdAt.time == orders[ratingOrder[r]].orderDate.time
         && 3 <= ratings[r].createdAt.day - orders[ratingOrder[r]].orderDate.day <= 15
  }

  /** The day `dayBack` days before `today`, at today's time of day. */
  function DayBack(today: Timestamp, dayBack: int): Timestamp
  {
    AddDays(today, -dayBack)
  }

  /** Every order is dated `lo`..`hi` days before `today`, at today's time of day. */
  ghost predicate DatedWithin(orders: seq<SalesOrder>, today: Timestamp, lo: int, hi: int)
  {
    forall k :: 0 <= k < |orders| ==>
      orders[k].orderDate.time == today.time && lo <= today.day - orders[k].orderDate.day <= hi
  }

  /** Each of the days `lo`..60 before `today` has one to five orders. */
  ghost predicate OrdersPerDay(orders: seq<SalesOrder>, today: Timestamp, lo: int)
  {
    forall b :: lo <= b <= HistoryDays ==>
      1 <= CountWhere(SalesForecast.DailyRows(orders), DayBack(today, b)) <= 5
  }

  lemma DailyRowsSnoc(orders: seq<SalesOrder>, o: SalesOrder)
    ensures SalesForecast.DailyRows(orders + [o]) == SalesForecast.DailyRows(orders) + [Row(o.orderDate, o.totalAmount)]
  {
  }

  /** Appending an order adds one to the count of its date and leaves the other dates' counts alone. */
  lemma CountAfterOrder(orders: seq<SalesOrder>, o: SalesOrder, l: Timestamp)
    ensures CountWhere(SalesForecast.DailyRows(orders + [o]), l)
      == CountWhere(SalesForecast.DailyRows(orders), l) + (if o.orderDate == l then 1 else 0)
  {
    DailyRowsSnoc(orders, o);
    var rows := SalesForecast.DailyRows(orders + [o]);
    assert rows[..|rows| - 1] == SalesForecast.DailyRows(orders);
  }

  /** An order dated `dayBack` days back keeps the history dated and adds one to that day only. */
  lemma OrderKeepsDates(orders: seq<SalesOrder>, o: SalesOrder, today: Timestamp, dayBack: int)
    requires DatedWithin(orders, today, dayBack, HistoryDays)
    requires 1 <= dayBack <= HistoryDays && o.orderDate == DayBack(today, dayBack)
    ensures DatedWithin(orders + [o], today, dayBack, HistoryDays)
    ensures forall b ::
      CountWhere(SalesForecast.DailyRows(orders + [o]), DayBack(today, b))
        == CountWhere(SalesForecast.DailyRows(orders), DayBack(today, b)) + (if b == dayBack then 1 else 0)
  {
    forall b
      ensures CountWhere(SalesForecast.DailyRows(orders + [o]), DayBack(today, b))
        == CountWhere(SalesForecast.DailyRows(orders), DayBack(today, b)) + (if b == dayBack then 1 else 0)
    {
      CountAfterOrder(orders, o, DayBack(today, b));
    }
  }

  lemma {:induction false} ItemsOfAppend(items: seq<OrderItem>, more: seq<OrderItem>, k: nat)
    ensures ItemsOf(items + more, k) == ItemsOf(items, k) + ItemsOf(more, k)
    decreases |more|
  {
    if more != [] {
      var last := |more| - 1;
      assert (items + more)[..|items + more| - 1] == items + more[..last];
      ItemsOfAppend(items, more[..last], k);
    } else {
      assert items + more == items;
    }
  }

  /** Items that all belong to order `k` are all of order `k`'s items; for another order there are none. */
  lemma {:induction false} ItemsOfOneOrder(lines: seq<OrderItem>, k: nat, m: nat)
    requires forall t :: 0 <= t < |lines| ==> lines[t].order == k
    ensures ItemsOf(lines, k) == lines
    ensures m != k ==> ItemsOf(lines, m) == []
  {
    if lines != [] {
      var last := |lines| - 1;
      ItemsOfOneOrder(lines[..last], k, m);
      assert lines[..last] + [lines[last]] == lines;
    }
  }

  /** Items that belong to earlier orders contribute nothing to order `k`. */
  lemma {:induction false} ItemsOfLaterOrder(items: seq<OrderItem>, k: nat)
    requires forall t :: 0 <= t < |items| ==> items[t].order < k
    ensures ItemsOf(items, k) == []
  {
    if items != [] {
      ItemsOfLaterOrder(items[..|items| - 1], k);
    }
  }

  /** Creating one more order keeps every fact about the tables. */
  lemma OrderKeepsTables(orders: seq<SalesOrder>, items: seq<OrderItem>, ratings: seq<Rating>, ratingOrder: seq<nat>,
                         pool: seq<Clothing>, orderDate: Timestamp, d: OrderDraw)
    requires OrderDrawOk(d, |pool|)
    requires TablesWellFormed(orders, items, ratings, ratingOrder, pool)
    ensures var k := |orders|;
      var orders' := orders + [SalesOrder(DemoRegions[d.regionIndex], LineTotal(OrderLines(k, pool, d)), orderDate)];
      var items' := items + OrderLines(k, pool, d);
      var added := OrderRatings(pool, orderDate, d);
      TablesWellFormed(orders', items', ratings + added, ratingOrder + seq(|added|, _ => k), pool)
  {
    var k := |orders|;
    var orders' := orders + [SalesOrder(DemoRegions[d.regionIndex], LineTotal(OrderLines(k, pool, d)), orderDate)];
    OrderKeepsItems(orders, items, pool, orders', d);
    OrderKeepsTotals(orders, items, pool, orders', d);
    OrderKeepsRatings(orders, ratings, ratingOrder, pool, orders', orderDate, d);
  }

  /** The new items belong to the new order, at their garments' prices. */
  lemma OrderKeepsItems(orders: seq<SalesOrder>, items: seq<OrderItem>, pool: seq<Clothing>,
                        orders': seq<SalesOrder>, d: OrderDraw)
    requires OrderDrawOk(d, |pool|)
    requires ItemsWellFormed(orders, items, pool)
    requires |orders'| == |orders| + 1
    ensures ItemsWellFormed(orders', items + OrderLines(|orders|, pool, d), pool)
  {
    var lines := OrderLines(|orders|, pool, d);
    var items' := items + lines;
    forall t | 0 <= t < |items'|
      ensures && items'[t].order < |orders'|
              && 1 <= items'[t].quantity <= 3
              && items'[t].price == items'[t].clothing.price
              && items'[t].clothing in pool
    {
      if t >= |items| {
        assert items'[t] == lines[t - |items|];
      }
    }
  }

  /** The new order's total is the line total of its items, and no earlier order gains an item. */
  lemma OrderKeepsTotals(orders: seq<SalesOrder>, items: seq<OrderItem>, pool: seq<Clothing>,
                         orders': seq<SalesOrder>, d: OrderDraw)
    requires OrderDrawOk(d, |pool|)
    requires ItemsWellFormed(orders, items, pool) && TotalsAreLineSums(orders, items)
    requires |orders'| == |orders| + 1 && orders'[..|orders|] == orders
    requires orders'[|orders|].totalAmount == LineTotal(OrderLines(|orders|, pool, d))
    ensures TotalsAreLineSums(orders', items + OrderLines(|orders|, pool, d))
  {
    var k := |orders|;
    var lines := OrderLines(k, pool, d);
    var items' := items + lines;
    forall m | 0 <= m < |orders'|
      ensures orders'[m].totalAmount == LineTotal(ItemsOf(items', m)) && 1 <= |ItemsOf(items', m)| <= 5
    {
      ItemsOfAppend(items, lines, m);
      ItemsOfOneOrder(lines, k, m);
      if m == k {
        ItemsOfLaterOrder(items, k);
        assert ItemsOf(items', m) == lines;
      } else {
        assert orders'[m] == orders[m];
        assert ItemsOf(items', m) == ItemsOf(items, m);
      }
    }
  }

  /** The new ratings are banded and dated 3 to 15 days after the new order. */
  lemma OrderKeepsRatings(orders: seq<SalesOrder>, ratings: seq<Rating>, ratingOrder: seq<nat>, pool: seq<Clothing>,
                          orders': seq<SalesOrder>, orderDate: Timestamp, d: OrderDraw)
    requires OrderDrawOk(d, |pool|)
    requires RatingsWellFormed(orders, ratings, ratingOrder, pool)
    requires |orders'| == |orders| + 1 && orders'[..|orders|] == orders
    requires orders'[|orders|].orderDate == orderDate
    ensures var added := OrderRatings(pool, orderDate, d);
      RatingsWellFormed(orders', ratings + added, ratingOrder + seq(|added|, _ => |orders|), pool)
  {
    var k := |orders|;
    var added := OrderRatings(pool, orderDate, d);
    var ratingOrder' := ratingOrder + seq(|added|, _ => k);
    var ratings' := ratings + added;
    forall r | 0 <= r < |ratings'|
      ensures && ratingOrder'[r] < |orders'|
              && RatingBanded(ratings'[r])
              && ratings'[r].clothing in pool
              && ratings'[r].createdAt.time == orders'[ratingOrder'[r]].orderDate.time
              && 3 <= ratings'[r].createdAt.day - orders'[ratingOrder'[r]].orderDate.day <= 15
    {
      if r >= |ratings| {
        var j := r - |ratings|;
        var rd := d.ratings[j];
        assert ratings'[r] == added[j];
        assert RatingDrawOk(rd);
        if rd.good {
          assert DemoRatingCategories[rd.categoryOffset] == DemoRatingCategories[..GoodCategoryCount][rd.categoryOffset];
        } else {
          assert DemoRatingCategories[GoodCategoryCount + rd.categoryOffset]
            == DemoRatingCategories[GoodCategoryCount..][rd.categoryOffset];
        }
      } else {
        assert orders'[ratingOrder'[r]] == orders[ratingOrder[r]];
      }
    }
  }

  /** The facts about the tables that every created order keeps. */
  ghost predicate TablesWellFormed(orders: seq<SalesOrder>, items: seq<OrderItem>, ratings: seq<Rating>,
                                   ratingOrder: seq<nat>, pool: seq<Clothing>)
  {
    ItemsWellFormed(orders, items, pool) && TotalsAreLineSums(orders, items)
      && RatingsWellFormed(orders, ratings, ratingOrder, pool)
  }

  /**
   * One day of the history loop: the day's `daily_orders` orders (one to
   * five), all dated `dayBack` days before `today` at today's time of day.
   */
  method CreateDay(orders: seq<SalesOrder>, items: seq<OrderItem>, ratings: seq<Rating>, ghost ratingOrder: seq<nat>,
                   pool: seq<Clothing>, today: Timestamp, dayBack: int, dailyOrders: seq<OrderDraw>)
    returns (orders': seq<SalesOrder>, items': seq<OrderItem>, ratings': seq<Rating>, ghost ratingOrder': seq<nat>)
    requires 1 <= dayBack <= HistoryDays && 1 <= |dailyOrders| <= 5
    requires forall o :: 0 <= o < |dailyOrders| ==> OrderDrawOk(dailyOrders[o], |pool|)
    requires TablesWellFormed(orders, items, ratings, ratingOrder, pool)
    requires DatedWithin(orders, today, dayBack + 1, HistoryDays)
    ensures TablesWellFormed(orders', items', ratings', ratingOrder', pool)
    ensures DatedWithin(orders', today, dayBack, HistoryDays)
    ensures CountWhere(SalesForecast.DailyRows(orders'), DayBack(today, dayBack)) == |dailyOrders|
    ensures forall b :: dayBack < b <= HistoryDays ==>
      CountWhere(SalesForecast.DailyRows(orders'), DayBack(today, b))
        == CountWhere(SalesForecast.DailyRows(orders), DayBack(today, b))
  {
    var orderDate := DayBack(today, dayBack);
    assert forall k :: 0 <= k < |orders| ==> SalesForecast.DailyRows(orders)[k].key == orders[k].orderDate;
    AbsentLabel(SalesForecast.DailyRows(orders), orderDate);
    orders', items', ratings', ratingOrder' := orders, items, ratings, ratingOrder;
    for o := 0 to |dailyOrders|
      invariant TablesWellFormed(orders', items', ratings', ratingOrder', pool)
      invariant DatedWithin(orders', today, dayBack, HistoryDays)
      invariant CountWhere(SalesForecast.DailyRows(orders'), orderDate) == o
      invariant forall b :: dayBack < b <= HistoryDays ==>
        CountWhere(SalesForecast.DailyRows(orders'), DayBack(today, b))
          == CountWhere(SalesForecast.DailyRows(orders), DayBack(today, b))
    {
      var d := dailyOrders[o];
      OrderKeepsTables(orders', items', ratings', ratingOrder', pool, orderDate, d);
      OrderKeepsDates(orders', SalesOrder(DemoRegions[d.regionIndex], LineTotal(OrderLines(|orders'|, pool, d)), orderDate),
        today, dayBack);
      ghost var added := OrderRatings(pool, orderDate, d);
      ratingOrder' := ratingOrder' + seq(|added|, _ => |orders'|);
      orders', items', ratings' := CreateOrder(orders', items', ratings', pool, orderDate, d);
    }
  }

  /** The history loop: `day_back` from 60 down to 1, one to five orders a day. */
  method CreateHistory(pool: seq<Clothing>, today: Timestamp, days: seq<seq<OrderDraw>>)
    returns (orders: seq<SalesOrder>, items: seq<OrderItem>, ratings: seq<Rating>, ghost ratingOrder: seq<nat>)
    requires |days| == HistoryDays
    requires forall i :: 0 <= i < |days| ==> 1 <= |days[i]| <= 5
    requires forall i, o :: 0 <= i < |days| && 0 <= o < |days[i]| ==> OrderDrawOk(days[i][o], |pool|)
    ensures TablesWellFormed(orders, items, ratings, ratingOrder, pool)
    ensures DatedWithin(orders, today, 1, HistoryDays)
    ensures OrdersPerDay(orders, today, 1)
  {
    orders, items, ratings, ratingOrder := [], [], [], [];
    for i := 0 to HistoryDays
      invariant TablesWellFormed(orders, items, ratings, ratingOrder, pool)
      invariant DatedWithin(orders, today, HistoryDays + 1 - i, HistoryDays)
      invariant OrdersPerDay(orders, today, HistoryDays + 1 - i)
    {
      ghost var before := orders;
      orders, items, ratings, ratingOrder := CreateDay(orders, items, ratings, ratingOrder, pool, today, HistoryDays - i, days[i]);
      assert forall b :: HistoryDays - i < b <= HistoryDays ==>
        CountWhere(SalesForecast.DailyRows(orders), DayBack(today, b))
          == CountWhere(SalesForecast.DailyRows(before), DayBack(today, b));
    }
  }

  // ---------------------------------------------------------------------------
  // handle.
  // ---------------------------------------------------------------------------

  /** What one run of the command adds to the garments, orders, items and ratings. */
  datatype Generated = Generated(
    clothes: seq<Clothing>,
    orders: seq<SalesOrder>,
    items: seq<OrderItem>,
    ratings: seq<Rating>)

  /**
   * `Command.handle`: with fewer than 30 garments stored, create the
   * catalogue; then, with fewer than 100 orders stored, create 60 days of
   * orders sampling from the new garments followed by every stored garment
   * (`Clothing.objects.all()`, the new ones included). `stored` are the
   * garments stored before the run, so `Clothing.objects.count()` is `|stored|`.
   */
  method Handle(stored: seq<Clothing>, orderCount: nat, today: Timestamp,
                garmentDraws: seq<seq<GarmentDraw>>, days: seq<seq<OrderDraw>>)
    returns (g: Generated, ghost ratingOrder: seq<nat>)
    requires DemoDrawsOk(garmentDraws)
    requires |days| == HistoryDays
    requires forall i :: 0 <= i < |days| ==> 1 <= |days[i]| <= 5
    requires forall i, o :: 0 <= i < |days| && 0 <= o < |days[i]| ==>
      OrderDrawOk(days[i][o], 2 * CatalogueThreshold + |stored|)
    ensures |stored| >= CatalogueThreshold ==> g == Generated([], [], [], [])
    ensures |stored| < CatalogueThreshold ==>
      && CatalogueReady(Families, DemoClothingTypes, DemoPriceRanges, garmentDraws)
      && |g.clothes| == CatalogueThreshold
      && g.clothes == Catalogue(Families, DemoClothingTypes, DemoPriceRanges, garmentDraws)
      && forall c :: c in g.clothes ==> PricedInRange(c) && exists fi :: 0 <= fi < |Families| && OfFamily(Families[fi], c)
    ensures |stored| < CatalogueThreshold && orderCount >= OrderThreshold ==> g.orders == [] && g.items == [] && g.ratings == []
    ensures |stored| < CatalogueThreshold && orderCount < OrderThreshold ==>
      var pool := g.clothes + stored + g.clothes;
      && TablesWellFormed(g.orders, g.items, g.ratings, ratingOrder, pool)
      && DatedWithin(g.orders, today, 1, HistoryDays)
      && OrdersPerDay(g.orders, today, 1)
  {
    ratingOrder := [];
    if |stored| >= CatalogueThreshold {
      return Generated([], [], [], []), ratingOrder;
    }
    DemoCatalogue(garmentDraws);
    var clothingItems := CreateCatalogue(Families, DemoClothingTypes, DemoPriceRanges, garmentDraws);
    var created := clothingItems;
    clothingItems := clothingItems + stored + created;
    if orderCount >= OrderThreshold {
      return Generated(created, [], [], []), ratingOrder;
    }
    var orders, items, ratings;
    orders, items, ratings, ratingOrder := CreateHistory(clothingItems, today, days);
    g := Generated(created, orders, items, ratings);
  }

  /** Garment draws for the demo families: one per name, each within its family's price and stock bounds. */
  ghost predicate DemoDrawsOk(draws: seq<seq<GarmentDraw>>)
  {
    && |draws| == |Families|
    && (forall fi :: 0 <= fi < |Families| ==> |draws[fi]| == |Families[fi].names|)
    && forall fi, i :: 0 <= fi < |Families| && 0 <= i < |draws[fi]| ==> GarmentDrawOk(Families[fi], draws[fi][i])
  }

  /** The demo catalogue has thirty garments, each of its family and priced in range. */
  lemma DemoCatalogue(draws: seq<seq<GarmentDraw>>)
    requires DemoDrawsOk(draws)
    ensures CatalogueReady(Families, DemoClothingTypes, DemoPriceRanges, draws)
    ensures |Catalogue(Families, DemoClothingTypes, DemoPriceRanges, draws)| == CatalogueThreshold
    ensures forall c :: c in Catalogue(Families, DemoClothingTypes, DemoPriceRanges, draws) ==>
      PricedInRange(c) && exists fi :: 0 <= fi < |Families| && OfFamily(Families[fi], c)
  {
    FamiliesHaveTypes();
    FamiliesInsideRanges();
    CatalogueSize(Families, DemoClothingTypes, DemoPriceRanges, draws);
    forall c | c in Catalogue(Families, DemoClothingTypes, DemoPriceRanges, draws)
      ensures PricedInRange(c) && exists fi :: 0 <= fi < |Families| && OfFamily(Families[fi], c)
    {
      CatalogueWellFormed(Families, draws, c);
    }
  }

  /** The catalogue has as many garments as its families have names. */
  lemma {:induction false} CatalogueSize(fams: seq<Family>, types: seq<ClothingType>, ranges: seq<PriceRange>, draws: seq<seq<GarmentDraw>>)
    requires CatalogueReady(fams, types, ranges, draws)
    requires forall fi :: 0 <= fi < |fams| ==> |fams[fi].names| == 5
    ensures |Catalogue(fams, types, ranges, draws)| == 5 * |fams|
  {
    if fams != [] {
      CatalogueSize(fams[..|fams| - 1], types, ranges, draws[..|fams| - 1]);
    }
  }

  // ---------------------------------------------------------------------------
  // The generated history and the sales forecast.
  // ---------------------------------------------------------------------------

  /**
   * A history with orders on each of the 60 days before `today` has at least
   * 60 daily rows, more than the forecast's minimum.
   */
  lemma HistoryPassesForecastGuard(orders: seq<SalesOrder>, today: Timestamp)
    requires OrdersPerDay(orders, today, 1)
    ensures |SalesForecast.DailySalesQuery(orders)| >= HistoryDays
    ensures |SalesForecast.DailySalesQuery(orders)| >= SalesForecast.MinHistory
  {
    var q := SalesForecast.DailySalesQuery(orders);
    var rows := SalesForecast.DailyRows(orders);
    var labels := seq(HistoryDays, i requires 0 <= i < HistoryDays => DayBack(today, i + 1));
    forall i | 0 <= i < |labels|
      ensures HasBucket(q, labels[i])
    {
      assert labels[i] == DayBack(today, i + 1);
      assert CountWhere(rows, DayBack(today, i + 1)) >= 1;
      CountedLabelHasBucket(q, rows, labels[i]);
    }
    forall i, j | 0 <= i < j < |labels|
      ensures labels[i] != labels[j]
    {
      assert labels[i].day == today.day - (i + 1) && labels[j].day == today.day - (j + 1);
    }
    DistinctLabelsFit(labels, q);
  }

  // ---------------------------------------------------------------------------
  // The dates as the database keeps them.
  // ---------------------------------------------------------------------------

  /**
   * `SalesOrder.order_date` is declared with `auto_now_add=True`: when a row
   * is created the field is set to the current instant and the value passed
   * in is discarded. `now[k]` is the instant order `k` was created.
   */
  function StoredOrders(orders: seq<SalesOrder>, now: seq<Timestamp>): (stored: seq<SalesOrder>)
    requires |now| == |orders|
    ensures |stored| == |orders|
    ensures forall k :: 0 <= k < |orders| ==>
      stored[k].region == orders[k].region && stored[k].totalAmount == orders[k].totalAmount
  {
    seq(|orders|, k requires 0 <= k < |orders| => orders[k].(orderDate := now[k]))
  }

  /** `Rating.created_at` is declared with `auto_now_add=True` as well. */
  function StoredRatings(ratings: seq<Rating>, now: seq<Timestamp>): (stored: seq<Rating>)
    requires |now| == |ratings|
    ensures |stored| == |ratings|
    ensures forall r :: 0 <= r < |ratings| ==>
      stored[r].clothing == ratings[r].clothing && stored[r].rating == ratings[r].rating
        && stored[r].category == ratings[r].category
  {
    seq(|ratings|, r requires 0 <= r < |ratings| => ratings[r].(createdAt := now[r]))
  }

  /**
   * As written, a run of the command within one day leaves none of its
   * orders on any of the 60 days before it, although every one of those days
   * was given orders: the whole history is recorded on the day of the run.
   */
  lemma AutoNowAddLosesHistory(orders: seq<SalesOrder>, today: Timestamp, now: seq<Timestamp>, b: int)
    requires OrdersPerDay(orders, today, 1)
    requires |now| == |orders| && forall k :: 0 <= k < |now| ==> now[k].day == today.day
    requires 1 <= b <= HistoryDays
    ensures CountWhere(SalesForecast.DailyRows(orders), DayBack(today, b)) >= 1
    ensures CountWhere(SalesForecast.DailyRows(StoredOrders(orders, now)), DayBack(today, b)) == 0
    ensures forall k :: 0 <= k < |orders| ==> StoredOrders(orders, now)[k].orderDate.day == today.day
  {
    var stored := StoredOrders(orders, now);
    var rows := SalesForecast.DailyRows(stored);
    assert forall k :: 0 <= k < |rows| ==> rows[k].key == now[k];
    AbsentLabel(rows, DayBack(today, b));
  }

  /**
   * As written, a rating created in a run within one day is dated that day:
   * its delay after its (backdated) order is the order's age, not the 3 to 15
   * days drawn, and it exceeds 15 days for every order older than that.
   */
  lemma AutoNowAddLosesRatingDelay(orders: seq<SalesOrder>, ratings: seq<Rating>, ratingOrder: seq<nat>,
                                   pool: seq<Clothing>, today: Timestamp, now: seq<Timestamp>)
    requires RatingsWellFormed(orders, ratings, ratingOrder, pool) && DatedWithin(orders, today, 1, HistoryDays)
    requires |now| == |ratings| && forall r :: 0 <= r < |now| ==> now[r].day == today.day
    ensures forall r :: 0 <= r < |ratings| ==>
      var orderDay := orders[ratingOrder[r]].orderDate.day;
      && 3 <= ratings[r].createdAt.day - orderDay <= 15
      && StoredRatings(ratings, now)[r].createdAt.day - orderDay == today.day - orderDay
      && (today.day - orderDay > 15 ==> StoredRatings(ratings, now)[r].createdAt.day - orderDay > 15)
  {
  }
}
