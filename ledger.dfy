/**
 * The record shapes of the sales ledger (sales_analysis/models.py): only the
 * columns the analytics read or the demo-data generator writes. Foreign keys
 * are held as the referenced record itself, except an order item's order,
 * which is the position of its order in the table of orders.
 */
module Ledger {
  import opened Wrappers

  /** Microseconds in a day, the resolution of a `DateTimeField`. */
  const MicrosPerDay: nat := 86_400_000_000

  type TimeOfDay = t: nat | t < MicrosPerDay

  /** A `DateTimeField` value: the day number (days since 1970-01-01) and the time within that day. */
  datatype Timestamp = Timestamp(day: int, time: TimeOfDay)

  /** Chronological order of timestamps. */
  predicate TimestampLe(a: Timestamp, b: Timestamp)
  {
    a.day < b.day || (a.day == b.day && a.time <= b.time)
  }

  /** The same instant `n` days later (`timestamp + timedelta(days=n)`). */
  function AddDays(t: Timestamp, n: int): (r: Timestamp)
    ensures r.time == t.time && r.day - t.day == n
    ensures 0 <= n ==> TimestampLe(t, r)
    ensures 0 < n ==> !TimestampLe(r, t)
  {
    Timestamp(t.day + n, t.time)
  }

  datatype Region = Region(name: string, code: string)

  datatype ClothingType = ClothingType(name: string, description: Option<string>)

  datatype PriceRange = PriceRange(name: string, minPrice: real, maxPrice: real)

  datatype RatingCategory = RatingCategory(name: string, description: Option<string>)

  /** A garment; its price range is nullable (`on_delete=SET_NULL`). */
  datatype Clothing = Clothing(
    name: string,
    clothingType: ClothingType,
    price: real,
    priceRange: Option<PriceRange>,
    stock: int)

  datatype SalesOrder = SalesOrder(region: Region, totalAmount: real, orderDate: Timestamp)

  /** One line of an order: `order` is the position of its order among the orders. */
  datatype OrderItem = OrderItem(order: nat, clothing: Clothing, quantity: nat, price: real)

  /** A rating of a garment; its category is nullable (`on_delete=SET_NULL`). */
  datatype Rating = Rating(clothing: Clothing, rating: int, category: Option<RatingCategory>, createdAt: Timestamp)
}
