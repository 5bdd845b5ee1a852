/**
 * Value types shared by the order-management and collector models.
 *
 * Java references that may be null are `Option`s; a `double` quantity, a SQL
 * date and a timestamp are kept opaque because the code only copies them.
 */
module Domain {

  datatype Option<+T> = None | Some(value: T)

  /** The bit pattern of a Java `double`; never computed with, only copied. */
  datatype Quantity = Quantity(bits: bv64)

  /** A `java.time.LocalDate`, as a day number. */
  datatype Date = Date(epochDay: int)

  /** A `java.util.Date` / `java.sql.Timestamp`, as milliseconds. */
  datatype Instant = Instant(millis: int)

  /** A user account (`User`, and its `Collector` / `Provider` roles). */
  datatype User = User(username: string, password: string, role: string, name: string)

  /** A food item: name, quantity, unit and an optional collection or waste date. */
  datatype FoodItem = FoodItem(name: Option<string>, quantity: Quantity, unit: Option<string>, date: Option<Date>)

  /**
   * An order. `orderId` is 0 until the database assigns one; an order keeps two
   * lists, the items already handed over ("ordered") and those still awaited
   * ("requested").
   */
  datatype Order = Order(
    orderId: int,
    provider: Option<User>,
    collector: Option<User>,
    orderDate: Option<Instant>,
    status: Option<string>,
    notes: Option<string>,
    orderedItems: seq<FoodItem>,
    requestedItems: seq<FoodItem>)

  /** The `item_type` tags of table `order_items`, and the status of a new request. */
  const ORDERED := "ordered"
  const REQUESTED := "requested"
  const PENDING := "Pending"

  /** The items with their date cleared, as the order read path builds them. */
  function Undated(items: seq<FoodItem>): seq<FoodItem>
  {
    seq(|items|, i requires 0 <= i < |items| => items[i].(date := None))
  }
}
