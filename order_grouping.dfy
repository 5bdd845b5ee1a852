/**
 * The read path of OrderManagementSystem: rebuilding orders from the rows of
 * `orders LEFT JOIN order_items`.
 *
 * `Group` is the specification, a fold over the rows; `GroupRows` is the
 * `while (rs.next())` loop that fills a map in place. The lemmas describe the
 * fold independently of its definition: which ids get an order, which row
 * supplies an order's own fields, and what lands in each item list.
 */
module OrderGrouping {
  import opened Domain

  /** One row of the join. The item columns are null for an order without items. */
  datatype Row = Row(
    orderId: int,
    providerUsername: Option<string>,
    collectorUsername: Option<string>,
    orderDate: Option<Instant>,
    status: Option<string>,
    notes: Option<string>,
    foodItemName: Option<string>,
    quantity: Quantity,
    unit: Option<string>,
    itemType: Option<string>)

  /** The party a query is run for: a collector's orders, or a provider's pending ones. */
  datatype Party = ForCollector(collector: User) | ForProvider(provider: User)

  /**
   * The order built from the first row of an id. The username column of the
   * other party is read but not used: that party stays null.
   */
  function NewOrder(r: Row, party: Party): Order
  {
    match party
    case ForCollector(c) => Order(r.orderId, None, Some(c), r.orderDate, r.status, r.notes, [], [])
    case ForProvider(p) => Order(r.orderId, Some(p), None, r.orderDate, r.status, r.notes, [], [])
  }

  /** The item a row carries; this path never sets a date. */
  function ItemOf(r: Row): FoodItem
  {
    FoodItem(r.foodItemName, r.quantity, r.unit, None)
  }

  /** Adds the row's item to the list its tag names; no item or another tag changes nothing. */
  function AddItem(o: Order, r: Row): Order
  {
    if r.foodItemName.None? then o
    else if r.itemType == Some(ORDERED) then o.(orderedItems := o.orderedItems + [ItemOf(r)])
    else if r.itemType == Some(REQUESTED) then o.(requestedItems := o.requestedItems + [ItemOf(r)])
    else o
  }

  /** The map from order id to order after all rows have been seen, in order. */
  function Group(rows: seq<Row>, party: Party): map<int, Order>
    decreases |rows|
  {
    if rows == [] then map[]
    else
      var m := Group(rows[..|rows| - 1], party);
      var r := rows[|rows| - 1];
      var o := if r.orderId in m then m[r.orderId] else NewOrder(r, party);
      m[r.orderId := AddItem(o, r)]
  }

  /** The ids that occur in the rows. */
  function IdsOf(rows: seq<Row>): set<int>
  {
    set i | 0 <= i < |rows| :: rows[i].orderId
  }

  /** An order's own fields, with the item lists left out. */
  function Header(o: Order): Order
  {
    o.(orderedItems := [], requestedItems := [])
  }

  /** Reference definition of a list: the items of the rows with this id and tag, in row order. */
  function Tagged(rows: seq<Row>, id: int, tag: string): seq<FoodItem>
  {
    if rows == [] then []
    else
      var r := rows[0];
      (if r.orderId == id && r.foodItemName.Some? && r.itemType == Some(tag) then [ItemOf(r)] else [])
      + Tagged(rows[1..], id, tag)
  }

  /** The orders carry the querying party and no other, and undated items. */
  predicate BelongsTo(o: Order, party: Party)
  {
    && (match party
        case ForCollector(c) => o.collector == Some(c) && o.provider == None
        case ForProvider(p) => o.provider == Some(p) && o.collector == None)
    && (forall k :: 0 <= k < |o.orderedItems| ==> o.orderedItems[k].date == None)
    && (forall k :: 0 <= k < |o.requestedItems| ==> o.requestedItems[k].date == None)
  }

  // ---------------------------------------------------------------------------
  // Properties of the fold

  lemma IdsOfSnoc(rows: seq<Row>, r: Row)
    ensures IdsOf(rows + [r]) == IdsOf(rows) + {r.orderId}
  {
    var s := rows + [r];
    forall id | id in IdsOf(s) ensures id in IdsOf(rows) + {r.orderId} {
      var i :| 0 <= i < |s| && s[i].orderId == id;
      if i < |rows| { assert rows[i] == s[i]; }
    }
    forall id | id in IdsOf(rows) ensures id in IdsOf(s) {
      var i :| 0 <= i < |rows| && rows[i].orderId == id;
      assert s[i] == rows[i];
    }
    assert s[|rows|] == r;
  }

  /** An order for each id that occurs in the rows and for no other; each order carries its key. */
  lemma {:induction false} GroupKeys(rows: seq<Row>, party: Party)
    ensures Group(rows, party).Keys == IdsOf(rows)
    ensures forall id :: id in Group(rows, party) ==> Group(rows, party)[id].orderId == id
    decreases |rows|
  {
    if rows != [] {
      var init := rows[..|rows| - 1];
      var r := rows[|rows| - 1];
      GroupKeys(init, party);
      assert rows == init + [r];
      IdsOfSnoc(init, r);
    }
  }

  /** N distinct ids in the rows give exactly N orders. */
  lemma GroupSize(rows: seq<Row>, party: Party)
    ensures |Group(rows, party)| == |IdsOf(rows)|
  {
    GroupKeys(rows, party);
    assert |Group(rows, party).Keys| == |Group(rows, party)|;
  }

  /** Every order belongs to the querying party and holds only undated items. */
  lemma {:induction false} GroupBelongsTo(rows: seq<Row>, party: Party)
    ensures forall id :: id in Group(rows, party) ==> BelongsTo(Group(rows, party)[id], party)
    decreases |rows|
  {
    if rows != [] {
      GroupBelongsTo(rows[..|rows| - 1], party);
    }
  }

  /**
   * The first row of an id creates its order; later rows with that id never
   * change the order's own fields (status, notes, date, parties).
   */
  lemma {:induction false} FirstRowWins(rows: seq<Row>, party: Party, k: nat)
    requires k < |rows|
    requires forall j :: 0 <= j < k ==> rows[j].orderId != rows[k].orderId
    ensures rows[k].orderId in Group(rows, party)
    ensures Header(Group(rows, party)[rows[k].orderId]) == NewOrder(rows[k], party)
    decreases |rows|
  {
    var init := rows[..|rows| - 1];
    var r := rows[|rows| - 1];
    if k == |rows| - 1 {
      GroupKeys(init, party);
      assert rows[k].orderId !in IdsOf(init);
    } else {
      FirstRowWins(init, party, k);
      assert init[k] == rows[k];
    }
  }

  lemma {:induction false} TaggedAppend(a: seq<Row>, b: seq<Row>, id: int, tag: string)
    ensures Tagged(a + b, id, tag) == Tagged(a, id, tag) + Tagged(b, id, tag)
    decreases |a|
  {
    if a == [] {
      assert a + b == b;
    } else {
      TaggedAppend(a[1..], b, id, tag);
      var r := a[0];
      var head := if r.orderId == id && r.foodItemName.Some? && r.itemType == Some(tag) then [ItemOf(r)] else [];
      assert (a + b)[0] == r && (a + b)[1..] == a[1..] + b;
      assert Tagged(a + b, id, tag) == head + Tagged(a[1..] + b, id, tag);
      assert Tagged(a, id, tag) == head + Tagged(a[1..], id, tag);
    }
  }

  /** Each list holds exactly the items of its id's rows with the list's tag, in row order. */
  lemma {:induction false} GroupedItems(rows: seq<Row>, party: Party, id: int)
    requires id in Group(rows, party)
    ensures Group(rows, party)[id].orderedItems == Tagged(rows, id, ORDERED)
    ensures Group(rows, party)[id].requestedItems == Tagged(rows, id, REQUESTED)
    decreases |rows|
  {
    var init := rows[..|rows| - 1];
    var r := rows[|rows| - 1];
    assert rows == init + [r];
    TaggedAppend(init, [r], id, ORDERED);
    TaggedAppend(init, [r], id, REQUESTED);
    if id in Group(init, party) {
      GroupedItems(init, party, id);
    } else {
      GroupKeys(init, party);
      assert id == r.orderId;
      TaggedAbsent(init, id, ORDERED);
      TaggedAbsent(init, id, REQUESTED);
    }
  }

  lemma {:induction false} TaggedAbsent(rows: seq<Row>, id: int, tag: string)
    requires id !in IdsOf(rows)
    ensures Tagged(rows, id, tag) == []
    decreases |rows|
  {
    if rows != [] {
      assert rows[0].orderId in IdsOf(rows);
      forall x | x in IdsOf(rows[1..]) ensures x in IdsOf(rows) {
        var i :| 0 <= i < |rows[1..]| && rows[1..][i].orderId == x;
        assert rows[i + 1].orderId == x;
      }
      TaggedAbsent(rows[1..], id, tag);
    }
  }

  /**
   * A row without an item, or with a tag other than "ordered" and "requested",
   * adds no item: the orders stay as they were, except that the row creates
   * its id's order, with empty lists, when it is the first row of that id.
   */
  lemma ItemlessRowAddsNothing(rows: seq<Row>, party: Party, r: Row)
    requires r.foodItemName == None || (r.itemType != Some(ORDERED) && r.itemType != Some(REQUESTED))
    ensures r.orderId in Group(rows, party) ==> Group(rows + [r], party) == Group(rows, party)
    ensures r.orderId !in Group(rows, party) ==>
      Group(rows + [r], party) == Group(rows, party)[r.orderId := NewOrder(r, party)]
  {
    assert (rows + [r])[..|rows|] == rows;
  }

  /**
   * A tagged item row for an id already seen goes to the end of the list its
   * tag names; the other list, the order's own fields and the other orders
   * are untouched.
   */
  lemma RoutedByTag(rows: seq<Row>, party: Party, r: Row)
    requires r.orderId in Group(rows, party) && r.foodItemName.Some?
    requires r.itemType == Some(ORDERED) || r.itemType == Some(REQUESTED)
    ensures var before, after := Group(rows, party), Group(rows + [r], party);
      && after.Keys == before.Keys
      && (forall id :: id in before && id != r.orderId ==> after[id] == before[id])
      && Header(after[r.orderId]) == Header(before[r.orderId])
      && after[r.orderId].orderedItems ==
           before[r.orderId].orderedItems + (if r.itemType == Some(ORDERED) then [ItemOf(r)] else [])
      && after[r.orderId].requestedItems ==
           before[r.orderId].requestedItems + (if r.itemType == Some(REQUESTED) then [ItemOf(r)] else [])
  {
    assert (rows + [r])[..|rows|] == rows;
  }

  // ---------------------------------------------------------------------------
  // The loops of getOrdersForCollector / getPendingOrdersForProvider

  /** The `while (rs.next())` loop: fills the map in place, one row at a time. */
  method GroupRows(rows: seq<Row>, party: Party) returns (orders: map<int, Order>)
    ensures orders == Group(rows, party)
  {
    orders := map[];
    var i := 0;
    while i < |rows|
      invariant 0 <= i <= |rows|
      invariant orders == Group(rows[..i], party)
    {
      var r := rows[i];
      var order: Order;
      if r.orderId in orders {
        order := orders[r.orderId];
      } else {
        order := NewOrder(r, party);
        orders := orders[r.orderId := order];
      }
      if r.foodItemName.Some? {
        var item := ItemOf(r);
        if r.itemType == Some(ORDERED) {
          order := order.(orderedItems := order.orderedItems + [item]);
          orders := orders[r.orderId := order];
        } else if r.itemType == Some(REQUESTED) {
          order := order.(requestedItems := order.requestedItems + [item]);
          orders := orders[r.orderId := order];
        }
      }
      assert rows[..i + 1][..i] == rows[..i];
      i := i + 1;
    }
    assert rows[..i] == rows;
  }

  /**
   * Where the read stopped. `Exhausted`: `rs.next()` returned false.
   * `BeforeRow(k)`: an `SQLException` came from `rs.next()`, the id or the
   * order's own columns of row k, so row k adds nothing. `InItemColumns(k)`:
   * it came from the item columns of row k, after row k's order (if new) was
   * already put in the map, so row k counts as a row without an item.
   * A row index past the last row means the read ran to the end.
   */
  datatype Stop = Exhausted | BeforeRow(at: nat) | InItemColumns(at: nat)

  /** The rows whose effect the map holds when the read stops. */
  function Delivered(rows: seq<Row>, stop: Stop): seq<Row>
  {
    match stop
    case Exhausted => rows
    case BeforeRow(k) => if k < |rows| then rows[..k] else rows
    case InItemColumns(k) => if k < |rows| then rows[..k] + [rows[k].(foodItemName := None)] else rows
  }

  /**
   * A failure in the item columns of row k keeps everything grouped from the
   * rows before it and adds row k's order when k is the first row of its id,
   * but loses row k's item.
   */
  lemma FailureInItemColumns(rows: seq<Row>, k: nat, party: Party)
    requires k < |rows|
    ensures var before, after := Group(rows[..k], party), Group(Delivered(rows, InItemColumns(k)), party);
      && after.Keys == IdsOf(rows[..k + 1])
      && (forall id :: id in before ==> after[id] == before[id])
      && (rows[k].orderId !in before ==> after[rows[k].orderId] == NewOrder(rows[k], party))
  {
    var r := rows[k].(foodItemName := None);
    ItemlessRowAddsNothing(rows[..k], party, r);
    GroupKeys(rows[..k], party);
    GroupKeys(rows[..k] + [r], party);
    IdsOfSnoc(rows[..k], r);
    assert rows[..k + 1] == rows[..k] + [rows[k]];
    IdsOfSnoc(rows[..k], rows[k]);
  }

  /**
   * The grouping both queries share. The `SQLException` that stops the read
   * is caught and the orders grouped so far are returned. The result is the
   * map itself: the list the source copies out of it has the map's
   * unspecified order.
   */
  method OrdersFromRows(rows: seq<Row>, stop: Stop, party: Party) returns (orders: map<int, Order>)
    ensures orders == Group(Delivered(rows, stop), party)
    ensures orders.Keys == IdsOf(Delivered(rows, stop))
    ensures forall id :: id in orders ==> orders[id].orderId == id && BelongsTo(orders[id], party)
  {
    var delivered := Delivered(rows, stop);
    orders := GroupRows(delivered, party);
    GroupKeys(delivered, party);
    GroupBelongsTo(delivered, party);
  }

  /** `getOrdersForCollector`: the collector's orders, each with the collector and no provider. */
  method GetOrdersForCollector(collector: User, rows: seq<Row>, stop: Stop) returns (orders: map<int, Order>)
    ensures orders == Group(Delivered(rows, stop), ForCollector(collector))
    ensures orders.Keys == IdsOf(Delivered(rows, stop))
    ensures forall id :: id in orders ==> orders[id].collector == Some(collector) && orders[id].provider == None
  {
    orders := OrdersFromRows(rows, stop, ForCollector(collector));
  }

  /** `getPendingOrdersForProvider`: the provider's pending orders, each with the provider and no collector. */
  method GetPendingOrdersForProvider(provider: User, rows: seq<Row>, stop: Stop) returns (orders: map<int, Order>)
    ensures orders == Group(Delivered(rows, stop), ForProvider(provider))
    ensures orders.Keys == IdsOf(Delivered(rows, stop))
    ensures forall id :: id in orders ==> orders[id].provider == Some(provider) && orders[id].collector == None
  {
    orders := OrdersFromRows(rows, stop, ForProvider(provider));
  }

  /** `getPendingRequestsForProvider` returns what `getPendingOrdersForProvider` returns. */
  method GetPendingRequestsForProvider(provider: User, rows: seq<Row>, stop: Stop) returns (orders: map<int, Order>)
    ensures orders == Group(Delivered(rows, stop), ForProvider(provider))
    ensures orders.Keys == IdsOf(Delivered(rows, stop))
    ensures forall id :: id in orders ==> orders[id].provider == Some(provider) && orders[id].collector == None
  {
    orders := GetPendingOrdersForProvider(provider, rows, stop);
  }
}
