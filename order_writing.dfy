/**
 * The write path of OrderManagementSystem: `addOrder`, `insertOrderItem`,
 * `addRequest` and `sendRequest`.
 *
 * The database is not modelled as state. A write produces the rows it would
 * leave behind: the order's columns and its `order_items` records, with the
 * transaction's outcome. How the database behaves is given as two inputs:
 * the key it generates (if any) and the first statement that throws an
 * `SQLException` (if any). The statements are numbered in the order they run:
 * 0 is the order insert, 1 .. n are the n item inserts (ordered items first,
 * then requested ones), and n + 1 is the commit.
 */
module OrderWriting {
  import opened Domain
  import opened OrderGrouping

  /** One row of `order_items`, as `insertOrderItem` binds it. */
  datatype ItemRecord = ItemRecord(orderId: int, name: Option<string>, quantity: Quantity, unit: Option<string>, itemType: string)

  /** The four parameters `INSERT_ORDER` binds. */
  datatype OrderColumns = OrderColumns(
    providerUsername: Option<string>,
    collectorUsername: Option<string>,
    status: Option<string>,
    notes: Option<string>)

  /** How a call to `addOrder` ends. Only `Committed` leaves rows for readers to see. */
  datatype AddOutcome =
    | Committed(orderId: int, columns: OrderColumns, items: seq<ItemRecord>)
    | RolledBack(failedStatement: nat)
    | NoGeneratedKey
    | NullDereference

  function Record(orderId: int, item: FoodItem, tag: string): ItemRecord
  {
    ItemRecord(orderId, item.name, item.quantity, item.unit, tag)
  }

  /** The records are the items, in order, each under `orderId` with tag `tag`. */
  predicate TaggedRecords(records: seq<ItemRecord>, orderId: int, items: seq<FoodItem>, tag: string)
  {
    && |records| == |items|
    && forall i :: 0 <= i < |items| ==> records[i] == Record(orderId, items[i], tag)
  }

  /** The records of one order: its ordered items tagged "ordered", then its requested items tagged "requested". */
  predicate Emits(records: seq<ItemRecord>, orderId: int, ordered: seq<FoodItem>, requested: seq<FoodItem>)
  {
    && |records| == |ordered| + |requested|
    && TaggedRecords(records[..|ordered|], orderId, ordered, ORDERED)
    && TaggedRecords(records[|ordered|..], orderId, requested, REQUESTED)
  }

  /** Statements 0 .. last all succeed. */
  predicate Survives(failing: Option<nat>, last: nat)
  {
    failing.None? || failing.value > last
  }

  /**
   * The transaction of `addOrder` once the order's columns are bound: it
   * commits exactly when a key comes back and every statement succeeds, and
   * then holds the order and all its tagged items; a failing statement rolls
   * everything back; without a key nothing further runs.
   */
  predicate Transaction(outcome: AddOutcome, columns: OrderColumns, ordered: seq<FoodItem>, requested: seq<FoodItem>,
                        generatedKey: Option<int>, failing: Option<nat>)
  {
    var n := |ordered| + |requested|;
    && (outcome.Committed? <==> generatedKey.Some? && Survives(failing, n + 1))
    && (outcome.Committed? ==>
          && outcome.orderId == generatedKey.value
          && outcome.columns == columns
          && Emits(outcome.items, outcome.orderId, ordered, requested))
    && (outcome.RolledBack? <==> failing.Some? && (failing.value == 0 || (generatedKey.Some? && failing.value <= n + 1)))
    && (outcome.RolledBack? ==> outcome.failedStatement == failing.value)
    && (outcome.NoGeneratedKey? <==> generatedKey.None? && failing != Some(0))
    && !outcome.NullDereference?
  }

  /** The order insert, the two item loops and the commit, inside one transaction. */
  method InsertOrder(columns: OrderColumns, ordered: seq<FoodItem>, requested: seq<FoodItem>,
                     generatedKey: Option<int>, failing: Option<nat>) returns (outcome: AddOutcome)
    ensures Transaction(outcome, columns, ordered, requested, generatedKey, failing)
  {
    if failing == Some(0) {
      return RolledBack(0);
    }
    if generatedKey.None? {
      return NoGeneratedKey;
    }
    var orderId := generatedKey.value;
    var inserted: seq<ItemRecord> := [];
    for k := 0 to |ordered|
      invariant TaggedRecords(inserted, orderId, ordered[..k], ORDERED)
      invariant Survives(failing, k)
    {
      if failing == Some(1 + k) {
        return RolledBack(1 + k);
      }
      inserted := inserted + [Record(orderId, ordered[k], ORDERED)];
    }
    assert ordered[..|ordered|] == ordered;
    for k := 0 to |requested|
      invariant |inserted| == |ordered| + k
      invariant TaggedRecords(inserted[..|ordered|], orderId, ordered, ORDERED)
      invariant TaggedRecords(inserted[|ordered|..], orderId, requested[..k], REQUESTED)
      invariant Survives(failing, |ordered| + k)
    {
      if failing == Some(1 + |ordered| + k) {
        return RolledBack(1 + |ordered| + k);
      }
      var item := Record(orderId, requested[k], REQUESTED);
      assert (inserted + [item])[..|ordered|] == inserted[..|ordered|];
      assert (inserted + [item])[|ordered|..] == inserted[|ordered|..] + [item];
      inserted := inserted + [item];
    }
    assert requested[..|requested|] == requested;
    if failing == Some(1 + |ordered| + |requested|) {
      return RolledBack(1 + |ordered| + |requested|);
    }
    outcome := Committed(orderId, columns, inserted);
  }

  /**
   * `addOrder` as written: the provider's and the collector's usernames are
   * read through the order's references, so an order lacking either throws a
   * `NullPointerException` before any statement runs. That exception is not
   * an `SQLException`: it escapes both handlers, and the caller sees it.
   */
  method AddOrder(order: Order, generatedKey: Option<int>, failing: Option<nat>) returns (outcome: AddOutcome)
    ensures order.provider.None? || order.collector.None? ==> outcome == NullDereference
    ensures order.provider.Some? && order.collector.Some? ==>
      Transaction(outcome,
                  OrderColumns(Some(order.provider.value.username), Some(order.collector.value.username), order.status, order.notes),
                  order.orderedItems, order.requestedItems, generatedKey, failing)
  {
    if order.provider.None? || order.collector.None? {
      return NullDereference;
    }
    var columns := OrderColumns(Some(order.provider.value.username), Some(order.collector.value.username), order.status, order.notes);
    outcome := InsertOrder(columns, order.orderedItems, order.requestedItems, generatedKey, failing);
  }

  /** The username of a party that may be absent, bound as SQL NULL when it is. */
  function UsernameOrNull(u: Option<User>): Option<string>
  {
    if u.Some? then Some(u.value.username) else None
  }

  /** `addOrder` with a missing party stored as NULL instead of dereferenced. */
  method AddOrderNullSafe(order: Order, generatedKey: Option<int>, failing: Option<nat>) returns (outcome: AddOutcome)
    ensures Transaction(outcome,
                        OrderColumns(UsernameOrNull(order.provider), UsernameOrNull(order.collector), order.status, order.notes),
                        order.orderedItems, order.requestedItems, generatedKey, failing)
  {
    var columns := OrderColumns(UsernameOrNull(order.provider), UsernameOrNull(order.collector), order.status, order.notes);
    outcome := InsertOrder(columns, order.orderedItems, order.requestedItems, generatedKey, failing);
  }

  /** `addRequest`: one item insert tagged "requested", on its own connection and without a transaction. */
  method AddRequest(order: Order, item: FoodItem, fails: bool) returns (written: Option<ItemRecord>)
    ensures fails ==> written == None
    ensures !fails ==> written.Some? && written.value.orderId == order.orderId && written.value.itemType == REQUESTED
    ensures !fails ==> written.value.name == item.name && written.value.quantity == item.quantity && written.value.unit == item.unit
  {
    if fails {
      return None;
    }
    written := Some(Record(order.orderId, item, REQUESTED));
  }

  /** The order `sendRequest` builds: not yet persisted, pending, for the collector alone, requesting one item. */
  function RequestOrder(collector: User, item: FoodItem, now: Instant): Order
  {
    Order(0, None, Some(collector), Some(now), Some(PENDING), None, [], [item])
  }

  /** `sendRequest` as written: its order has no provider, so `addOrder` always dereferences null. */
  method SendRequest(collector: User, item: FoodItem, now: Instant, generatedKey: Option<int>, failing: Option<nat>)
    returns (outcome: AddOutcome)
    ensures outcome == NullDereference
  {
    var order := RequestOrder(collector, item, now);
    outcome := AddOrder(order, generatedKey, failing);
  }

  /** `sendRequest` over the null-safe insert: a pending order with no provider and exactly one requested item. */
  method SendRequestCorrected(collector: User, item: FoodItem, now: Instant, generatedKey: Option<int>, failing: Option<nat>)
    returns (outcome: AddOutcome)
    ensures Transaction(outcome, OrderColumns(None, Some(collector.username), Some(PENDING), None), [], [item],
                        generatedKey, failing)
    ensures outcome.Committed? <==> generatedKey.Some? && Survives(failing, 2)
    ensures outcome.Committed? ==>
      && outcome.orderId == generatedKey.value
      && outcome.columns == OrderColumns(None, Some(collector.username), Some(PENDING), None)
      && outcome.items == [Record(outcome.orderId, item, REQUESTED)]
  {
    var order := RequestOrder(collector, item, now);
    outcome := AddOrderNullSafe(order, generatedKey, failing);
  }

  // ---------------------------------------------------------------------------
  // Reading a written order back

  /** The join row of a stored order and one of its item records. */
  function JoinedRow(orderId: int, columns: OrderColumns, date: Option<Instant>, rec: ItemRecord): Row
  {
    Row(orderId, columns.providerUsername, columns.collectorUsername, date, columns.status, columns.notes,
        rec.name, rec.quantity, rec.unit, Some(rec.itemType))
  }

  /**
   * The rows `orders LEFT JOIN order_items` yields for one stored order, in
   * insertion order: one per item record, or a single row with null item
   * columns when there is none. `date` is the order date the database set.
   */
  function JoinRows(orderId: int, columns: OrderColumns, date: Option<Instant>, records: seq<ItemRecord>): seq<Row>
  {
    if records == [] then
      [Row(orderId, columns.providerUsername, columns.collectorUsername, date, columns.status, columns.notes,
           None, Quantity(0), None, None)]
    else
      seq(|records|, i requires 0 <= i < |records| => JoinedRow(orderId, columns, date, records[i]))
  }

  lemma {:induction false} TaggedAll(rows: seq<Row>, id: int, tag: string)
    requires forall i :: 0 <= i < |rows| ==>
      rows[i].orderId == id && rows[i].foodItemName.Some? && rows[i].itemType == Some(tag)
    ensures |Tagged(rows, id, tag)| == |rows|
    ensures forall i :: 0 <= i < |rows| ==> Tagged(rows, id, tag)[i] == ItemOf(rows[i])
    decreases |rows|
  {
    if rows != [] {
      TaggedAll(rows[1..], id, tag);
      var t := Tagged(rows, id, tag);
      assert t == [ItemOf(rows[0])] + Tagged(rows[1..], id, tag);
      forall i | 0 <= i < |rows| ensures t[i] == ItemOf(rows[i]) {
        if i > 0 { assert rows[1..][i - 1] == rows[i]; }
      }
    }
  }

  lemma {:induction false} TaggedNone(rows: seq<Row>, id: int, tag: string)
    requires forall i :: 0 <= i < |rows| ==> rows[i].itemType != Some(tag)
    ensures Tagged(rows, id, tag) == []
    decreases |rows|
  {
    if rows != [] {
      assert rows[0].itemType != Some(tag);
      TaggedNone(rows[1..], id, tag);
    }
  }

  /** The list a tag names, read back from records that all carry it. */
  lemma ReadBackTagged(orderId: int, columns: OrderColumns, date: Option<Instant>,
                       rows: seq<Row>, records: seq<ItemRecord>, items: seq<FoodItem>, tag: string)
    requires TaggedRecords(records, orderId, items, tag)
    requires forall i :: 0 <= i < |items| ==> items[i].name.Some?
    requires |rows| == |records|
    requires forall i :: 0 <= i < |rows| ==> rows[i] == JoinedRow(orderId, columns, date, records[i])
    ensures Tagged(rows, orderId, tag) == Undated(items)
  {
    TaggedAll(rows, orderId, tag);
  }

  lemma ReadBackOther(orderId: int, columns: OrderColumns, date: Option<Instant>,
                      rows: seq<Row>, records: seq<ItemRecord>, items: seq<FoodItem>, tag: string, other: string)
    requires TaggedRecords(records, orderId, items, tag) && other != tag
    requires |rows| == |records|
    requires forall i :: 0 <= i < |rows| ==> rows[i] == JoinedRow(orderId, columns, date, records[i])
    ensures Tagged(rows, orderId, other) == []
  {
    TaggedNone(rows, orderId, other);
  }

  /** Every join row of a stored order carries its id and the order's own columns. */
  lemma JoinRowsIds(orderId: int, columns: OrderColumns, date: Option<Instant>, records: seq<ItemRecord>)
    ensures var rows := JoinRows(orderId, columns, date, records);
      && IdsOf(rows) == {orderId}
      && rows[0].status == columns.status && rows[0].notes == columns.notes && rows[0].orderDate == date
  {
    var rows := JoinRows(orderId, columns, date, records);
    assert rows[0].orderId == orderId;
  }

  /** The join rows of what `addOrder` wrote hold the ordered items under "ordered" and the requested ones under "requested". */
  lemma {:induction false} JoinRowsTagged(orderId: int, columns: OrderColumns, date: Option<Instant>,
                                         records: seq<ItemRecord>, ordered: seq<FoodItem>, requested: seq<FoodItem>)
    requires Emits(records, orderId, ordered, requested)
    requires forall i :: 0 <= i < |ordered| ==> ordered[i].name.Some?
    requires forall i :: 0 <= i < |requested| ==> requested[i].name.Some?
    ensures Tagged(JoinRows(orderId, columns, date, records), orderId, ORDERED) == Undated(ordered)
    ensures Tagged(JoinRows(orderId, columns, date, records), orderId, REQUESTED) == Undated(requested)
  {
    var rows := JoinRows(orderId, columns, date, records);
    if records == [] {
      assert Undated(ordered) == [] && Undated(requested) == [];
    } else {
      var n := |ordered|;
      var front, back := rows[..n], rows[n..];
      assert rows == front + back;
      TaggedAppend(front, back, orderId, ORDERED);
      TaggedAppend(front, back, orderId, REQUESTED);
      ReadBackTagged(orderId, columns, date, front, records[..n], ordered, ORDERED);
      ReadBackOther(orderId, columns, date, front, records[..n], ordered, ORDERED, REQUESTED);
      ReadBackTagged(orderId, columns, date, back, records[n..], requested, REQUESTED);
      ReadBackOther(orderId, columns, date, back, records[n..], requested, REQUESTED, ORDERED);
    }
  }

  /**
   * Round trip: reading back what a committed `addOrder` stored gives one
   * order, under the generated id, with the stored status, notes and date and
   * both item lists as they were written (less the dates, which the read path
   * does not carry). Items need a name: a row whose item name is null is
   * skipped on reading.
   */
  lemma AddOrderRoundTrip(orderId: int, columns: OrderColumns, date: Option<Instant>,
                          records: seq<ItemRecord>, ordered: seq<FoodItem>, requested: seq<FoodItem>,
                          party: Party)
    requires Emits(records, orderId, ordered, requested)
    requires forall i :: 0 <= i < |ordered| ==> ordered[i].name.Some?
    requires forall i :: 0 <= i < |requested| ==> requested[i].name.Some?
    ensures var m := Group(JoinRows(orderId, columns, date, records), party);
      && m.Keys == {orderId}
      && m[orderId].orderedItems == Undated(ordered)
      && m[orderId].requestedItems == Undated(requested)
      && m[orderId].status == columns.status
      && m[orderId].notes == columns.notes
      && m[orderId].orderDate == date
  {
    var rows := JoinRows(orderId, columns, date, records);
    JoinRowsIds(orderId, columns, date, records);
    GroupKeys(rows, party);
    FirstRowWins(rows, party, 0);
    GroupedItems(rows, party, orderId);
    JoinRowsTagged(orderId, columns, date, records, ordered, requested);
  }

  /**
   * The request stored by the corrected `sendRequest` reads back as a
   * pending order with no ordered items and exactly the one requested item.
   */
  lemma SendRequestRoundTrip(collector: User, item: FoodItem, now: Instant, outcome: AddOutcome,
                             date: Option<Instant>, party: Party)
    requires outcome.Committed? && item.name.Some?
    requires outcome.columns == OrderColumns(None, Some(collector.username), Some(PENDING), None)
    requires outcome.items == [Record(outcome.orderId, item, REQUESTED)]
    ensures var m := Group(JoinRows(outcome.orderId, outcome.columns, date, outcome.items), party);
      && m.Keys == {outcome.orderId}
      && m[outcome.orderId].status == Some(PENDING)
      && m[outcome.orderId].orderedItems == []
      && m[outcome.orderId].requestedItems == [item.(date := None)]
  {
    var records := outcome.items;
    assert records[..0] == [] && records[0..] == records;
    AddOrderRoundTrip(outcome.orderId, outcome.columns, date, records, [], [item], party);
  }

  /**
   * Reading back after `addRequest`: the new record lands at the end of its
   * order's requested items; nothing else changes.
   */
  lemma AddRequestReadBack(rows: seq<Row>, party: Party, columns: OrderColumns, date: Option<Instant>,
                           order: Order, item: FoodItem, rec: ItemRecord)
    requires order.orderId in Group(rows, party) && item.name.Some?
    requires rec == Record(order.orderId, item, REQUESTED)
    ensures var before, after := Group(rows, party), Group(rows + [JoinedRow(order.orderId, columns, date, rec)], party);
      && after.Keys == before.Keys
      && after[order.orderId].requestedItems == before[order.orderId].requestedItems + [item.(date := None)]
      && after[order.orderId].orderedItems == before[order.orderId].orderedItems
  {
    RoutedByTag(rows, party, JoinedRow(order.orderId, columns, date, rec));
  }
}
