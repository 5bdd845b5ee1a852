/**
 * The `Collector` role: a user with an in-memory list of collected items,
 * filled from `collected_items` when the collector is constructed and
 * appended to afterwards.
 *
 * The rows of `collected_items` and `wasted_items` are inputs, as is the
 * date `LocalDate.now()` returns. A query that fails part-way has delivered
 * a prefix of its rows; the exception is caught and what was loaded stays.
 */
module CollectorState {
  import opened Domain

  /** A row of `collected_items` or `wasted_items`: name, quantity, unit and a date that may be null. */
  datatype ItemRow = ItemRow(name: Option<string>, quantity: Quantity, unit: Option<string>, date: Option<Date>)

  /**
   * The items are the rows, one each and in row order, with the row's date,
   * or `today` where the row's date is null.
   */
  predicate LoadedFrom(items: seq<FoodItem>, rows: seq<ItemRow>, today: Date)
  {
    && |items| == |rows|
    && forall i :: 0 <= i < |rows| ==>
         && items[i].name == rows[i].name
         && items[i].quantity == rows[i].quantity
         && items[i].unit == rows[i].unit
         && items[i].date == Some(if rows[i].date.Some? then rows[i].date.value else today)
  }

  /** Loading two runs of rows one after the other loads the rows of both, in order. */
  lemma LoadedFromAppend(a: seq<FoodItem>, b: seq<FoodItem>, rowsA: seq<ItemRow>, rowsB: seq<ItemRow>, today: Date)
    requires LoadedFrom(a, rowsA, today) && LoadedFrom(b, rowsB, today)
    ensures LoadedFrom(a + b, rowsA + rowsB, today)
  {
    var items, rows := a + b, rowsA + rowsB;
    forall i | 0 <= i < |rows|
      ensures items[i].name == rows[i].name && items[i].quantity == rows[i].quantity && items[i].unit == rows[i].unit
      ensures items[i].date == Some(if rows[i].date.Some? then rows[i].date.value else today)
    {
      if i >= |a| {
        assert items[i] == b[i - |a|] && rows[i] == rowsB[i - |a|];
      }
    }
  }

  class Collector {
    const account: User
    var collectedItems: seq<FoodItem>

    /** A new collector starts from an empty list and loads its collected items. */
    constructor (username: string, password: string, name: string, stored: seq<ItemRow>, today: Date)
      ensures account == User(username, password, "Collector", name)
      ensures LoadedFrom(collectedItems, stored, today)
    {
      account := User(username, password, "Collector", name);
      collectedItems := [];
      new;
      LoadCollectedItems(stored, today);
    }

    /** `addCollectedItem`: a non-null item goes to the end; null changes nothing. */
    method AddCollectedItem(item: Option<FoodItem>)
      modifies this
      ensures item.Some? ==> collectedItems == old(collectedItems) + [item.value]
      ensures item.None? ==> collectedItems == old(collectedItems)
    {
      if item.Some? {
        collectedItems := collectedItems + [item.value];
      }
    }

    /**
     * `getCollectedItems`: a copy of the list. A sequence is a value, so
     * whatever the caller does with it leaves `collectedItems` as it is.
     */
    method GetCollectedItems() returns (items: seq<FoodItem>)
      ensures items == collectedItems
    {
      items := collectedItems;
    }

    /** `loadCollectedItems`: the `while (resultSet.next())` loop appending one item per row. */
    method LoadCollectedItems(stored: seq<ItemRow>, today: Date)
      modifies this
      ensures |old(collectedItems)| <= |collectedItems|
      ensures collectedItems[..|old(collectedItems)|] == old(collectedItems)
      ensures LoadedFrom(collectedItems[|old(collectedItems)|..], stored, today)
    {
      ghost var before := collectedItems;
      var i := 0;
      while i < |stored|
        invariant 0 <= i <= |stored|
        invariant |collectedItems| == |before| + i
        invariant collectedItems[..|before|] == before
        invariant LoadedFrom(collectedItems[|before|..], stored[..i], today)
      {
        var row := stored[i];
        var date := if row.date.Some? then row.date.value else today;
        var item := FoodItem(row.name, row.quantity, row.unit, Some(date));
        LoadedFromAppend(collectedItems[|before|..], [item], stored[..i], [row], today);
        assert (collectedItems + [item])[|before|..] == collectedItems[|before|..] + [item];
        assert stored[..i + 1] == stored[..i] + [row];
        collectedItems := collectedItems + [item];
        i := i + 1;
      }
      assert stored[..i] == stored;
    }

    /** `getWastedItems`: a fresh list with one item per `wasted_items` row; the collector is untouched. */
    method GetWastedItems(wasted: seq<ItemRow>, today: Date) returns (items: seq<FoodItem>)
      ensures LoadedFrom(items, wasted, today)
    {
      items := [];
      var i := 0;
      while i < |wasted|
        invariant 0 <= i <= |wasted|
        invariant LoadedFrom(items, wasted[..i], today)
      {
        var row := wasted[i];
        var wasteDate := if row.date.Some? then row.date.value else today;
        var item := FoodItem(row.name, row.quantity, row.unit, Some(wasteDate));
        LoadedFromAppend(items, [item], wasted[..i], [row], today);
        assert wasted[..i + 1] == wasted[..i] + [row];
        items := items + [item];
        i := i + 1;
      }
      assert wasted[..i] == wasted;
    }
  }
}
