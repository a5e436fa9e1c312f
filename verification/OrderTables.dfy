/** Orders stored in two tables, and what loading a saved order gives back. */
module OrderTables {
  import opened Values
  import opened Sums
  import opened Serial

  type ItemId = nat

  datatype OrderRow = OrderRow(customer: CustomerId, status: Status)
  datatype ItemRow = ItemRow(orderId: OrderId, line: Line)

  type ItemTable = map<ItemId, ItemRow>

  /** The ids of the rows that hold this line of this order. */
  function RowsWith(items: ItemTable, oid: OrderId, l: Line): set<ItemId> {
    set i | i in items && items[i] == ItemRow(oid, l)
  }

  /** A list holds each line as often as the table does for the order. */
  ghost predicate Holds(items: ItemTable, oid: OrderId, lines: seq<Line>) {
    forall l :: multiset(lines)[l] == |RowsWith(items, oid, l)|
  }

  function OthersOf(items: ItemTable, oid: OrderId): ItemTable {
    map i | i in items && items[i].orderId != oid :: items[i]
  }

  /** The two tables store exactly these orders, item order aside. */
  ghost predicate Stores(rows: map<OrderId, OrderRow>, items: ItemTable, orders: Orders) {
    && rows.Keys == orders.Keys
    && (forall o | o in orders :: rows[o] == OrderRow(orders[o].customer, orders[o].status)
          && Holds(items, o, orders[o].lines))
    && (forall i | i in items :: items[i].orderId in rows)
  }

  lemma InsertCount(items: ItemTable, i: ItemId, oid: OrderId, l: Line, k: Line)
    requires i !in items
    ensures |RowsWith(items[i := ItemRow(oid, l)], oid, k)| == |RowsWith(items, oid, k)| + if k == l then 1 else 0
  {
    var after := items[i := ItemRow(oid, l)];
    if k == l {
      assert RowsWith(after, oid, k) == RowsWith(items, oid, k) + {i};
    } else {
      assert RowsWith(after, oid, k) == RowsWith(items, oid, k);
    }
  }

  /** Adding one row adds one occurrence of its line to its order. */
  lemma InsertRow(items: ItemTable, i: ItemId, oid: OrderId, lines: seq<Line>, l: Line)
    requires i !in items && Holds(items, oid, lines)
    ensures Holds(items[i := ItemRow(oid, l)], oid, lines + [l])
  {
    forall k ensures multiset(lines + [l])[k] == |RowsWith(items[i := ItemRow(oid, l)], oid, k)| {
      InsertCount(items, i, oid, l, k);
      assert multiset(lines + [l]) == multiset(lines) + multiset{l};
    }
  }

  /** What a table holds for an order depends only on that order's rows. */
  lemma OtherRowsDoNotMatter(a: ItemTable, b: ItemTable, oid: OrderId, lines: seq<Line>)
    requires Holds(a, oid, lines)
    requires forall i | i in a && a[i].orderId == oid :: i in b && b[i] == a[i]
    requires forall i | i in b && b[i].orderId == oid :: i in a && a[i] == b[i]
    ensures Holds(b, oid, lines)
  {
    forall l ensures RowsWith(a, oid, l) == RowsWith(b, oid, l) {
    }
  }

  lemma TwoReadings(items: ItemTable, oid: OrderId, a: seq<Line>, b: seq<Line>)
    requires Holds(items, oid, a) && Holds(items, oid, b)
    ensures multiset(a) == multiset(b)
  {
    assert forall l :: multiset(a)[l] == multiset(b)[l];
  }

  /** Replacing one order's rows in both tables is saving that order in the map of orders. */
  lemma SaveRefines(rows: map<OrderId, OrderRow>, items: ItemTable, orders: Orders,
                    rows': map<OrderId, OrderRow>, items': ItemTable, oid: OrderId, order: OrderRecord)
    requires Stores(rows, items, orders)
    requires rows' == rows[oid := OrderRow(if oid in rows then rows[oid].customer else order.customer, order.status)]
    requires Holds(items', oid, order.lines) && OthersOf(items', oid) == OthersOf(items, oid)
    requires forall i | i in items' :: items'[i].orderId in rows'
    ensures Stores(rows', items', WithOrder(orders, oid, order))
  {
    forall o | o in orders && o != oid ensures Holds(items', o, orders[o].lines) {
      assert forall i | i in items && items[i].orderId == o :: i in OthersOf(items, oid);
      assert forall i | i in items' && items'[i].orderId == o :: i in OthersOf(items', oid);
      OtherRowsDoNotMatter(items, items', o, orders[o].lines);
    }
  }

  class OrderRepository {
    var rows: map<OrderId, OrderRow>
    var items: ItemTable
    var nextItem: ItemId

    constructor ()
      ensures Valid() && Stores(rows, items, map[])
    {
      rows, items, nextItem := map[], map[], 0;
    }

    /** Row ids are fresh, and no item row is left without its order. */
    ghost predicate Valid()
      reads this
    {
      && (forall i | i in items :: i < nextItem)
      && (forall i | i in items :: items[i].orderId in rows)
    }

    /**
     * Inserts the order, or updates its status and replaces its items. Tables that stored a map of orders,
     * whichever one, then store the map with this order saved.
     */
    method Save(oid: OrderId, order: OrderRecord, ghost orders: Orders)
      requires Valid()
      modifies this
      ensures Valid()
      ensures Stores(old(rows), old(items), orders) ==> Stores(rows, items, WithOrder(orders, oid, order))
      ensures oid in rows && rows == old(rows)[oid := rows[oid]]
      ensures rows[oid].status == order.status
      ensures rows[oid].customer == if oid in old(rows) then old(rows)[oid].customer else order.customer
      ensures Holds(items, oid, order.lines)
      ensures OthersOf(items, oid) == OthersOf(old(items), oid)
    {
      if oid !in rows {
        rows := rows[oid := OrderRow(order.customer, order.status)];
      } else {
        rows := rows[oid := rows[oid].(status := order.status)];
        items := OthersOf(items, oid);
      }
      AddItems(oid, order.lines);
      if Stores(old(rows), old(items), orders) {
        SaveRefines(old(rows), old(items), orders, rows, items, oid, order);
      }
    }

    /** Inserts one item row per line, for an order that has none. */
    method AddItems(oid: OrderId, lines: seq<Line>)
      requires Valid() && oid in rows
      requires forall i | i in items :: items[i].orderId != oid
      modifies this
      ensures Valid() && rows == old(rows)
      ensures Holds(items, oid, lines)
      ensures OthersOf(items, oid) == old(items)
    {
      assert forall l :: RowsWith(items, oid, l) == {};
      assert lines[..0] == [];
      for k := 0 to |lines|
        invariant Valid() && rows == old(rows)
        invariant Holds(items, oid, lines[..k])
        invariant OthersOf(items, oid) == old(items)
      {
        InsertRow(items, nextItem, oid, lines[..k], lines[k]);
        assert lines[..k + 1] == lines[..k] + [lines[k]];
        items := items[nextItem := ItemRow(oid, lines[k])];
        nextItem := nextItem + 1;
      }
      assert lines[..|lines|] == lines;
    }

    /** Loads an order with its items in whatever order the database returns them. */
    method GetById(oid: OrderId) returns (r: Option<OrderRecord>)
      requires Valid()
      ensures r.Some? <==> oid in rows
      ensures r.Some? ==> rows[oid] == OrderRow(r.value.customer, r.value.status)
      ensures r.Some? ==> Holds(items, oid, r.value.lines)
    {
      if oid !in rows {
        return None;
      }
      ghost var seen: ItemTable := map[];
      var left := items.Keys;
      var lines: seq<Line> := [];
      assert forall l :: RowsWith(seen, oid, l) == {};
      while left != {}
        invariant left <= items.Keys
        invariant seen == items - left
        invariant Holds(seen, oid, lines)
        decreases left
      {
        var i :| i in left;
        ghost var next := items - (left - {i});
        assert next == seen[i := items[i]];
        if items[i].orderId == oid {
          InsertRow(seen, i, oid, lines, items[i].line);
          lines := lines + [items[i].line];
        } else {
          OtherRowsDoNotMatter(seen, next, oid, lines);
        }
        seen, left := next, left - {i};
      }
      assert seen == items;
      r := Some(OrderRecord(rows[oid].customer, rows[oid].status, lines));
    }

    /** Saving and loading gives back the status, every item and the total, and the customer the row was created with. */
    method SaveThenGet(oid: OrderId, order: OrderRecord) returns (r: OrderRecord)
      requires Valid()
      modifies this
      ensures Valid() && oid in rows
      ensures r.status == order.status
      ensures multiset(r.lines) == multiset(order.lines)
      ensures Total(r.lines) == Total(order.lines)
      ensures rows == old(rows)[oid := OrderRow(r.customer, r.status)]
      ensures r.customer == order.customer <==> oid !in old(rows) || old(rows)[oid].customer == order.customer
      ensures OthersOf(items, oid) == OthersOf(old(items), oid)
    {
      Save(oid, order, map[]);
      var loaded := GetById(oid);
      r := loaded.value;
      TwoReadings(items, oid, r.lines, order.lines);
      SumsOfPermutation(r.lines, order.lines, 0);
    }
  }
}
