/** Reserving and releasing a whole order against shared, mutable inventory items. */
module Reservation {
  import opened Values
  import opened Sums
  import opened Moves
  import opened Domain

  type Inventory = map<ProductId, InventoryItem>

  predicate KeyedByProduct(inventory: Inventory) {
    forall p | p in inventory :: inventory[p].productId == p
  }

  ghost function RowsOf(inventory: Inventory): StockMap
    reads inventory.Values
  {
    map p | p in inventory :: inventory[p].Value()
  }

  /** Items of different products are different objects. */
  lemma Distinct(inventory: Inventory, p: ProductId)
    requires KeyedByProduct(inventory) && p in inventory
    ensures forall q | q in inventory && q != p :: inventory[q] != inventory[p]
  {
    forall q | q in inventory && q != p ensures inventory[q] != inventory[p] {
      assert inventory[q].productId == q;
    }
  }

  /** One more line moved: the map of all rows after i + 1 lines. */
  lemma AfterStep(m: Move, stock: StockMap, lines: seq<Line>, i: nat)
    requires i < |lines| && lines[i].product in stock
    ensures After(m, stock, lines[..i + 1])
         == After(m, stock, lines[..i])[lines[i].product :=
              Shifted(m, After(m, stock, lines[..i])[lines[i].product], lines[i].quantity)]
  {
    forall p | p in stock {
      DemandStep(lines, i, p);
    }
  }

  /** Moving line i alone succeeds exactly when line i is not faulty. */
  lemma StepAgrees(m: Move, stock: StockMap, lines: seq<Line>, i: nat)
    requires i < |lines| && lines[i].product in stock
    ensures var l := lines[i];
            TryMove(m, l.product, After(m, stock, lines[..i])[l.product], l.quantity) ==
              (match FaultOf(m, stock, lines, i)
               case None => Ok(After(m, stock, lines[..i + 1])[l.product])
               case Some(e) => Err(e))
  {
    DemandStep(lines, i, lines[i].product);
  }

  lemma ClearPrefix(m: Move, stock: StockMap, lines: seq<Line>, n: nat)
    requires n <= |lines| && forall j | 0 <= j < n :: FaultOf(m, stock, lines, j).None?
    ensures Clear(m, stock, lines[..n])
  {
    forall j | 0 <= j < n ensures FaultOf(m, stock, lines[..n], j) == FaultOf(m, stock, lines, j) {
      assert lines[..n][..j] == lines[..j] && lines[..n][..j + 1] == lines[..j + 1];
    }
  }

  /**
   * What the rollback leaves of rows in which the lines of `done` have just been reserved: the original
   * rows, unless a release is refused; then the lines before it are released and the rest stay reserved.
   */
  predicate UndoOk(before: StockMap, done: seq<Line>, r: Option<Error>, after: StockMap) {
    if NonNegative(before, ProductsOf(done)) then r == None && after == before
    else
      var full := After(Move.Reserve, before, done);
      r == Some(OverRelease) && after == After(Move.Release, full, done[..FirstFault(Move.Release, full, done)])
  }

  /** What reserving an order does: to the lines before the first fault, and then because of that fault. */
  predicate ReserveOk(before: StockMap, lines: seq<Line>, r: Option<Error>, after: StockMap) {
    var done := lines[..FirstFault(Move.Reserve, before, lines)];
    match Verdict(Move.Reserve, before, lines)
    case None => r == None && after == After(Move.Reserve, before, lines)
    case Some(e) => RefuseOk(before, done, e, r, after)
  }

  /** A shortage undoes the lines done so far; any other error leaves them reserved. */
  predicate RefuseOk(before: StockMap, done: seq<Line>, failed: Error, r: Option<Error>, after: StockMap) {
    if !failed.Insufficient? then r == Some(failed) && after == After(Move.Reserve, before, done)
    else if NonNegative(before, ProductsOf(done)) then r == Some(failed) && after == before
    else UndoOk(before, done, r, after)
  }

  /** With rows that start at zero or more, what is raised is the first fault, and a shortage changes nothing. */
  lemma ShortageChangesNothing(before: StockMap, lines: seq<Line>, r: Option<Error>, after: StockMap)
    requires ReserveOk(before, lines, r, after) && NonNegative(before, ProductsOf(lines))
    ensures r == Verdict(Move.Reserve, before, lines)
    ensures r.Some? && r.value.Insufficient? ==> after == before
  {
    ProductsOfPrefix(lines, FirstFault(Move.Reserve, before, lines));
  }

  /**
   * The condition is needed: product 0 starts at -5, so after three units have been reserved of it its
   * counter is -2. When product 1 then falls short, giving the three units back is refused; the caller
   * sees that error instead of the shortage, and the three units stay reserved.
   */
  lemma RollbackCanFail()
    ensures var before := map[0 := Stock(10, -5, 0), 1 := Stock(0, 0, 0)];
            var lines := [Line(0, 3, 100), Line(1, 1, 100)];
            && Verdict(Move.Reserve, before, lines) == Some(Insufficient(1, 1, 0))
            && forall r, after | ReserveOk(before, lines, r, after) ::
                 r == Some(OverRelease) && after == before[0 := Stock(10, -2, 0)]
  {
    var before := map[0 := Stock(10, -5, 0), 1 := Stock(0, 0, 0)];
    var lines := [Line(0, 3, 100), Line(1, 1, 100)];
    var done := [lines[0]];
    assert lines[..0] == [] && lines[..1] == done && lines[..2] == lines && done[..1] == done && done[..0] == [];
    assert Demand(done, 0) == 3 && Demand(done, 1) == 0 && Demand(lines, 1) == 1;
    assert FirstFault(Move.Reserve, before, lines) == 1 by {
      assert FaultOf(Move.Reserve, before, lines, 0) == None;
      assert FaultOf(Move.Reserve, before, lines, 1) == Some(Insufficient(1, 1, 0));
    }
    assert done[0].product in ProductsOf(done);
    var full := After(Move.Reserve, before, done);
    assert full == before[0 := Stock(10, -2, 0)];
    assert FaultOf(Move.Release, full, done, 0) == Some(OverRelease);
    assert After(Move.Release, full, []) == full;
  }

  /** One domain call on a shared item, seen as a change of the map of all rows. */
  method MoveItem(m: Move, inv: InventoryItem, n: int, ghost inventory: Inventory) returns (r: Option<Error>)
    requires KeyedByProduct(inventory)
    requires inv.productId in inventory && inventory[inv.productId] == inv
    modifies inventory.Values
    ensures match TryMove(m, inv.productId, old(RowsOf(inventory))[inv.productId], n)
            case Ok(row) => r.None? && RowsOf(inventory) == old(RowsOf(inventory))[inv.productId := row]
            case Err(e) => r == Some(e) && RowsOf(inventory) == old(RowsOf(inventory))
  {
    Distinct(inventory, inv.productId);
    if m.Reserve? {
      r := inv.Reserve(n);
    } else {
      r := inv.Release(n);
    }
  }

  /** One line of an order, after the lines before it: it moves unless it is faulty. */
  method MoveLine(m: Move, lines: seq<Line>, i: nat, inventory: Inventory, ghost before: StockMap)
    returns (r: Option<Error>)
    requires KeyedByProduct(inventory) && i < |lines|
    requires RowsOf(inventory) == After(m, before, lines[..i])
    modifies inventory.Values
    ensures r == FaultOf(m, before, lines, i)
    ensures RowsOf(inventory) == After(m, before, lines[..if r.None? then i + 1 else i])
    ensures r.None? ==> lines[i].product in inventory
  {
    assert inventory.Keys == RowsOf(inventory).Keys == before.Keys;
    if lines[i].product !in inventory {
      return Some(UnknownProduct(lines[i].product));
    }
    StepAgrees(m, before, lines, i);
    AfterStep(m, before, lines, i);
    r := MoveItem(m, inventory[lines[i].product], lines[i].quantity, inventory);
  }

  /** The first faulty line is where the lines stop moving. */
  lemma StopsAt(m: Move, stock: StockMap, lines: seq<Line>, i: nat)
    requires i < |lines| && FaultOf(m, stock, lines, i).Some?
    requires forall j | 0 <= j < i :: FaultOf(m, stock, lines, j).None?
    ensures FirstFault(m, stock, lines) == i && Verdict(m, stock, lines) == FaultOf(m, stock, lines, i)
    ensures Clear(m, stock, lines[..i])
  {
    ClearPrefix(m, stock, lines, i);
  }

  class OrderReservationService {

    constructor () {}

    /**
     * Reserves line by line, in place. An item shared by several lines is reserved several times.
     * A shortage undoes the lines done so far; an unknown product or a bad amount does not.
     */
    method Reserve(order: Order, inventory: Inventory) returns (r: Option<Error>)
      requires KeyedByProduct(inventory)
      modifies inventory.Values
      ensures ReserveOk(old(RowsOf(inventory)), order.items, r, RowsOf(inventory))
      ensures r.None? <==> Clear(Move.Reserve, old(RowsOf(inventory)), order.items)
    {
      ghost var before := RowsOf(inventory);
      var lines := order.items;
      var reservedSoFar: seq<(InventoryItem, int)> := [];
      assert After(Move.Reserve, before, lines[..0]) == before;
      for i := 0 to |lines|
        invariant RowsOf(inventory) == After(Move.Reserve, before, lines[..i])
        invariant forall j | 0 <= j < i :: FaultOf(Move.Reserve, before, lines, j).None?
        invariant |reservedSoFar| == i
        invariant forall j | 0 <= j < i :: lines[j].product in inventory
                    && reservedSoFar[j] == (inventory[lines[j].product], lines[j].quantity)
      {
        var failed := MoveLine(Move.Reserve, lines, i, inventory, before);
        if failed.Some? {
          StopsAt(Move.Reserve, before, lines, i);
          r := Refuse(failed.value, reservedSoFar, inventory, before, lines[..i]);
          return;
        }
        reservedSoFar := reservedSoFar + [(inventory[lines[i].product], lines[i].quantity)];
      }
      assert lines[..|lines|] == lines;
      r := None;
    }

    /** The exception handler: only a shortage is rolled back, and the error is raised again. */
    method Refuse(failed: Error, reservedSoFar: seq<(InventoryItem, int)>, inventory: Inventory,
                  ghost before: StockMap, ghost done: seq<Line>)
      returns (r: Option<Error>)
      requires KeyedByProduct(inventory)
      requires before.Keys == inventory.Keys && Clear(Move.Reserve, before, done)
      requires RowsOf(inventory) == After(Move.Reserve, before, done)
      requires |reservedSoFar| == |done|
      requires forall j | 0 <= j < |done| :: done[j].product in inventory
                 && reservedSoFar[j] == (inventory[done[j].product], done[j].quantity)
      modifies inventory.Values
      ensures r.Some? && RefuseOk(before, done, failed, r, RowsOf(inventory))
    {
      if failed.Insufficient? {
        var undone := Undo(reservedSoFar, inventory, before, done);
        if undone.Some? {
          return undone;
        }
      }
      r := Some(failed);
    }

    /** The rollback loop: none of its releases fails exactly when the items it undoes started at zero or more. */
    method Undo(reservedSoFar: seq<(InventoryItem, int)>, inventory: Inventory,
                ghost before: StockMap, ghost done: seq<Line>)
      returns (r: Option<Error>)
      requires KeyedByProduct(inventory)
      requires before.Keys == inventory.Keys && Clear(Move.Reserve, before, done)
      requires RowsOf(inventory) == After(Move.Reserve, before, done)
      requires |reservedSoFar| == |done|
      requires forall j | 0 <= j < |done| :: done[j].product in inventory
                 && reservedSoFar[j] == (inventory[done[j].product], done[j].quantity)
      modifies inventory.Values
      ensures r.None? <==> NonNegative(before, ProductsOf(done))
      ensures UndoOk(before, done, r, RowsOf(inventory))
    {
      ghost var full := After(Move.Reserve, before, done);
      ghost var fault := FirstFault(Move.Release, full, done);
      ReleaseUndoesReserve(before, done);
      OnlyOverRelease(before, done);
      assert After(Move.Release, full, done[..0]) == full;
      for j := 0 to |reservedSoFar|
        invariant RowsOf(inventory) == After(Move.Release, full, done[..j])
        invariant j <= fault
      {
        var (inv, quantity) := reservedSoFar[j];
        StepAgrees(Move.Release, full, done, j);
        AfterStep(Move.Release, full, done, j);
        var failed := MoveItem(Move.Release, inv, quantity, inventory);
        if failed.Some? {
          assert j == fault;
          return failed;
        }
      }
      assert done[..|done|] == done;
      r := None;
    }

    /** Releases line by line, in place; a failing line stops the loop and undoes nothing. */
    method Release(order: Order, inventory: Inventory) returns (r: Option<Error>)
      requires KeyedByProduct(inventory)
      modifies inventory.Values
      ensures r == Verdict(Move.Release, old(RowsOf(inventory)), order.items)
      ensures RowsOf(inventory) == After(Move.Release, old(RowsOf(inventory)),
                order.items[..FirstFault(Move.Release, old(RowsOf(inventory)), order.items)])
      ensures r.None? ==> RowsOf(inventory) == After(Move.Release, old(RowsOf(inventory)), order.items)
    {
      ghost var before := RowsOf(inventory);
      var lines := order.items;
      assert After(Move.Release, before, lines[..0]) == before;
      for i := 0 to |lines|
        invariant RowsOf(inventory) == After(Move.Release, before, lines[..i])
        invariant forall j | 0 <= j < i :: FaultOf(Move.Release, before, lines, j).None?
      {
        var failed := MoveLine(Move.Release, lines, i, inventory, before);
        if failed.Some? {
          StopsAt(Move.Release, before, lines, i);
          return failed;
        }
      }
      assert lines[..|lines|] == lines;
      r := None;
    }
  }
}
