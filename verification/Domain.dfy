/** The mutable domain objects: inventory items and orders. */
module Domain {
  import opened Values
  import opened Sums

  class InventoryItem {
    const productId: ProductId
    var quantity: int
    var reserved: int
    var version: int

    constructor (productId: ProductId, row: Stock)
      ensures this.productId == productId && Value() == row
    {
      this.productId := productId;
      quantity, reserved, version := row.quantity, row.reserved, row.version;
    }

    function Value(): Stock
      reads this
    {
      Stock(quantity, reserved, version)
    }

    function Available(): int
      reads this
    {
      quantity - reserved
    }

    /** Takes `amount` units, or fails and changes nothing. */
    method Reserve(amount: int) returns (r: Option<Error>)
      modifies this`reserved
      ensures r.None? <==> 0 < amount <= old(quantity - reserved)
      ensures reserved == old(reserved) + if r.None? then amount else 0
      ensures amount <= 0 ==> r == Some(BadAmount)
      ensures 0 < amount && old(quantity - reserved) < amount ==>
                r == Some(Insufficient(productId, amount, old(quantity - reserved)))
      ensures TryMove(Move.Reserve, productId, old(Value()), amount)
           == if r.None? then Ok(Value()) else Err(r.value)
    {
      if amount <= 0 {
        return Some(BadAmount);
      }
      if amount > Available() {
        return Some(Insufficient(productId, amount, Available()));
      }
      reserved := reserved + amount;
      r := None;
    }

    /** Gives `amount` units back, or fails and changes nothing. */
    method Release(amount: int) returns (r: Option<Error>)
      modifies this`reserved
      ensures r.None? <==> 0 < amount <= old(reserved)
      ensures reserved == old(reserved) - if r.None? then amount else 0
      ensures amount <= 0 ==> r == Some(BadAmount)
      ensures 0 < amount && old(reserved) < amount ==> r == Some(OverRelease)
      ensures TryMove(Move.Release, productId, old(Value()), amount)
           == if r.None? then Ok(Value()) else Err(r.value)
    {
      if amount <= 0 {
        return Some(BadAmount);
      }
      if amount > reserved {
        return Some(OverRelease);
      }
      reserved := reserved - amount;
      r := None;
    }
  }

  /** A successful move keeps the stock invariant, touches only `reserved`, and is undone by its opposite. */
  lemma MoveThenBack(m: Move, p: ProductId, row: Stock, n: int)
    requires Sound(row)
    ensures TryMove(m, p, row, n).Ok? <==> 0 < n <= Room(m, row)
    ensures TryMove(m, p, row, n).Ok? ==>
              var moved := TryMove(m, p, row, n).value;
              var back := if m.Reserve? then Move.Release else Move.Reserve;
              && Sound(moved)
              && moved.quantity == row.quantity && moved.version == row.version
              && TryMove(back, p, moved, n) == Ok(row)
  {
  }

  datatype Call = Confirm | Cancel

  /** The status an order has after a call, if the call is legal. */
  function NextStatus(s: Status, c: Call): Result<Status> {
    if s != Pending then Err(InvalidTransition)
    else Ok(if c.Confirm? then Confirmed else Cancelled)
  }

  class Order {
    const id: OrderId
    const customer: CustomerId
    const items: seq<Line>
    var status: Status

    constructor (id: OrderId, customer: CustomerId, items: seq<Line>, status: Status := Pending)
      ensures this.id == id && this.customer == customer && this.items == items && this.status == status
    {
      this.id, this.customer, this.items, this.status := id, customer, items, status;
    }

    /** Sums the subtotals of the frozen lines. */
    method TotalAmount() returns (total: int)
      ensures total == Total(items)
    {
      total := 0;
      for i := 0 to |items|
        invariant total == Total(items[..i])
      {
        assert items[..i + 1][..i] == items[..i];
        total := total + items[i].unitPrice * items[i].quantity;
      }
      assert items[..|items|] == items;
    }

    method Confirm() returns (r: Option<Error>)
      modifies this`status
      ensures r == if old(status) == Pending then None else Some(InvalidTransition)
      ensures status == if old(status) == Pending then Confirmed else old(status)
      ensures NextStatus(old(status), Call.Confirm) == if r.None? then Ok(status) else Err(r.value)
    {
      if status != Pending {
        return Some(InvalidTransition);
      }
      status := Confirmed;
      r := None;
    }

    method Cancel() returns (r: Option<Error>)
      modifies this`status
      ensures r == if old(status) == Pending then None else Some(InvalidTransition)
      ensures status == if old(status) == Pending then Cancelled else old(status)
      ensures NextStatus(old(status), Call.Cancel) == if r.None? then Ok(status) else Err(r.value)
    {
      if status == Confirmed {
        return Some(InvalidTransition);
      }
      if status == Cancelled {
        return Some(InvalidTransition);
      }
      status := Cancelled;
      r := None;
    }
  }

  /** The status after a sequence of calls, failed ones changing nothing. */
  function StatusAfter(s: Status, calls: seq<Call>): Status {
    if calls == [] then s
    else
      var before := StatusAfter(s, calls[..|calls| - 1]);
      match NextStatus(before, calls[|calls| - 1])
      case Ok(next) => next
      case Err(_) => before
  }

  /** Only the first call on an order ever has an effect: it decides the final status. */
  lemma {:induction false} FirstCallDecides(s: Status, calls: seq<Call>)
    ensures StatusAfter(s, calls) ==
              if s != Pending || calls == [] then s
              else if calls[0].Confirm? then Confirmed else Cancelled
  {
    if calls != [] {
      FirstCallDecides(s, calls[..|calls| - 1]);
    }
  }
}
