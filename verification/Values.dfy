/** The values the order platform computes with: stock rows, order lines, errors. */
module Values {

  datatype Option<+T> = None | Some(value: T)

  datatype Result<+T> = Ok(value: T) | Err(error: Error)

  // UUIDs are only compared for equality; money is an integer number of cents.
  type ProductId = nat
  type OrderId = nat
  type CustomerId = nat
  type Key = string

  datatype Status = Pending | Confirmed | Cancelled

  function StatusText(s: Status): string {
    match s
    case Pending => "PENDING"
    case Confirmed => "CONFIRMED"
    case Cancelled => "CANCELLED"
  }

  /** Every exception the modelled code raises. */
  datatype Error =
    | EmptyOrder
    | ProductNotFound(product: ProductId)
    | UnknownProduct(product: ProductId)      // KeyError of the inventory dictionary
    | BadAmount                               // ValueError: amount must be positive
    | Insufficient(product: ProductId, requested: int, available: int)
    | OverRelease                             // ValueError: more than reserved
    | InvalidTransition
    | OrderNotFound
    | VersionConflict                         // OptimisticLockError
    | DuplicateKey                            // IntegrityError on a primary key
    | BadStoredTotal                          // a stored total that does not parse

  /** One row of inventory_items, and equally the state of one InventoryItem. */
  datatype Stock = Stock(quantity: int, reserved: int, version: int)

  datatype Line = Line(product: ProductId, quantity: int, unitPrice: int)

  /** The two ways the domain changes `reserved`. */
  datatype Move = Reserve | Release

  predicate Sound(row: Stock) {
    0 <= row.reserved <= row.quantity
  }

  /** How far a move can go: what is available, or what is reserved. */
  function Room(m: Move, row: Stock): int {
    if m.Reserve? then row.quantity - row.reserved else row.reserved
  }

  function Shifted(m: Move, row: Stock, n: int): Stock {
    row.(reserved := if m.Reserve? then row.reserved + n else row.reserved - n)
  }

  /** The effect of one InventoryItem.reserve or InventoryItem.release call. */
  function TryMove(m: Move, p: ProductId, row: Stock, n: int): Result<Stock> {
    if n <= 0 then Err(BadAmount)
    else if n > Room(m, row) then
      Err(if m.Reserve? then Insufficient(p, n, Room(m, row)) else OverRelease)
    else Ok(Shifted(m, row, n))
  }

  function Bumped(row: Stock): Stock {
    row.(version := row.version + 1)
  }

  /** The texts that orders are stored and returned with. */
  lemma StatusTexts()
    ensures [StatusText(Pending), StatusText(Confirmed), StatusText(Cancelled)] == ["PENDING", "CONFIRMED", "CANCELLED"]
  {
  }
}
