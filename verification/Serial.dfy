/** The committed database and the atomic, one-at-a-time meaning of every kind of transaction. */
module Serial {
  import opened Values
  import opened Sums
  import opened Moves
  import opened Money

  datatype Product = Product(price: int, active: bool)
  type Catalog = map<ProductId, Product>

  datatype Want = Want(product: ProductId, quantity: int)
  datatype Request = Request(customer: CustomerId, items: seq<Want>, key: Option<Key>)

  datatype OrderRecord = OrderRecord(customer: CustomerId, status: Status, lines: seq<Line>)

  /** The JSON body kept with an idempotency key. */
  datatype Body = Body(orderId: OrderId, status: string, total: string)
  datatype KeyRow = KeyRow(orderId: OrderId, body: Body, code: int)

  type Orders = map<OrderId, OrderRecord>

  datatype Db = Db(stock: StockMap, orders: Orders, keys: map<Key, KeyRow>)

  /** Saving an order: an existing row keeps its customer. */
  function WithOrder(orders: Orders, oid: OrderId, order: OrderRecord): Orders {
    orders[oid := if oid in orders then order.(customer := orders[oid].customer) else order]
  }

  datatype OrderResult = OrderResult(orderId: OrderId, total: int, status: string, fromCache: bool)

  datatype Outcome =
    | Created(db: Db, result: OrderResult)
    | Replayed(result: OrderResult)
    | Failed(error: Error)

  /** An absent key and an empty key both mean no idempotency. */
  predicate HasKey(req: Request) {
    req.key.Some? && req.key.value != ""
  }

  predicate Hit(req: Request, keys: map<Key, KeyRow>) {
    HasKey(req) && req.key.value in keys
  }

  predicate Sellable(catalog: Catalog, p: ProductId) {
    p in catalog && catalog[p].active
  }

  /** The first requested product, in request order, that is missing or inactive. */
  function FirstUnsellable(catalog: Catalog, items: seq<Want>): (r: Option<ProductId>)
    ensures r.None? <==> forall i | 0 <= i < |items| :: Sellable(catalog, items[i].product)
  {
    if items == [] then None
    else if !Sellable(catalog, items[0].product) then Some(items[0].product)
    else FirstUnsellable(catalog, items[1..])
  }

  /** The order lines with the prices of the moment. */
  function Priced(catalog: Catalog, items: seq<Want>): seq<Line>
    requires FirstUnsellable(catalog, items).None?
  {
    seq(|items|, i requires 0 <= i < |items| =>
      Line(items[i].product, items[i].quantity, catalog[items[i].product].price))
  }

  function KeyRowFor(oid: OrderId, order: OrderRecord): KeyRow {
    KeyRow(oid, Body(oid, StatusText(order.status), Printed(Total(order.lines))), 201)
  }

  /** What a stored record is replayed as. */
  function FromCache(row: KeyRow): Result<OrderResult> {
    match Parsed(row.body.total)
    case None => Err(BadStoredTotal)
    case Some(total) => Ok(OrderResult(row.orderId, total, row.body.status, true))
  }

  function FreshResult(oid: OrderId, order: OrderRecord): OrderResult {
    OrderResult(oid, Total(order.lines), StatusText(order.status), false)
  }

  /** Creating an order, all at once, on one state of the database. */
  function CreateOrder(catalog: Catalog, db: Db, req: Request, oid: OrderId): Outcome {
    if req.items == [] then Failed(EmptyOrder)
    else if Hit(req, db.keys) then
      match FromCache(db.keys[req.key.value])
      case Ok(result) => Replayed(result)
      case Err(e) => Failed(e)
    else if FirstUnsellable(catalog, req.items).Some? then
      Failed(ProductNotFound(FirstUnsellable(catalog, req.items).value))
    else
      var lines := Priced(catalog, req.items);
      match Verdict(Reserve, db.stock, lines)
      case Some(e) => Failed(e)
      case None =>
        var order := OrderRecord(req.customer, Confirmed, lines);
        Created(
          Db(Settled(Reserve, db.stock, lines),
             db.orders[oid := order],
             if HasKey(req) then db.keys[req.key.value := KeyRowFor(oid, order)] else db.keys),
          FreshResult(oid, order))
  }

  /** Cancelling an order, all at once. */
  function CancelOrder(db: Db, oid: OrderId): Result<Db> {
    if oid !in db.orders then Err(OrderNotFound)
    else
      var order := db.orders[oid];
      if order.status != Pending then Err(InvalidTransition)
      else
        match Verdict(Release, db.stock, order.lines)
        case Some(e) => Err(e)
        case None => Ok(db.(stock := Settled(Release, db.stock, order.lines),
                            orders := db.orders[oid := order.(status := Cancelled)]))
  }

  /** One domain call on an item: a reserve or a release of some amount. */
  datatype Change = Change(move: Move, amount: int)

  /** A sequence of successful domain calls on one row. */
  function Applied(p: ProductId, row: Stock, changes: seq<Change>): Option<Stock> {
    if changes == [] then Some(row)
    else
      match Applied(p, row, changes[..|changes| - 1])
      case None => None
      case Some(before) =>
        match TryMove(changes[|changes| - 1].move, p, before, changes[|changes| - 1].amount)
        case Err(_) => None
        case Ok(after) => Some(after)
  }

  /** Successive saves of one row: each applies its calls to what the previous one left, as the next version. */
  function Folded(p: ProductId, row: Stock, saves: seq<seq<Change>>): Option<Stock> {
    if saves == [] then Some(row)
    else
      match Folded(p, row, saves[..|saves| - 1])
      case None => None
      case Some(before) =>
        match Applied(p, before, saves[|saves| - 1])
        case None => None
        case Some(after) => Some(Bumped(after))
  }

  /** The saves a transaction made of each item, in order, with the calls before each save. */
  type SaveMap = map<ProductId, seq<seq<Change>>>

  predicate Applicable(stock: StockMap, saves: SaveMap) {
    forall p | p in saves :: p in stock && Folded(p, stock[p], saves[p]).Some?
  }

  /** Saving some items, each perhaps several times, all at once. */
  function AdjustStock(db: Db, saves: SaveMap): Option<Db> {
    if !Applicable(db.stock, saves) then None
    else Some(db.(stock := map p | p in db.stock ::
                             if p in saves then Folded(p, db.stock[p], saves[p]).value else db.stock[p]))
  }

  /** A transaction, as far as the committed database is concerned. */
  datatype Work =
    | Create(req: Request, oid: OrderId)
    | Cancel(oid: OrderId)
    | Adjust(saves: SaveMap)

  /** The atomic effect of one transaction, if it commits on this state. */
  function Atomic(catalog: Catalog, db: Db, w: Work): Option<Db> {
    match w
    case Create(req, oid) =>
      if oid in db.orders then None
      else (match CreateOrder(catalog, db, req, oid)
            case Created(after, _) => Some(after)
            case Replayed(_) => None
            case Failed(_) => None)
    case Cancel(oid) =>
      (match CancelOrder(db, oid)
       case Ok(after) => Some(after)
       case Err(_) => None)
    case Adjust(saves) => AdjustStock(db, saves)
  }

  /** Running transactions atomically, one after the other; none may fail. */
  function Replay(catalog: Catalog, base: Db, log: seq<Work>): Option<Db> {
    if log == [] then Some(base)
    else
      match Replay(catalog, base, log[..|log| - 1])
      case None => None
      case Some(db) => Atomic(catalog, db, log[|log| - 1])
  }

  // ---- Histories in which an order may be cancelled more than once ----

  /** The last entry of a log cancels an order that the log has cancelled before. */
  predicate Repeats(log: seq<Work>)
    requires log != []
  {
    log[|log| - 1].Cancel? && log[|log| - 1] in log[..|log| - 1]
  }

  /** No order is cancelled by two entries. */
  predicate NoCancelTwice(log: seq<Work>) {
    forall i, j | 0 <= i < j < |log| && log[i].Cancel? && log[j].Cancel? :: log[i].oid != log[j].oid
  }

  /** The database with one order set back to PENDING. */
  function Reopened(db: Db, oid: OrderId): Db {
    if oid in db.orders then db.(orders := db.orders[oid := db.orders[oid].(status := Pending)]) else db
  }

  /** What the last entry of a log acts on: a repeated cancellation still sees the order as PENDING. */
  function SeenByLast(db: Db, log: seq<Work>): Db
    requires log != []
  {
    if Repeats(log) then Reopened(db, log[|log| - 1].oid) else db
  }

  function LastEffect(catalog: Catalog, db: Db, log: seq<Work>): Option<Db>
    requires log != []
  {
    Atomic(catalog, SeenByLast(db, log), log[|log| - 1])
  }

  /** The database a log leaves when its transactions run one after the other; none may fail. */
  function LeftBy(catalog: Catalog, base: Db, log: seq<Work>): Option<Db> {
    if log == [] then Some(base)
    else
      match LeftBy(catalog, base, log[..|log| - 1])
      case None => None
      case Some(db) => LastEffect(catalog, db, log)
  }

  // ---- The database invariant ----

  predicate StockOk(stock: StockMap) {
    forall p | p in stock :: Sound(stock[p])
  }

  /** A stored key names a confirmed order and repeats its status and total. */
  predicate KeyOk(orders: Orders, row: KeyRow) {
    && row.orderId in orders
    && orders[row.orderId].status == Confirmed
    && row == KeyRowFor(row.orderId, orders[row.orderId])
  }

  predicate KeysOk(orders: Orders, keys: map<Key, KeyRow>) {
    forall k | k in keys :: KeyOk(orders, keys[k])
  }

  predicate DbOk(db: Db) {
    StockOk(db.stock) && KeysOk(db.orders, db.keys)
  }

  /** Rows stay, quantities are frozen, and a row whose version did not rise did not change. */
  predicate StockGrows(a: StockMap, b: StockMap) {
    && b.Keys == a.Keys
    && (forall p | p in a :: b[p].quantity == a[p].quantity)
    && (forall p | p in a :: a[p].version <= b[p].version)
    && (forall p | p in a && b[p].version == a[p].version :: b[p] == a[p])
  }

  /** Orders stay with their lines, and only a PENDING one may change its status. */
  predicate OrdersGrow(a: Orders, b: Orders) {
    forall o | o in a :: o in b
      && b[o].customer == a[o].customer
      && b[o].lines == a[o].lines
      && (a[o].status != Pending ==> b[o].status == a[o].status)
  }

  predicate KeysGrow(a: map<Key, KeyRow>, b: map<Key, KeyRow>) {
    forall k | k in a :: k in b && b[k] == a[k]
  }

  /** How one committed state may follow another. */
  predicate Extends(a: Db, b: Db) {
    StockGrows(a.stock, b.stock) && OrdersGrow(a.orders, b.orders) && KeysGrow(a.keys, b.keys)
  }

  lemma ExtendsTransitive(a: Db, b: Db, c: Db)
    requires Extends(a, b) && Extends(b, c)
    ensures Extends(a, c)
  {
    forall p | p in a.stock && c.stock[p].version == a.stock[p].version ensures c.stock[p] == a.stock[p] {
      assert a.stock[p].version <= b.stock[p].version <= c.stock[p].version;
    }
  }

  lemma {:induction false} AppliedFacts(p: ProductId, row: Stock, changes: seq<Change>)
    requires Sound(row) && Applied(p, row, changes).Some?
    ensures Sound(Applied(p, row, changes).value)
    ensures Applied(p, row, changes).value.quantity == row.quantity
    ensures Applied(p, row, changes).value.version == row.version
  {
    if changes != [] {
      AppliedFacts(p, row, changes[..|changes| - 1]);
    }
  }

  lemma {:induction false} FoldedFacts(p: ProductId, row: Stock, saves: seq<seq<Change>>)
    requires Sound(row) && Folded(p, row, saves).Some?
    ensures Sound(Folded(p, row, saves).value)
    ensures Folded(p, row, saves).value.quantity == row.quantity
    ensures Folded(p, row, saves).value.version == row.version + |saves|
  {
    if saves != [] {
      var before := Folded(p, row, saves[..|saves| - 1]).value;
      FoldedFacts(p, row, saves[..|saves| - 1]);
      AppliedFacts(p, before, saves[|saves| - 1]);
    }
  }

  lemma SettledFacts(m: Move, stock: StockMap, lines: seq<Line>)
    requires StockOk(stock) && Clear(m, stock, lines)
    ensures StockOk(Settled(m, stock, lines)) && StockGrows(stock, Settled(m, stock, lines))
  {
    forall p | p in stock ensures Sound(Settled(m, stock, lines)[p]) {
      AfterIsSound(m, stock, lines, p);
    }
  }

  /** Orders may be added and changed as long as no confirmed order is disturbed. */
  lemma KeysStayOk(orders: Orders, after: Orders, keys: map<Key, KeyRow>)
    requires KeysOk(orders, keys)
    requires forall o | o in orders && orders[o].status == Confirmed :: o in after && after[o] == orders[o]
    ensures KeysOk(after, keys)
  {
    forall k | k in keys ensures KeyOk(after, keys[k]) {
      assert KeyOk(orders, keys[k]);
    }
  }

  /** A new confirmed order, and with a key its row, disturb nothing. */
  lemma AddedOrder(db: Db, oid: OrderId, order: OrderRecord, key: Option<Key>)
    requires KeysOk(db.orders, db.keys) && oid !in db.orders && order.status == Confirmed
    requires key.Some? ==> key.value !in db.keys
    ensures var keys := if key.Some? then db.keys[key.value := KeyRowFor(oid, order)] else db.keys;
            && OrdersGrow(db.orders, db.orders[oid := order]) && KeysGrow(db.keys, keys)
            && KeysOk(db.orders[oid := order], keys)
  {
    KeysStayOk(db.orders, db.orders[oid := order], db.keys);
  }

  lemma CreateKeeps(catalog: Catalog, db: Db, req: Request, oid: OrderId)
    requires DbOk(db) && Atomic(catalog, db, Create(req, oid)).Some?
    ensures DbOk(Atomic(catalog, db, Create(req, oid)).value)
    ensures Extends(db, Atomic(catalog, db, Create(req, oid)).value)
  {
    var lines := Priced(catalog, req.items);
    SettledFacts(Reserve, db.stock, lines);
    AddedOrder(db, oid, OrderRecord(req.customer, Confirmed, lines), if HasKey(req) then req.key else None);
  }

  lemma CancelKeeps(catalog: Catalog, db: Db, oid: OrderId)
    requires DbOk(db) && Atomic(catalog, db, Cancel(oid)).Some?
    ensures DbOk(Atomic(catalog, db, Cancel(oid)).value)
    ensures Extends(db, Atomic(catalog, db, Cancel(oid)).value)
  {
    SettledFacts(Release, db.stock, db.orders[oid].lines);
    KeysStayOk(db.orders, Atomic(catalog, db, Cancel(oid)).value.orders, db.keys);
  }

  lemma AdjustKeeps(catalog: Catalog, db: Db, saves: SaveMap)
    requires DbOk(db) && Atomic(catalog, db, Adjust(saves)).Some?
    ensures DbOk(Atomic(catalog, db, Adjust(saves)).value)
    ensures Extends(db, Atomic(catalog, db, Adjust(saves)).value)
  {
    var after := Atomic(catalog, db, Adjust(saves)).value;
    forall p | p in db.stock
      ensures Sound(after.stock[p]) && after.stock[p].quantity == db.stock[p].quantity
      ensures after.stock[p].version > db.stock[p].version || after.stock[p] == db.stock[p]
    {
      if p in saves {
        FoldedFacts(p, db.stock[p], saves[p]);
      }
    }
  }

  /** Every atomic transaction keeps the database invariant and only extends what was there. */
  lemma {:induction false} AtomicKeeps(catalog: Catalog, db: Db, w: Work)
    requires DbOk(db) && Atomic(catalog, db, w).Some?
    ensures DbOk(Atomic(catalog, db, w).value)
    ensures Extends(db, Atomic(catalog, db, w).value)
  {
    match w
    case Create(req, oid) => CreateKeeps(catalog, db, req, oid);
    case Cancel(oid) => CancelKeeps(catalog, db, oid);
    case Adjust(saves) => AdjustKeeps(catalog, db, saves);
  }

  /** Whatever a log has cancelled is cancelled. */
  predicate CancelsShow(orders: Orders, log: seq<Work>) {
    forall w | w in log && w.Cancel? :: w.oid in orders && orders[w.oid].status == Cancelled
  }

  /** Cancelling a cancelled order once more releases its lines again and changes nothing else. */
  lemma CancelAgain(catalog: Catalog, db: Db, oid: OrderId)
    requires DbOk(db) && oid in db.orders && db.orders[oid].status == Cancelled
    requires Atomic(catalog, Reopened(db, oid), Cancel(oid)).Some?
    ensures var after := Atomic(catalog, Reopened(db, oid), Cancel(oid)).value;
            && DbOk(after) && Extends(db, after)
            && after == db.(stock := Settled(Release, db.stock, db.orders[oid].lines))
  {
    var after := Atomic(catalog, Reopened(db, oid), Cancel(oid)).value;
    assert after.orders == db.orders;
    SettledFacts(Release, db.stock, db.orders[oid].lines);
  }

  lemma CancelsShowStep(before: Orders, after: Orders, log: seq<Work>)
    requires log != [] && CancelsShow(before, log[..|log| - 1]) && OrdersGrow(before, after)
    requires var w := log[|log| - 1]; w.Cancel? ==> w.oid in after && after[w.oid].status == Cancelled
    ensures CancelsShow(after, log)
  {
    assert log == log[..|log| - 1] + [log[|log| - 1]];
  }

  /** So does every entry of a log, repeated cancellations included. */
  lemma LastKeeps(catalog: Catalog, db: Db, log: seq<Work>)
    requires log != [] && DbOk(db) && CancelsShow(db.orders, log[..|log| - 1]) && LastEffect(catalog, db, log).Some?
    ensures DbOk(LastEffect(catalog, db, log).value)
    ensures Extends(db, LastEffect(catalog, db, log).value)
    ensures CancelsShow(LastEffect(catalog, db, log).value.orders, log)
  {
    var w := log[|log| - 1];
    if Repeats(log) {
      CancelAgain(catalog, db, w.oid);
    } else {
      AtomicKeeps(catalog, db, w);
    }
    CancelsShowStep(db.orders, LastEffect(catalog, db, log).value.orders, log);
  }

  /** Every history keeps the database invariant and only extends its base. */
  lemma {:induction false} HistoryKeeps(catalog: Catalog, base: Db, log: seq<Work>)
    requires DbOk(base) && LeftBy(catalog, base, log).Some?
    ensures DbOk(LeftBy(catalog, base, log).value)
    ensures Extends(base, LeftBy(catalog, base, log).value)
    ensures CancelsShow(LeftBy(catalog, base, log).value.orders, log)
  {
    if log != [] {
      var before := LeftBy(catalog, base, log[..|log| - 1]).value;
      HistoryKeeps(catalog, base, log[..|log| - 1]);
      LastKeeps(catalog, before, log);
      ExtendsTransitive(base, before, LeftBy(catalog, base, log).value);
    }
  }
}
