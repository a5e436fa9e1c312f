/**
 * Interleaved transactions over one committed database, statement by statement.
 *
 * Row locks and private writes last until commit or rollback; a locking read and a versioned update
 * wait for a row another transaction holds, and a versioned update then compares its version with the
 * latest committed one (PostgreSQL's Read Committed level). Any transaction may give up at any point.
 */
module Protocol {
  import opened Values
  import opened Sums
  import opened Moves
  import opened Serial

  type TxId = nat

  /** The catalog is constant during a run, and base is the database the run starts from. */
  datatype Config = Config(catalog: Catalog, base: Db)

  datatype Phase =
    | Begun                       // nothing read yet
    | KeyMissed                   // create: no stored result under the key
    | Ready                       // order object built; reading stock
    | Booked                      // all lines moved in memory
    | OrderWritten                // order row written; saving stock rows
    | KeyWritten                  // create: idempotency row written
    | Conflict                    // a versioned update matched no row
    | Done                        // finished normally
    | Aborted(why: Error)         // rolled back

  datatype Tx = Tx(
    work: Work,
    phase: Phase,
    order: OrderRecord,                       // the Order object
    read: StockMap,                           // rows as last read
    local: StockMap,                          // InventoryItem objects
    changes: map<ProductId, seq<Change>>,     // adjust: calls made on each item since it was read
    saved: SaveMap,                           // adjust: the saves made of each item, with their calls
    held: set<ProductId>,                     // row locks
    writes: StockMap,                         // private, uncommitted rows
    result: Option<OrderResult>)              // what a finished creation returned

  datatype State = State(db: Db, txs: map<TxId, Tx>, log: seq<Work>)

  datatype Act =
    | CheckKey | Price | ReadOrder
    | LockRow(p: ProductId)                   // SELECT ... FOR UPDATE of one row
    | Peek(p: ProductId)                      // adjust: SELECT without a lock
    | Call(p: ProductId, change: Change)      // adjust: a domain call on an item in memory
    | Book                                    // reserve or release all lines in memory
    | WriteOrder
    | SaveRow(p: ProductId)                   // versioned UPDATE of one row
    | WriteKey
    | GiveUp(why: Error)

  datatype Step = Begin(t: TxId, work: Work) | Do(t: TxId, act: Act) | Commit(t: TxId)

  predicate Live(tx: Tx) {
    !tx.phase.Done? && !tx.phase.Aborted?
  }

  function MoveOf(w: Work): Move {
    if w.Cancel? then Release else Reserve
  }

  const NO_ORDER := OrderRecord(0, Pending, [])

  function Fresh(w: Work): Tx {
    if w.Adjust? then Tx(Adjust(map[]), Ready, NO_ORDER, map[], map[], map[], map[], {}, map[], None)
    else Tx(w, Begun, NO_ORDER, map[], map[], map[], map[], {}, map[], None)
  }

  /** A transaction whose session is closed: locks, private writes and objects in memory are gone. */
  function Closed(tx: Tx): Tx {
    tx.(held := {}, writes := map[], read := map[], local := map[], changes := map[], saved := map[])
  }

  function Dropped(tx: Tx, why: Error): Tx {
    Closed(tx).(phase := Aborted(why))
  }

  function KeyOf(w: Work): Option<Key> {
    if w.Create? && HasKey(w.req) then w.req.key else None
  }

  /** The key of an idempotency row written but not yet committed. */
  function PendingKey(tx: Tx): Option<Key> {
    if tx.phase.KeyWritten? then KeyOf(tx.work) else None
  }

  /** The row a statement of this transaction sees: its own write, else the committed row. */
  function Visible(db: Db, tx: Tx, p: ProductId): Stock
    requires p in db.stock
  {
    if p in tx.writes then tx.writes[p] else db.stock[p]
  }

  function SavedBefore(tx: Tx, p: ProductId): seq<seq<Change>> {
    if p in tx.saved then tx.saved[p] else []
  }

  /** May this transaction run this statement now, other transactions aside? */
  predicate Able(db: Db, tx: Tx, a: Act) {
    match a
    case CheckKey => tx.work.Create? && tx.phase.Begun?
    case Price => tx.work.Create? && tx.phase.KeyMissed?
    case ReadOrder => tx.work.Cancel? && tx.phase.Begun?
    case LockRow(p) =>
      && tx.phase.Ready? && p in db.stock
      && (tx.work.Adjust? || (p in ProductsOf(tx.order.lines) && p !in tx.held))
    case Peek(p) => tx.work.Adjust? && tx.phase.Ready? && p in db.stock
    case Call(p, change) =>
      && tx.work.Adjust? && tx.phase.Ready? && p in tx.local && p in tx.changes
      && TryMove(change.move, p, tx.local[p], change.amount).Ok?
    case Book =>
      && !tx.work.Adjust? && tx.phase.Ready?
      && (forall p | p in ProductsOf(tx.order.lines) && p in db.stock :: p in tx.held)
    case WriteOrder => !tx.work.Adjust? && tx.phase.Booked?
    case SaveRow(p) =>
      && p in tx.local && p in db.stock
      && (if tx.work.Adjust? then tx.phase.Ready? else tx.phase.OrderWritten? && p !in tx.writes)
    case WriteKey => KeyOf(tx.work).Some? && tx.phase.OrderWritten? && tx.writes.Keys == tx.local.Keys
    case GiveUp(_) => Live(tx)
  }

  /** The statements that wait for another transaction to finish. */
  predicate MustWait(s: State, t: TxId, a: Act)
    requires t in s.txs
  {
    match a
    case LockRow(p) => exists u :: u in s.txs && u != t && p in s.txs[u].held
    case SaveRow(p) => exists u :: u in s.txs && u != t && p in s.txs[u].held
    case WriteKey => exists u :: u in s.txs && u != t && PendingKey(s.txs[u]) == KeyOf(s.txs[t].work)
    case _ => false
  }

  /** The transaction after one statement. */
  function Effect(c: Config, db: Db, tx: Tx, a: Act): Tx
    requires Able(db, tx, a)
  {
    match a
    case CheckKey =>
      var req := tx.work.req;
      if req.items == [] then Dropped(tx, EmptyOrder)
      else if Hit(req, db.keys) then
        (match FromCache(db.keys[req.key.value])
         case Ok(result) => Closed(tx).(phase := Done, result := Some(result))
         case Err(e) => Dropped(tx, e))
      else tx.(phase := KeyMissed)
    case Price =>
      var req := tx.work.req;
      (match FirstUnsellable(c.catalog, req.items)
       case Some(p) => Dropped(tx, ProductNotFound(p))
       case None => tx.(phase := Ready, order := OrderRecord(req.customer, Pending, Priced(c.catalog, req.items))))
    case ReadOrder =>
      if tx.work.oid !in db.orders then Dropped(tx, OrderNotFound)
      else if db.orders[tx.work.oid].status != Pending then Dropped(tx, InvalidTransition)
      else tx.(phase := Ready, order := db.orders[tx.work.oid].(status := Cancelled))
    case LockRow(p) =>
      var row := Visible(db, tx, p);
      tx.(read := tx.read[p := row], local := tx.local[p := row], changes := tx.changes[p := []], held := tx.held + {p})
    case Peek(p) =>
      var row := Visible(db, tx, p);
      tx.(read := tx.read[p := row], local := tx.local[p := row], changes := tx.changes[p := []])
    case Call(p, change) =>
      tx.(local := tx.local[p := TryMove(change.move, p, tx.local[p], change.amount).value],
          changes := tx.changes[p := tx.changes[p] + [change]])
    case Book =>
      (match Verdict(MoveOf(tx.work), tx.local, tx.order.lines)
       case Some(e) => Dropped(tx, e)
       case None =>
         tx.(phase := Booked,
             local := After(MoveOf(tx.work), tx.local, tx.order.lines),
             order := if tx.work.Create? then tx.order.(status := Confirmed) else tx.order))
    case WriteOrder => tx.(phase := OrderWritten)
    case SaveRow(p) =>
      if Visible(db, tx, p).version == tx.local[p].version then
        tx.(writes := tx.writes[p := Bumped(tx.local[p])], held := tx.held + {p},
            saved := if tx.work.Adjust? && p in tx.changes
                     then tx.saved[p := SavedBefore(tx, p) + [tx.changes[p]]] else tx.saved)
      else tx.(phase := Conflict)
    case WriteKey =>
      if KeyOf(tx.work).value in db.keys then Dropped(tx, DuplicateKey)
      else tx.(phase := KeyWritten)
    case GiveUp(why) => Dropped(tx, why)
  }

  /** Has the transaction run all its statements? */
  predicate CanCommit(tx: Tx) {
    match tx.work
    case Create(req, _) =>
      if HasKey(req) then tx.phase.KeyWritten? else tx.phase.OrderWritten? && tx.writes.Keys == tx.local.Keys
    case Cancel(_) => tx.phase.OrderWritten? && tx.writes.Keys == tx.local.Keys
    case Adjust(_) => tx.phase.Ready?
  }

  /** The database once the private writes of a transaction are published. */
  function Published(db: Db, tx: Tx): Db {
    Db(db.stock + tx.writes,
       if tx.work.Adjust? then db.orders else db.orders[tx.work.oid := tx.order],
       match PendingKey(tx)
       case None => db.keys
       case Some(k) => if tx.work.Create? then db.keys[k := KeyRowFor(tx.work.oid, tx.order)] else db.keys)
  }

  /** What the commit log records. */
  function Logged(tx: Tx): Work {
    if tx.work.Adjust? then Adjust(tx.saved) else tx.work
  }

  function Committed(tx: Tx): Tx {
    Closed(tx).(phase := Done,
        result := if tx.work.Create? then Some(FreshResult(tx.work.oid, tx.order)) else None)
  }

  /** An order id no transaction and no order has used: the id of a new creation. */
  predicate UnusedOid(s: State, oid: OrderId) {
    oid !in s.db.orders && forall u | u in s.txs && s.txs[u].work.Create? :: s.txs[u].work.oid != oid
  }

  predicate Enabled(s: State, e: Step) {
    match e
    case Begin(t, work) => t !in s.txs && (work.Create? ==> UnusedOid(s, work.oid))
    case Do(t, a) => t in s.txs && Able(s.db, s.txs[t], a) && !MustWait(s, t, a)
    case Commit(t) => t in s.txs && CanCommit(s.txs[t])
  }

  function Next(c: Config, s: State, e: Step): State
    requires Enabled(s, e)
  {
    match e
    case Begin(t, work) => s.(txs := s.txs[t := Fresh(work)])
    case Do(t, a) => s.(txs := s.txs[t := Effect(c, s.db, s.txs[t], a)])
    case Commit(t) =>
      State(Published(s.db, s.txs[t]), s.txs[t := Committed(s.txs[t])], s.log + [Logged(s.txs[t])])
  }

  function Start(c: Config): State {
    State(c.base, map[], [])
  }

  /** The steps lead from s to s'. */
  predicate Run(c: Config, s: State, steps: seq<Step>, s': State)
    decreases |steps|
  {
    if steps == [] then s' == s
    else Enabled(s, steps[0]) && Run(c, Next(c, s, steps[0]), steps[1..], s')
  }

  /** One more step at the end of a run. */
  lemma {:induction false} RunThen(c: Config, a: State, x: seq<Step>, b: State, e: Step)
    requires Run(c, a, x, b) && Enabled(b, e)
    ensures Run(c, a, x + [e], Next(c, b, e))
    decreases |x|
  {
    if x == [] {
      assert x + [e] == [e];
      assert Run(c, Next(c, b, e), [e][1..], Next(c, b, e));
    } else {
      assert (x + [e])[1..] == x[1..] + [e];
      RunThen(c, Next(c, a, x[0]), x[1..], b, e);
    }
  }

  /** The order object is built; its rows are being read, moved or saved. */
  predicate Working(phase: Phase) {
    phase.Ready? || phase.Booked? || phase.OrderWritten? || phase.KeyWritten?
  }

  /** No two cancellations that have read the same order as PENDING are under way together. */
  predicate NoRivalCancels(s: State) {
    forall t, u | t in s.txs && u in s.txs && t != u && Working(s.txs[t].phase) && Working(s.txs[u].phase)
                  && s.txs[t].work.Cancel? && s.txs[u].work.Cancel? ::
      s.txs[t].work.oid != s.txs[u].work.oid
  }

  /** A run in which the callers never let two cancellations of one order overlap in this way. */
  predicate CalmRun(c: Config, s: State, steps: seq<Step>, s': State)
    decreases |steps|
  {
    NoRivalCancels(s)
    && if steps == [] then s' == s
       else Enabled(s, steps[0]) && CalmRun(c, Next(c, s, steps[0]), steps[1..], s')
  }
}
