/** The interleaved protocol implements atomic transactions run one at a time, in commit order. */
module Refinement {
  import opened Values
  import opened Sums
  import opened Moves
  import opened Serial
  import opened History
  import opened Protocol

  /** A row read earlier: its version tells whether the row seen now is still the one read. */
  predicate Traces(read: Stock, row: Stock) {
    && read.quantity == row.quantity
    && read.version <= row.version
    && (read.version == row.version ==> read == row)
  }

  /** A private write is a sound row that follows the committed one. */
  predicate WriteOk(row: Stock, write: Stock) {
    Sound(write) && write.quantity == row.quantity && row.version < write.version
  }

  /** Rows read are traces of what is seen now, and local items are sound rows of the version that was read. */
  predicate RowsOk(stock: StockMap, read: StockMap, local: StockMap, writes: StockMap, held: set<ProductId>) {
    && local.Keys == read.Keys <= stock.Keys
    && writes.Keys <= held <= read.Keys
    && (forall p | p in writes :: WriteOk(stock[p], writes[p]))
    && (forall p | p in read :: Sound(read[p]) && Traces(read[p], if p in writes then writes[p] else stock[p]))
    && (forall p | p in local :: Sound(local[p])
          && local[p].quantity == read[p].quantity && local[p].version == read[p].version)
  }

  /** A locked row is still as it was read, and every private write is a local item with the next version. */
  predicate LockedOk(stock: StockMap, read: StockMap, local: StockMap, writes: StockMap, held: set<ProductId>) {
    && (forall p | p in held :: p in read && p in stock && read[p] == stock[p])
    && (forall p | p in writes :: p in local && writes[p] == Bumped(local[p]))
  }

  /** All rows of an order have been read and moved as a whole. */
  predicate MovedOk(m: Move, lines: seq<Line>, read: StockMap, local: StockMap) {
    && read.Keys == ProductsOf(lines)
    && Clear(m, read, lines)
    && local == After(m, read, lines)
  }

  predicate MovingOk(stock: StockMap, tx: Tx) {
    && LockedOk(stock, tx.read, tx.local, tx.writes, tx.held)
    && tx.held == tx.read.Keys
    && (tx.phase.Ready? ==> tx.local == tx.read && tx.read.Keys <= ProductsOf(tx.order.lines))
    && (!tx.phase.Ready? ==> MovedOk(MoveOf(tx.work), tx.order.lines, tx.read, tx.local))
    && (tx.phase.Ready? || tx.phase.Booked? ==> tx.writes == map[])
  }

  predicate Untouched(tx: Tx) {
    tx.read == map[] && tx.held == {} && tx.writes == map[]
  }

  /** The order object of a creation: priced lines, confirmed once booked. */
  predicate OrderBuilt(catalog: Catalog, req: Request, order: OrderRecord, status: Status) {
    && FirstUnsellable(catalog, req.items).None?
    && order == OrderRecord(req.customer, status, Priced(catalog, req.items))
  }

  /** A finished creation names a committed, confirmed order: with a key the key's order, else its own. */
  predicate ResultOk(catalog: Catalog, db: Db, req: Request, oid: OrderId, r: OrderResult) {
    && r.orderId in db.orders
    && db.orders[r.orderId].status == Confirmed
    && r.status == StatusText(Confirmed)
    && r.total == Total(db.orders[r.orderId].lines)
    && (HasKey(req) ==> req.key.value in db.keys && db.keys[req.key.value].orderId == r.orderId)
    && (if r.fromCache then HasKey(req)
        else r.orderId == oid && OrderBuilt(catalog, req, db.orders[oid], Confirmed))
  }

  /** The creation committed its own order, rather than failing or replaying another. */
  predicate Returned(tx: Tx) {
    tx.phase.Done? && tx.result.Some? && !tx.result.value.fromCache
  }

  predicate CreateOk(c: Config, db: Db, tx: Tx)
    requires tx.work.Create?
  {
    var req, oid := tx.work.req, tx.work.oid;
    && !tx.phase.Conflict?
    && (oid in db.orders <==> Returned(tx))
    && (tx.phase.Begun? || tx.phase.KeyMissed? ==> Untouched(tx))
    && (Live(tx) && !tx.phase.Begun? ==> req.items != [])
    && (tx.phase.Done? ==> tx.result.Some? && ResultOk(c.catalog, db, req, oid, tx.result.value))
    && (Working(tx.phase) ==>
          && MovingOk(db.stock, tx)
          && OrderBuilt(c.catalog, req, tx.order, if tx.phase.Ready? then Pending else Confirmed))
    && (tx.phase.KeyWritten? ==>
          HasKey(req) && req.key.value !in db.keys && tx.writes.Keys == tx.local.Keys)
  }

  predicate CancelOk(db: Db, tx: Tx)
    requires tx.work.Cancel?
  {
    var oid := tx.work.oid;
    && !tx.phase.KeyMissed? && !tx.phase.KeyWritten? && !tx.phase.Conflict?
    && (tx.phase.Begun? ==> Untouched(tx))
    && (Working(tx.phase) ==>
          && MovingOk(db.stock, tx)
          && oid in db.orders && db.orders[oid].status != Confirmed
          && tx.order == db.orders[oid].(status := Cancelled))
  }

  /** A local item is the row as read with the calls made since. */
  predicate CallsOk(read: StockMap, local: StockMap, changes: map<ProductId, seq<Change>>) {
    && local.Keys == read.Keys == changes.Keys
    && (forall p | p in read :: Applied(p, read[p], changes[p]) == Some(local[p]))
  }

  /** A private write is what the committed row becomes by the saves made of it. */
  predicate SavesOk(stock: StockMap, writes: StockMap, saved: SaveMap) {
    && writes.Keys == saved.Keys <= stock.Keys
    && (forall p | p in writes :: Folded(p, stock[p], saved[p]) == Some(writes[p]))
  }

  predicate AdjustOk(db: Db, tx: Tx)
    requires tx.work.Adjust?
  {
    && (tx.phase.Ready? || tx.phase.Conflict? || !Live(tx))
    && CallsOk(tx.read, tx.local, tx.changes)
    && (Live(tx) ==> SavesOk(db.stock, tx.writes, tx.saved))
  }

  predicate TxOk(c: Config, db: Db, tx: Tx) {
    && RowsOk(db.stock, tx.read, tx.local, tx.writes, tx.held)
    && (!Live(tx) ==> tx.held == {} && tx.local == map[])
    && match tx.work
       case Create(_, _) => CreateOk(c, db, tx)
       case Cancel(_) => CancelOk(db, tx)
       case Adjust(_) => AdjustOk(db, tx)
  }

  /** Two transactions never hold the same row, pending key or new order id. */
  predicate Apart(t: Tx, u: Tx) {
    && t.held !! u.held
    && (PendingKey(t).Some? ==> PendingKey(t) != PendingKey(u))
    && (t.work.Create? && u.work.Create? ==> t.work.oid != u.work.oid)
  }

  ghost predicate TxsOk(c: Config, db: Db, log: seq<Work>, txs: map<TxId, Tx>) {
    && (forall t | t in txs :: TxOk(c, db, txs[t]) && CancelSeen(db, log, txs[t]))
    && (forall t, u | t in txs && u in txs && t != u :: Apart(txs[t], txs[u]))
  }

  ghost predicate Inv(c: Config, s: State) {
    && DbOk(s.db)
    && TxsOk(c, s.db, s.log, s.txs)
    && LeftBy(c.catalog, c.base, s.log) == Some(s.db)
    && CancelsShow(s.db.orders, s.log)
  }

  /** A cancellation under way has an order that is still PENDING, or that another one has cancelled since. */
  predicate CancelSeen(db: Db, log: seq<Work>, tx: Tx) {
    tx.work.Cancel? && Working(tx.phase) ==>
      tx.work.oid in db.orders && (db.orders[tx.work.oid].status == Pending || tx.work in log)
  }

  // ---- One statement of one transaction ----

  lemma DroppedOk(c: Config, db: Db, tx: Tx, why: Error)
    requires TxOk(c, db, tx) && Live(tx)
    ensures TxOk(c, db, Dropped(tx, why))
  {
  }

  lemma CheckKeyOk(c: Config, db: Db, tx: Tx)
    requires DbOk(db) && TxOk(c, db, tx) && Able(db, tx, CheckKey)
    ensures TxOk(c, db, Effect(c, db, tx, CheckKey))
  {
    var req := tx.work.req;
    if req.items == [] {
      DroppedOk(c, db, tx, EmptyOrder);
    } else if Hit(req, db.keys) {
      HitOk(c, db, tx);
    }
  }

  /** A replay succeeds and returns what the key stores. */
  lemma HitOk(c: Config, db: Db, tx: Tx)
    requires DbOk(db) && TxOk(c, db, tx) && Able(db, tx, CheckKey)
    requires tx.work.req.items != [] && Hit(tx.work.req, db.keys)
    ensures TxOk(c, db, Effect(c, db, tx, CheckKey))
  {
    var row := db.keys[tx.work.req.key.value];
    assert KeyOk(db.orders, row);
    Money.ParsePrinted(Total(db.orders[row.orderId].lines));
  }

  lemma ReadRowsOk(db: Db, tx: Tx, p: ProductId)
    requires DbOk(db) && RowsOk(db.stock, tx.read, tx.local, tx.writes, tx.held) && p in db.stock
    ensures var row := Visible(db, tx, p);
            && RowsOk(db.stock, tx.read[p := row], tx.local[p := row], tx.writes, tx.held)
            && RowsOk(db.stock, tx.read[p := row], tx.local[p := row], tx.writes, tx.held + {p})
  {
    assert Sound(db.stock[p]);
  }

  lemma ReadCallsOk(tx: Tx, p: ProductId, row: Stock)
    requires CallsOk(tx.read, tx.local, tx.changes)
    ensures CallsOk(tx.read[p := row], tx.local[p := row], tx.changes[p := []])
  {
  }

  lemma LockMoves(db: Db, tx: Tx, p: ProductId)
    requires RowsOk(db.stock, tx.read, tx.local, tx.writes, tx.held) && MovingOk(db.stock, tx)
    requires tx.phase.Ready? && p in db.stock && p in ProductsOf(tx.order.lines)
    ensures MovingOk(db.stock, tx.(read := tx.read[p := db.stock[p]], local := tx.local[p := db.stock[p]],
                                   changes := tx.changes[p := []], held := tx.held + {p}))
  {
  }

  lemma LockRowOk(c: Config, db: Db, tx: Tx, p: ProductId)
    requires DbOk(db) && TxOk(c, db, tx) && Able(db, tx, LockRow(p))
    ensures TxOk(c, db, Effect(c, db, tx, LockRow(p)))
  {
    ReadRowsOk(db, tx, p);
    if tx.work.Adjust? {
      ReadCallsOk(tx, p, Visible(db, tx, p));
    } else {
      LockMoves(db, tx, p);
    }
  }

  lemma PeekOk(c: Config, db: Db, tx: Tx, p: ProductId)
    requires DbOk(db) && TxOk(c, db, tx) && Able(db, tx, Peek(p))
    ensures TxOk(c, db, Effect(c, db, tx, Peek(p)))
  {
    ReadRowsOk(db, tx, p);
    ReadCallsOk(tx, p, Visible(db, tx, p));
  }

  lemma CallRowsOk(db: Db, tx: Tx, p: ProductId, change: Change)
    requires RowsOk(db.stock, tx.read, tx.local, tx.writes, tx.held)
    requires p in tx.local && TryMove(change.move, p, tx.local[p], change.amount).Ok?
    ensures RowsOk(db.stock, tx.read,
                   tx.local[p := TryMove(change.move, p, tx.local[p], change.amount).value], tx.writes, tx.held)
  {
  }

  lemma CallCallsOk(tx: Tx, p: ProductId, change: Change)
    requires CallsOk(tx.read, tx.local, tx.changes)
    requires p in tx.local && TryMove(change.move, p, tx.local[p], change.amount).Ok?
    ensures CallsOk(tx.read, tx.local[p := TryMove(change.move, p, tx.local[p], change.amount).value],
                    tx.changes[p := tx.changes[p] + [change]])
  {
    var calls := tx.changes[p] + [change];
    assert calls[..|calls| - 1] == tx.changes[p];
  }

  lemma CallOk(c: Config, db: Db, tx: Tx, p: ProductId, change: Change)
    requires TxOk(c, db, tx) && Able(db, tx, Call(p, change))
    ensures TxOk(c, db, Effect(c, db, tx, Call(p, change)))
  {
    CallRowsOk(db, tx, p, change);
    CallCallsOk(tx, p, change);
  }

  lemma BookRowsOk(stock: StockMap, read: StockMap, held: set<ProductId>, m: Move, lines: seq<Line>)
    requires RowsOk(stock, read, read, map[], held) && Clear(m, read, lines)
    ensures RowsOk(stock, read, After(m, read, lines), map[], held)
  {
    forall p | p in read ensures Sound(After(m, read, lines)[p]) {
      AfterIsSound(m, read, lines, p);
    }
  }

  lemma BookMoves(db: Db, tx: Tx, moved: Tx)
    requires RowsOk(db.stock, tx.read, tx.local, tx.writes, tx.held) && MovingOk(db.stock, tx) && tx.phase.Ready?
    requires forall p | p in ProductsOf(tx.order.lines) && p in db.stock :: p in tx.held
    requires Clear(MoveOf(tx.work), tx.local, tx.order.lines)
    requires moved.work == tx.work && moved.phase.Booked? && moved.order.lines == tx.order.lines
    requires moved.read == tx.read && moved.held == tx.held && moved.writes == tx.writes
    requires moved.local == After(MoveOf(tx.work), tx.local, tx.order.lines)
    ensures RowsOk(db.stock, moved.read, moved.local, moved.writes, moved.held) && MovingOk(db.stock, moved)
  {
    ClearIsPositive(MoveOf(tx.work), tx.local, tx.order.lines);
    BookRowsOk(db.stock, tx.read, tx.held, MoveOf(tx.work), tx.order.lines);
  }

  lemma CreateBookedOk(c: Config, db: Db, tx: Tx)
    requires TxOk(c, db, tx) && Able(db, tx, Book) && Verdict(MoveOf(tx.work), tx.local, tx.order.lines).None?
    requires tx.work.Create?
    ensures TxOk(c, db, Effect(c, db, tx, Book))
  {
    BookMoves(db, tx, Effect(c, db, tx, Book));
  }

  lemma CancelBookedOk(c: Config, db: Db, tx: Tx)
    requires TxOk(c, db, tx) && Able(db, tx, Book) && Verdict(MoveOf(tx.work), tx.local, tx.order.lines).None?
    requires tx.work.Cancel?
    ensures TxOk(c, db, Effect(c, db, tx, Book))
  {
    BookMoves(db, tx, Effect(c, db, tx, Book));
  }

  lemma BookOk(c: Config, db: Db, tx: Tx)
    requires TxOk(c, db, tx) && Able(db, tx, Book)
    ensures TxOk(c, db, Effect(c, db, tx, Book))
  {
    var v := Verdict(MoveOf(tx.work), tx.local, tx.order.lines);
    if v.None? && tx.work.Create? {
      CreateBookedOk(c, db, tx);
    } else if v.None? {
      CancelBookedOk(c, db, tx);
    } else {
      DroppedOk(c, db, tx, v.value);
    }
  }

  lemma SaveRowsOk(db: Db, tx: Tx, p: ProductId)
    requires RowsOk(db.stock, tx.read, tx.local, tx.writes, tx.held)
    requires p in tx.local && p in db.stock && Visible(db, tx, p).version == tx.local[p].version
    ensures tx.read[p] == Visible(db, tx, p)
    ensures RowsOk(db.stock, tx.read, tx.local, tx.writes[p := Bumped(tx.local[p])], tx.held + {p})
  {
    assert p in tx.read;
  }

  /** A locking transaction never meets a version it did not read. */
  lemma LockedVersion(db: Db, tx: Tx, p: ProductId)
    requires RowsOk(db.stock, tx.read, tx.local, tx.writes, tx.held)
    requires LockedOk(db.stock, tx.read, tx.local, tx.writes, tx.held)
    requires p in tx.held && p !in tx.writes
    ensures Visible(db, tx, p).version == tx.local[p].version
  {
    assert p in tx.read;
  }

  lemma LockedSaveMoves(stock: StockMap, tx: Tx, p: ProductId)
    requires RowsOk(stock, tx.read, tx.local, tx.writes, tx.held) && MovingOk(stock, tx)
    requires tx.phase.OrderWritten? && p in tx.local
    ensures MovingOk(stock, tx.(writes := tx.writes[p := Bumped(tx.local[p])], held := tx.held + {p}))
  {
    assert p in tx.read && tx.held + {p} == tx.held;
  }

  lemma LockedSaveOk(c: Config, db: Db, tx: Tx, p: ProductId)
    requires TxOk(c, db, tx) && Able(db, tx, SaveRow(p)) && !tx.work.Adjust?
    ensures TxOk(c, db, Effect(c, db, tx, SaveRow(p)))
  {
    assert p in tx.read;
    LockedVersion(db, tx, p);
    SaveRowsOk(db, tx, p);
    LockedSaveMoves(db.stock, tx, p);
  }

  lemma SavedOnceMore(p: ProductId, row: Stock, before: seq<seq<Change>>, changes: seq<Change>)
    requires Folded(p, row, before).Some? && Applied(p, Folded(p, row, before).value, changes).Some?
    ensures Folded(p, row, before + [changes]) == Some(Bumped(Applied(p, Folded(p, row, before).value, changes).value))
  {
    assert (before + [changes])[..|before|] == before;
  }

  lemma SavesMore(stock: StockMap, writes: StockMap, saved: SaveMap, p: ProductId, row: Stock, saves: seq<seq<Change>>)
    requires SavesOk(stock, writes, saved) && p in stock && Folded(p, stock[p], saves) == Some(row)
    ensures SavesOk(stock, writes[p := row], saved[p := saves])
  {
  }

  /** Saving an item adds its calls since the last read to the saves of its row. */
  lemma SaveSavesOk(db: Db, tx: Tx, p: ProductId)
    requires CallsOk(tx.read, tx.local, tx.changes) && SavesOk(db.stock, tx.writes, tx.saved)
    requires p in tx.local && p in db.stock && tx.read[p] == Visible(db, tx, p)
    ensures SavesOk(db.stock, tx.writes[p := Bumped(tx.local[p])], tx.saved[p := SavedBefore(tx, p) + [tx.changes[p]]])
  {
    assert p in tx.read;
    SavedOnceMore(p, db.stock[p], SavedBefore(tx, p), tx.changes[p]);
    SavesMore(db.stock, tx.writes, tx.saved, p, Bumped(tx.local[p]), SavedBefore(tx, p) + [tx.changes[p]]);
  }

  lemma VersionedSaveOk(c: Config, db: Db, tx: Tx, p: ProductId)
    requires TxOk(c, db, tx) && Able(db, tx, SaveRow(p)) && tx.work.Adjust?
    ensures TxOk(c, db, Effect(c, db, tx, SaveRow(p)))
  {
    if Visible(db, tx, p).version == tx.local[p].version {
      SaveRowsOk(db, tx, p);
      SaveSavesOk(db, tx, p);
    }
  }

  lemma SaveRowOk(c: Config, db: Db, tx: Tx, p: ProductId)
    requires TxOk(c, db, tx) && Able(db, tx, SaveRow(p))
    ensures TxOk(c, db, Effect(c, db, tx, SaveRow(p)))
  {
    if tx.work.Adjust? {
      VersionedSaveOk(c, db, tx, p);
    } else {
      LockedSaveOk(c, db, tx, p);
    }
  }

  lemma PriceOk(c: Config, db: Db, tx: Tx)
    requires TxOk(c, db, tx) && Able(db, tx, Price)
    ensures TxOk(c, db, Effect(c, db, tx, Price))
  {
  }

  lemma ReadOrderOk(c: Config, db: Db, tx: Tx)
    requires TxOk(c, db, tx) && Able(db, tx, ReadOrder)
    ensures TxOk(c, db, Effect(c, db, tx, ReadOrder))
  {
  }

  lemma WriteOrderOk(c: Config, db: Db, tx: Tx)
    requires TxOk(c, db, tx) && Able(db, tx, WriteOrder)
    ensures TxOk(c, db, Effect(c, db, tx, WriteOrder))
  {
  }

  lemma WriteKeyOk(c: Config, db: Db, tx: Tx)
    requires TxOk(c, db, tx) && Able(db, tx, WriteKey)
    ensures TxOk(c, db, Effect(c, db, tx, WriteKey))
  {
    DroppedOk(c, db, tx, DuplicateKey);
  }

  lemma StatementOk(c: Config, db: Db, tx: Tx, a: Act)
    requires DbOk(db) && TxOk(c, db, tx) && Able(db, tx, a)
    ensures TxOk(c, db, Effect(c, db, tx, a))
  {
    match a
    case CheckKey => CheckKeyOk(c, db, tx);
    case Price => PriceOk(c, db, tx);
    case ReadOrder => ReadOrderOk(c, db, tx);
    case LockRow(p) => LockRowOk(c, db, tx, p);
    case Peek(p) => PeekOk(c, db, tx, p);
    case Call(p, change) => CallOk(c, db, tx, p, change);
    case Book => BookOk(c, db, tx);
    case WriteOrder => WriteOrderOk(c, db, tx);
    case SaveRow(p) => SaveRowOk(c, db, tx, p);
    case WriteKey => WriteKeyOk(c, db, tx);
    case GiveUp(why) => DroppedOk(c, db, tx, why);
  }

  // ---- A commit, seen by the committing transaction, the others, and the atomic specification ----

  lemma CommitPhase(c: Config, db: Db, tx: Tx)
    requires TxOk(c, db, tx) && CanCommit(tx) && !tx.work.Adjust?
    ensures (tx.phase.OrderWritten? || tx.phase.KeyWritten?) && Working(tx.phase) && Live(tx)
    ensures tx.writes.Keys == tx.local.Keys == tx.read.Keys == ProductsOf(tx.order.lines)
    ensures MovedOk(MoveOf(tx.work), tx.order.lines, tx.read, tx.local)
  {
  }

  /** Publishing the private rows of a whole order is the atomic effect of its lines on the current stock. */
  lemma PublishedIsSettled(c: Config, db: Db, tx: Tx)
    requires TxOk(c, db, tx) && CanCommit(tx) && !tx.work.Adjust?
    ensures Clear(MoveOf(tx.work), db.stock, tx.order.lines)
    ensures db.stock + tx.writes == Settled(MoveOf(tx.work), db.stock, tx.order.lines)
  {
    CommitPhase(c, db, tx);
    SameFaults(MoveOf(tx.work), tx.read, db.stock, tx.order.lines);
  }

  lemma CreateIsAtomic(c: Config, db: Db, tx: Tx)
    requires TxOk(c, db, tx) && CanCommit(tx) && tx.work.Create?
    ensures CreateOrder(c.catalog, db, tx.work.req, tx.work.oid)
         == Created(Published(db, tx), FreshResult(tx.work.oid, tx.order))
    ensures tx.work.oid !in db.orders
  {
    CommitPhase(c, db, tx);
    PublishedIsSettled(c, db, tx);
  }

  /**
   * Committing a cancellation is the atomic cancellation of the order as it was read, PENDING; so it is the
   * atomic cancellation on the database of that moment exactly when no rival has cancelled the order since.
   */
  lemma CancelIsAtomic(c: Config, db: Db, tx: Tx)
    requires TxOk(c, db, tx) && CanCommit(tx) && tx.work.Cancel?
    ensures tx.work.oid in db.orders
    ensures CancelOrder(Reopened(db, tx.work.oid), tx.work.oid) == Ok(Published(db, tx))
    ensures CancelOrder(db, tx.work.oid) == Ok(Published(db, tx)) <==> db.orders[tx.work.oid].status == Pending
  {
    CommitPhase(c, db, tx);
    PublishedIsSettled(c, db, tx);
    var oid := tx.work.oid;
    assert Reopened(db, oid).orders[oid := tx.order] == db.orders[oid := tx.order];
    assert db.orders[oid].status == Pending ==> Reopened(db, oid).orders == db.orders;
  }

  /** Committing a transaction that relies on the version check is its saves applied to the current rows. */
  lemma AdjustIsAtomic(c: Config, db: Db, tx: Tx)
    requires TxOk(c, db, tx) && CanCommit(tx) && tx.work.Adjust?
    ensures AdjustStock(db, tx.saved) == Some(Published(db, tx))
  {
    assert AdjustStock(db, tx.saved).value.stock == db.stock + tx.writes;
  }

  lemma UnrepeatedIsAtomic(c: Config, db: Db, tx: Tx)
    requires TxOk(c, db, tx) && CanCommit(tx)
    requires tx.work.Cancel? ==> tx.work.oid in db.orders && db.orders[tx.work.oid].status == Pending
    ensures Atomic(c.catalog, db, Logged(tx)) == Some(Published(db, tx))
  {
    match tx.work
    case Create(_, _) => CreateIsAtomic(c, db, tx);
    case Cancel(_) => CancelIsAtomic(c, db, tx);
    case Adjust(_) => AdjustIsAtomic(c, db, tx);
  }

  /** A commit is one atomic transaction unless it cancels an order that is no longer PENDING. */
  lemma AtomicIffPending(c: Config, db: Db, tx: Tx)
    requires TxOk(c, db, tx) && CanCommit(tx)
    ensures Logged(tx).Cancel? ==> Logged(tx).oid in db.orders
    ensures Atomic(c.catalog, db, Logged(tx)) == Some(Published(db, tx)) <==>
              (Logged(tx).Cancel? ==> db.orders[Logged(tx).oid].status == Pending)
  {
    if tx.work.Cancel? {
      CancelIsAtomic(c, db, tx);
    } else {
      UnrepeatedIsAtomic(c, db, tx);
    }
  }

  /** A commit is the effect of one more entry of the history on the database as it is at that moment. */
  lemma CommitIsLast(c: Config, db: Db, log: seq<Work>, tx: Tx)
    requires TxOk(c, db, tx) && CanCommit(tx) && CancelSeen(db, log, tx) && CancelsShow(db.orders, log)
    ensures LastEffect(c.catalog, db, log + [Logged(tx)]) == Some(Published(db, tx))
    ensures (log + [Logged(tx)])[..|log|] == log
  {
    assert (log + [Logged(tx)])[..|log|] == log;
    if Repeats(log + [Logged(tx)]) {
      CancelIsAtomic(c, db, tx);
    } else {
      if tx.work.Cancel? {
        CommitPhase(c, db, tx);
      }
      UnrepeatedIsAtomic(c, db, tx);
    }
  }

  /** Publishing a transaction keeps the database invariant and only extends the database. */
  lemma PublishedExtends(c: Config, db: Db, tx: Tx)
    requires DbOk(db) && TxOk(c, db, tx) && CanCommit(tx)
    ensures DbOk(Published(db, tx)) && Extends(db, Published(db, tx))
  {
    if tx.work.Cancel? {
      CommitPhase(c, db, tx);
    }
    if tx.work.Cancel? && db.orders[tx.work.oid].status == Cancelled {
      CancelIsAtomic(c, db, tx);
      CancelAgain(c.catalog, db, tx.work.oid);
    } else {
      UnrepeatedIsAtomic(c, db, tx);
      AtomicKeeps(c.catalog, db, Logged(tx));
    }
  }

  lemma CommitExtends(c: Config, s: State, t: TxId)
    requires Inv(c, s) && Enabled(s, Commit(t))
    ensures LeftBy(c.catalog, c.base, Next(c, s, Commit(t)).log) == Some(Next(c, s, Commit(t)).db)
    ensures DbOk(Next(c, s, Commit(t)).db) && Extends(s.db, Next(c, s, Commit(t)).db)
    ensures CancelsShow(Next(c, s, Commit(t)).db.orders, Next(c, s, Commit(t)).log)
  {
    CommitIsLast(c, s.db, s.log, s.txs[t]);
    LastKeeps(c.catalog, s.db, s.log + [Logged(s.txs[t])]);
  }

  /** Rows read or locked by another transaction survive a commit. */
  lemma RowsSurvive(stock: StockMap, tx: Tx, u: Tx)
    requires RowsOk(stock, tx.read, tx.local, tx.writes, tx.held)
    requires RowsOk(stock, u.read, u.local, u.writes, u.held)
    requires tx.held !! u.held
    ensures RowsOk(stock + tx.writes, u.read, u.local, u.writes, u.held)
    ensures forall p | p in u.held :: p in stock && (stock + tx.writes)[p] == stock[p]
  {
    forall p | p in tx.writes ensures p in tx.held && WriteOk(stock[p], tx.writes[p]) {
    }
  }

  lemma SelfCreateAfterCommit(c: Config, db: Db, tx: Tx)
    requires TxOk(c, db, tx) && CanCommit(tx) && tx.work.Create?
    ensures CreateOk(c, Published(db, tx), Committed(tx))
  {
    CommitPhase(c, db, tx);
  }

  lemma SelfAfterCommit(c: Config, db: Db, tx: Tx)
    requires TxOk(c, db, tx) && CanCommit(tx)
    ensures TxOk(c, Published(db, tx), Committed(tx))
  {
    if tx.work.Create? {
      SelfCreateAfterCommit(c, db, tx);
    }
  }

  lemma MovingSurvives(stock: StockMap, tx: Tx, u: Tx)
    requires RowsOk(stock, tx.read, tx.local, tx.writes, tx.held)
    requires RowsOk(stock, u.read, u.local, u.writes, u.held)
    requires tx.held !! u.held && MovingOk(stock, u)
    ensures MovingOk(stock + tx.writes, u)
  {
    RowsSurvive(stock, tx, u);
  }

  lemma ResultStays(catalog: Catalog, a: Db, b: Db, req: Request, oid: OrderId, r: OrderResult)
    requires Extends(a, b) && ResultOk(catalog, a, req, oid, r)
    ensures ResultOk(catalog, b, req, oid, r)
  {
  }

  /** A commit publishes no other transaction's new order, and not its key either. */
  lemma OthersUnpublished(c: Config, db: Db, tx: Tx, u: Tx)
    requires TxOk(c, db, tx) && CanCommit(tx) && Apart(tx, u) && u.work.Create?
    ensures u.work.oid in Published(db, tx).orders <==> u.work.oid in db.orders
    ensures u.phase.KeyWritten? && HasKey(u.work.req) && u.work.req.key.value !in db.keys ==>
              u.work.req.key.value !in Published(db, tx).keys
  {
    if !tx.work.Adjust? {
      CommitPhase(c, db, tx);
    }
  }

  lemma OtherCreateAfterCommit(c: Config, db: Db, tx: Tx, u: Tx)
    requires TxOk(c, db, tx) && CanCommit(tx) && TxOk(c, db, u) && Apart(tx, u) && u.work.Create?
    requires Extends(db, Published(db, tx))
    ensures CreateOk(c, Published(db, tx), u)
  {
    OthersUnpublished(c, db, tx, u);
    if Working(u.phase) {
      MovingSurvives(db.stock, tx, u);
    }
    if u.phase.Done? {
      ResultStays(c.catalog, db, Published(db, tx), u.work.req, u.work.oid, u.result.value);
    }
  }

  lemma OtherCancelAfterCommit(c: Config, db: Db, tx: Tx, u: Tx)
    requires TxOk(c, db, tx) && CanCommit(tx) && TxOk(c, db, u) && Apart(tx, u) && u.work.Cancel?
    ensures CancelOk(Published(db, tx), u)
  {
    if Working(u.phase) {
      MovingSurvives(db.stock, tx, u);
    }
  }

  lemma OtherAdjustAfterCommit(c: Config, db: Db, tx: Tx, u: Tx)
    requires TxOk(c, db, tx) && CanCommit(tx) && TxOk(c, db, u) && Apart(tx, u) && u.work.Adjust?
    ensures AdjustOk(Published(db, tx), u)
  {
    RowsSurvive(db.stock, tx, u);
  }

  /** A commit leaves the invariant of every other transaction intact, another cancellation of the order included. */
  lemma {:induction false} OtherAfterCommit(c: Config, db: Db, tx: Tx, u: Tx)
    requires DbOk(db) && TxOk(c, db, tx) && CanCommit(tx) && TxOk(c, db, u) && Apart(tx, u)
    ensures TxOk(c, Published(db, tx), u)
  {
    PublishedExtends(c, db, tx);
    RowsSurvive(db.stock, tx, u);
    match u.work
    case Create(_, _) => OtherCreateAfterCommit(c, db, tx, u);
    case Cancel(_) => OtherCancelAfterCommit(c, db, tx, u);
    case Adjust(_) => OtherAdjustAfterCommit(c, db, tx, u);
  }

  lemma SeenAfterCommit(c: Config, db: Db, log: seq<Work>, tx: Tx, u: Tx)
    requires TxOk(c, db, tx) && CanCommit(tx) && CancelSeen(db, log, u)
    requires Extends(db, Published(db, tx))
    ensures CancelSeen(Published(db, tx), log + [Logged(tx)], u)
  {
    if u.work.Cancel? && Working(u.phase) && tx.work == u.work {
      assert (log + [Logged(tx)])[|log|] == u.work;
    }
  }

  // ---- The invariant along runs ----

  lemma FreshOk(c: Config, s: State, t: TxId, work: Work)
    requires Enabled(s, Begin(t, work))
    ensures TxOk(c, s.db, Fresh(work))
    ensures forall u | u in s.txs :: Apart(Fresh(work), s.txs[u]) && Apart(s.txs[u], Fresh(work))
  {
  }

  lemma BeginKeeps(c: Config, s: State, t: TxId, work: Work)
    requires Inv(c, s) && Enabled(s, Begin(t, work))
    ensures Inv(c, Next(c, s, Begin(t, work)))
  {
    FreshOk(c, s, t, work);
  }

  /** The only locks a statement can gain are those it may have to wait for. */
  lemma LocksGained(c: Config, db: Db, tx: Tx, a: Act)
    requires Able(db, tx, a)
    ensures Effect(c, db, tx, a).held <= tx.held + (if a.LockRow? || a.SaveRow? then {a.p} else {})
  {
  }

  lemma KeyGained(c: Config, db: Db, tx: Tx, a: Act)
    requires Able(db, tx, a)
    ensures Effect(c, db, tx, a).work == tx.work
    ensures PendingKey(Effect(c, db, tx, a)).Some? ==>
              PendingKey(Effect(c, db, tx, a)) == if a.WriteKey? then KeyOf(tx.work) else PendingKey(tx)
  {
  }

  lemma StillApart(c: Config, s: State, t: TxId, a: Act, u: TxId)
    requires t in s.txs && u in s.txs && t != u && Apart(s.txs[t], s.txs[u])
    requires Able(s.db, s.txs[t], a) && !MustWait(s, t, a)
    ensures Apart(Effect(c, s.db, s.txs[t], a), s.txs[u]) && Apart(s.txs[u], Effect(c, s.db, s.txs[t], a))
  {
    LocksGained(c, s.db, s.txs[t], a);
    KeyGained(c, s.db, s.txs[t], a);
  }

  /** A cancellation gets under way only by reading its order as PENDING. */
  lemma SeenAfterStatement(c: Config, db: Db, log: seq<Work>, tx: Tx, a: Act)
    requires CancelSeen(db, log, tx) && Able(db, tx, a)
    ensures CancelSeen(db, log, Effect(c, db, tx, a))
  {
  }

  /** Replacing one transaction by one that is as good, and as far apart from the others. */
  lemma Replaced(c: Config, db: Db, log: seq<Work>, txs: map<TxId, Tx>, t: TxId, tx: Tx)
    requires TxOk(c, db, tx) && CancelSeen(db, log, tx)
    requires forall u | u in txs && u != t :: TxOk(c, db, txs[u]) && CancelSeen(db, log, txs[u])
    requires forall u | u in txs && u != t :: Apart(tx, txs[u]) && Apart(txs[u], tx)
    requires forall u, v | u in txs && v in txs && u != v :: Apart(txs[u], txs[v])
    ensures TxsOk(c, db, log, txs[t := tx])
  {
  }

  lemma DoKeeps(c: Config, s: State, t: TxId, a: Act)
    requires Inv(c, s) && Enabled(s, Do(t, a))
    ensures Inv(c, Next(c, s, Do(t, a)))
  {
    var tx := Effect(c, s.db, s.txs[t], a);
    StatementOk(c, s.db, s.txs[t], a);
    SeenAfterStatement(c, s.db, s.log, s.txs[t], a);
    forall u | u in s.txs && u != t ensures Apart(tx, s.txs[u]) && Apart(s.txs[u], tx) {
      assert Apart(s.txs[t], s.txs[u]);
      StillApart(c, s, t, a, u);
    }
    Replaced(c, s.db, s.log, s.txs, t, tx);
  }

  lemma ApartAfterCommit(tx: Tx, u: Tx)
    requires Apart(tx, u)
    ensures Apart(Committed(tx), u) && Apart(u, Committed(tx))
  {
  }

  lemma OtherKeeps(c: Config, s: State, t: TxId, u: TxId)
    requires Inv(c, s) && Enabled(s, Commit(t)) && u in s.txs && u != t
    ensures var after := Next(c, s, Commit(t));
            && TxOk(c, after.db, s.txs[u]) && CancelSeen(after.db, after.log, s.txs[u])
            && Apart(Committed(s.txs[t]), s.txs[u]) && Apart(s.txs[u], Committed(s.txs[t]))
  {
    assert Apart(s.txs[t], s.txs[u]);
    ApartAfterCommit(s.txs[t], s.txs[u]);
    OtherAfterCommit(c, s.db, s.txs[t], s.txs[u]);
    PublishedExtends(c, s.db, s.txs[t]);
    SeenAfterCommit(c, s.db, s.log, s.txs[t], s.txs[u]);
  }

  lemma CommitKeeps(c: Config, s: State, t: TxId)
    requires Inv(c, s) && Enabled(s, Commit(t))
    ensures Inv(c, Next(c, s, Commit(t)))
  {
    var tx := s.txs[t];
    var after := Next(c, s, Commit(t));
    CommitExtends(c, s, t);
    SelfAfterCommit(c, s.db, tx);
    forall u | u in s.txs && u != t
      ensures TxOk(c, after.db, s.txs[u]) && CancelSeen(after.db, after.log, s.txs[u])
      ensures Apart(Committed(tx), s.txs[u]) && Apart(s.txs[u], Committed(tx))
    {
      OtherKeeps(c, s, t, u);
    }
    Replaced(c, after.db, after.log, s.txs, t, Committed(tx));
  }

  lemma CommitIsLive(c: Config, db: Db, tx: Tx)
    requires TxOk(c, db, tx) && CanCommit(tx)
    ensures Live(tx)
  {
  }

  /** Every step keeps the invariant. */
  lemma StepKeeps(c: Config, s: State, e: Step)
    requires Inv(c, s) && Enabled(s, e)
    ensures Inv(c, Next(c, s, e))
  {
    match e
    case Begin(t, work) => BeginKeeps(c, s, t, work);
    case Do(t, a) => DoKeeps(c, s, t, a);
    case Commit(t) => CommitKeeps(c, s, t);
  }

  /** Every step only extends the committed database. */
  lemma StepExtends(c: Config, s: State, e: Step)
    requires Inv(c, s) && Enabled(s, e)
    ensures Extends(s.db, Next(c, s, e).db) && s.log <= Next(c, s, e).log
  {
    if e.Commit? {
      CommitExtends(c, s, e.t);
    }
  }

  lemma {:induction false} RunKeeps(c: Config, s: State, steps: seq<Step>, s': State)
    requires Inv(c, s) && Run(c, s, steps, s')
    ensures Inv(c, s')
    decreases |steps|
  {
    if steps != [] {
      StepKeeps(c, s, steps[0]);
      RunKeeps(c, Next(c, s, steps[0]), steps[1..], s');
    }
  }

  lemma ReachableInv(c: Config, steps: seq<Step>, s: State)
    requires DbOk(c.base) && Run(c, Start(c), steps, s)
    ensures Inv(c, s)
  {
    RunKeeps(c, Start(c), steps, s);
  }

  /**
   * Serialisability: whatever way any number of transactions interleave, waiting, failing and rolling back
   * anywhere, the committed database is the one that the committed transactions produce when run
   * atomically, one at a time, in commit order, if and only if no order was cancelled by two of them.
   */
  lemma Serialisable(c: Config, steps: seq<Step>, s: State)
    requires DbOk(c.base) && Run(c, Start(c), steps, s)
    ensures Replay(c.catalog, c.base, s.log) == Some(s.db) <==> NoCancelTwice(s.log)
  {
    ReachableInv(c, steps, s);
    SerialIffNoCancelTwice(c.catalog, c.base, s.log);
  }

  /** Without any proviso: a cancellation repeated by a rival that read the order earlier sees it as PENDING. */
  lemma HistoryExplains(c: Config, steps: seq<Step>, s: State)
    requires DbOk(c.base) && Run(c, Start(c), steps, s)
    ensures LeftBy(c.catalog, c.base, s.log) == Some(s.db)
  {
    ReachableInv(c, steps, s);
  }

  // ---- Calm runs ----

  /** While no two cancellations of one order are under way together, each still finds its order PENDING. */
  predicate AllPending(s: State) {
    forall t | t in s.txs && s.txs[t].work.Cancel? && Working(s.txs[t].phase) ::
      s.txs[t].work.oid in s.db.orders && s.db.orders[s.txs[t].work.oid].status == Pending
  }

  lemma CalmStep(c: Config, s: State, e: Step)
    requires Inv(c, s) && Enabled(s, e) && NoRivalCancels(s) && AllPending(s) && NoCancelTwice(s.log)
    ensures AllPending(Next(c, s, e)) && NoCancelTwice(Next(c, s, e).log)
  {
    match e
    case Begin(t, work) =>
    case Do(t, a) => SeenAfterStatement(c, s.db, [], s.txs[t], a);
    case Commit(t) =>
      CommitExtends(c, s, t);
      CommitIsLive(c, s.db, s.txs[t]);
      NoRepeatAtEnd(Next(c, s, e).log);
      CommitPending(c, s, t);
  }

  lemma CommitPending(c: Config, s: State, t: TxId)
    requires Inv(c, s) && Enabled(s, Commit(t)) && NoRivalCancels(s) && AllPending(s)
    ensures AllPending(Next(c, s, Commit(t)))
    ensures s.txs[t].work.Cancel? ==> s.txs[t].work !in s.log
  {
    var tx := s.txs[t];
    if !tx.work.Adjust? {
      CommitPhase(c, s.db, tx);
    }
  }

  lemma {:induction false} CalmRunIsRun(c: Config, s: State, steps: seq<Step>, s': State)
    requires CalmRun(c, s, steps, s')
    ensures Run(c, s, steps, s')
    decreases |steps|
  {
    if steps != [] {
      CalmRunIsRun(c, Next(c, s, steps[0]), steps[1..], s');
    }
  }

  lemma {:induction false} CalmKeeps(c: Config, s: State, steps: seq<Step>, s': State)
    requires Inv(c, s) && CalmRun(c, s, steps, s') && AllPending(s) && NoCancelTwice(s.log)
    ensures NoCancelTwice(s'.log)
    decreases |steps|
  {
    if steps != [] {
      StepKeeps(c, s, steps[0]);
      CalmStep(c, s, steps[0]);
      CalmKeeps(c, Next(c, s, steps[0]), steps[1..], s');
    }
  }

  /** What the callers have to see to: then no order is cancelled twice, and the run is serialisable. */
  lemma CalmRunsAreSerialisable(c: Config, steps: seq<Step>, s: State)
    requires DbOk(c.base) && CalmRun(c, Start(c), steps, s)
    ensures NoCancelTwice(s.log)
    ensures Replay(c.catalog, c.base, s.log) == Some(s.db)
  {
    CalmKeeps(c, Start(c), steps, s);
    CalmRunIsRun(c, Start(c), steps, s);
    Serialisable(c, steps, s);
  }
}
