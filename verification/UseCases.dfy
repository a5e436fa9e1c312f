/** The use cases as they run, statement by statement, on one database session. */
module UseCases {
  import opened Values
  import opened Sums
  import opened Moves
  import opened Serial
  import opened Requests
  import opened Money
  import D = Domain
  import opened Reservation

  /** Rows that other transactions commit at some point of a use case. */
  datatype Rival = Rival(stock: StockMap, orders: Orders, keys: map<Key, KeyRow>)

  function Overlaid(db: Db, r: Rival): Db {
    Db(db.stock + r.stock, db.orders + r.orders, db.keys + r.keys)
  }

  /** What others can commit while these rows are locked: an update of a locked row has to wait. */
  function Allowed(r: Rival, locked: set<ProductId>): Rival {
    r.(stock := r.stock - locked)
  }

  /** What others commit before the stock is read and locked, and between that and the writes. */
  datatype Rivals = Rivals(before: Rival, during: Rival)

  /** The databases an attempt meets: when it starts, when it reads the stock, and when it writes. */
  datatype Moments = Moments(start: Db, reading: Db, writing: Db)

  function Met(start: Db, rivals: Rivals, products: set<ProductId>, locking: bool): Moments {
    var reading := Overlaid(start, rivals.before);
    Moments(start, reading, Later(reading, rivals.during, products, locking))
  }

  /** The database once others have committed what the locks on the rows of these products allow. */
  function Later(db: Db, rival: Rival, products: set<ProductId>, locking: bool): Db {
    Overlaid(db, Allowed(rival, if locking then products * db.stock.Keys else {}))
  }

  /** A locked row stays as it is, every other row a rival writes is the rival's, and so are orders and keys. */
  lemma RivalsCommit(db: Db, rival: Rival, products: set<ProductId>, locking: bool)
    ensures var later := Later(db, rival, products, locking);
            && later.stock.Keys >= db.stock.Keys
            && (forall p | p in later.stock ::
                  later.stock[p] == if p in rival.stock && !(locking && p in products && p in db.stock)
                                    then rival.stock[p] else db.stock[p])
            && (forall p | p in rival.stock :: p in later.stock)
            && (forall o :: o in later.orders <==> o in db.orders || o in rival.orders)
            && (forall o | o in later.orders :: later.orders[o] == if o in rival.orders then rival.orders[o] else db.orders[o])
            && (forall k :: k in later.keys <==> k in db.keys || k in rival.keys)
            && (forall k | k in later.keys :: later.keys[k] == if k in rival.keys then rival.keys[k] else db.keys[k])
  {
  }

  class Session {
    const locking: bool            // does the database honour row locks?
    var store: Db                  // what is committed
    var view: Db                   // what this session's statements see: committed rows and its own writes
    var locked: set<ProductId>     // the rows this session holds

    constructor (db: Db, locking: bool)
      ensures store == view == db && locked == {} && this.locking == locking
    {
      this.locking := locking;
      store, view, locked := db, db, {};
    }

    /** Other transactions commit what the locks of this session allow. */
    method Others(rival: Rival)
      modifies this
      ensures store == Overlaid(old(store), Allowed(rival, locked))
      ensures view == Overlaid(old(view), Allowed(rival, locked))
      ensures locked == old(locked)
    {
      store, view := Overlaid(store, Allowed(rival, locked)), Overlaid(view, Allowed(rival, locked));
    }

    /** The boundary of a request: commit on success, roll back on any exception. */
    method Finish(failed: bool)
      modifies this
      ensures store == view && locked == {}
      ensures store == if failed then old(store) else old(view)
    {
      locked := {};
      if failed {
        view := store;
      } else {
        store := view;
      }
    }
  }

  function IdSet(ids: seq<ProductId>): set<ProductId> {
    set i | 0 <= i < |ids| :: ids[i]
  }

  function Restricted(stock: StockMap, ids: set<ProductId>): StockMap {
    map p | p in stock && p in ids :: stock[p]
  }

  /** A versioned update of this row would match nothing. */
  predicate Stale(stock: StockMap, p: ProductId, row: Stock) {
    p in stock && stock[p].version != row.version
  }

  /** The stock once one row has been written back. */
  function WithRow(stock: StockMap, p: ProductId, row: Stock): StockMap {
    stock[p := if p in stock then Bumped(row) else row]
  }

  /** Rows written back: known ones with the next version, unknown ones as they are. */
  function Saved(stock: StockMap, rows: StockMap): StockMap {
    map p | p in stock.Keys + rows.Keys ::
      if p !in rows then stock[p] else if p in stock then Bumped(rows[p]) else rows[p]
  }

  predicate SameVersions(stock: StockMap, rows: StockMap) {
    forall p | p in rows :: !Stale(stock, p, rows[p])
  }

  lemma RestrictMore(stock: StockMap, ids: set<ProductId>, p: ProductId)
    ensures Restricted(stock, ids + {p})
         == if p in stock then Restricted(stock, ids)[p := stock[p]] else Restricted(stock, ids)
  {
  }

  lemma IdSetStep(ids: seq<ProductId>, i: nat)
    requires i < |ids|
    ensures IdSet(ids[..i + 1]) == IdSet(ids[..i]) + {ids[i]}
  {
    assert forall k | 0 <= k < i :: ids[..i + 1][k] == ids[..i][k];
    assert ids[..i + 1][i] == ids[i];
    forall p | p in IdSet(ids[..i]) ensures p in IdSet(ids[..i + 1]) {
      var k :| 0 <= k < i && ids[..i][k] == p;
      assert ids[..i + 1][k] == p;
    }
  }

  /** Saving one more item: the item's row is still the one the transaction started from. */
  lemma SaveMore(stock: StockMap, rows: StockMap, done: set<ProductId>, p: ProductId)
    requires p in rows && p !in done
    ensures WithRow(Saved(stock, Restricted(rows, done)), p, rows[p]) == Saved(stock, Restricted(rows, done + {p}))
    ensures Stale(Saved(stock, Restricted(rows, done)), p, rows[p]) <==> Stale(stock, p, rows[p])
  {
  }

  lemma VersionsMore(stock: StockMap, rows: StockMap, done: set<ProductId>, p: ProductId)
    requires p in rows && SameVersions(stock, Restricted(rows, done))
    requires !Stale(stock, p, rows[p])
    ensures SameVersions(stock, Restricted(rows, done + {p}))
  {
    forall q | q in Restricted(rows, done + {p}) ensures !Stale(stock, q, rows[q]) {
      assert q == p || q in Restricted(rows, done);
    }
  }

  class InventoryRepository {
    const session: Session

    constructor (session: Session)
      ensures this.session == session
    {
      this.session := session;
    }

    /** One object per row found; those rows stay locked until the session finishes. */
    method GetByProductIds(ids: seq<ProductId>) returns (inventory: Inventory)
      modifies session`locked
      ensures KeyedByProduct(inventory) && fresh(inventory.Values)
      ensures forall p :: p in inventory <==> p in ids && p in session.view.stock
      ensures forall p | p in inventory :: inventory[p].Value() == session.view.stock[p]
      ensures RowsOf(inventory) == Restricted(session.view.stock, IdSet(ids))
      ensures session.locked == old(session.locked) + if session.locking then inventory.Keys else {}
    {
      inventory := map[];
      var stock := session.view.stock;
      for i := 0 to |ids|
        invariant KeyedByProduct(inventory) && fresh(inventory.Values)
        invariant session.locked == old(session.locked)
        invariant RowsOf(inventory) == Restricted(stock, IdSet(ids[..i]))
      {
        var p := ids[i];
        IdSetStep(ids, i);
        ghost var before := RowsOf(inventory);
        RestrictMore(stock, IdSet(ids[..i]), p);
        if p in stock && p !in inventory {
          var item := new D.InventoryItem(p, stock[p]);
          ghost var others := inventory.Values;
          inventory := inventory[p := item];
          assert inventory.Values <= others + {item};
          assert RowsOf(inventory) == before[p := stock[p]];
        } else {
          assert p in stock ==> before[p := stock[p]] == before;
        }
      }
      assert ids[..|ids|] == ids;
      assert forall p | p in inventory :: RowsOf(inventory)[p] == inventory[p].Value();
      assert forall p :: p in inventory <==> p in RowsOf(inventory);
      session.locked := session.locked + if session.locking then inventory.Keys else {};
    }

    /** The locking read of the rows of an order's products. */
    method GetForOrder(order: D.Order) returns (inventory: Inventory)
      modifies session`locked
      ensures KeyedByProduct(inventory) && fresh(inventory.Values)
      ensures RowsOf(inventory) == Restricted(session.view.stock, ProductsOf(order.items))
      ensures session.locked == old(session.locked) + if session.locking then inventory.Keys else {}
    {
      var ids := seq(|order.items|, i requires 0 <= i < |order.items| => order.items[i].product);
      assert IdSet(ids) == ProductsOf(order.items) by {
        assert forall i | 0 <= i < |ids| :: ids[i] == order.items[i].product;
      }
      inventory := GetByProductIds(ids);
    }

    /**
     * The versioned UPDATE, or an insert when there is no row: an existing row is written, as the next version,
     * exactly when it still has the version that the item was read with.
     */
    method Save(item: D.InventoryItem) returns (r: Option<Error>)
      modifies session`view
      ensures var p, before := item.productId, old(session.view);
              if p !in before.stock then
                r == None && session.view == before.(stock := before.stock[p := item.Value()])
              else if before.stock[p].version == item.version then
                r == None
                && session.view == before.(stock := before.stock[p := Stock(item.quantity, item.reserved, item.version + 1)])
              else r == Some(VersionConflict) && session.view == before
    {
      var p := item.productId;
      if p !in session.view.stock {
        session.view := session.view.(stock := session.view.stock[p := item.Value()]);
        return None;
      }
      if session.view.stock[p].version != item.version {
        return Some(VersionConflict);
      }
      var next := Stock(item.quantity, item.reserved, item.version + 1);
      session.view := session.view.(stock := session.view.stock[p := next]);
      r := None;
    }

    /**
     * Two items that hold the same version of one row, saved one after the other: the second is always
     * refused and what the first left stays. (Without a row, the first inserts it and the second updates it.)
     */
    method SaveBoth(first: D.InventoryItem, second: D.InventoryItem) returns (a: Option<Error>, b: Option<Error>)
      requires first.productId == second.productId && first.version == second.version
      modifies session`view
      ensures var p, before := first.productId, old(session.view).stock;
              p in before ==>
                && b == Some(VersionConflict)
                && (a == None <==> before[p].version == first.version)
                && session.view == (if a == None
                     then old(session.view).(stock := before[p := Stock(first.quantity, first.reserved, first.version + 1)])
                     else old(session.view))
      ensures first.productId !in old(session.view).stock ==>
                && a == None && b == None
                && session.view == old(session.view).(stock := old(session.view).stock[
                     first.productId := Stock(second.quantity, second.reserved, second.version + 1)])
    {
      a := Save(first);
      b := Save(second);
    }

    /** One turn of the loop of SaveMany, after the items of `done`. */
    method SaveNext(item: D.InventoryItem, ghost stock: StockMap, ghost rows: StockMap, ghost done: set<ProductId>)
      returns (r: Option<Error>)
      requires item.productId in rows && rows[item.productId] == item.Value() && item.productId !in done
      requires session.view.stock == Saved(stock, Restricted(rows, done))
      requires SameVersions(stock, Restricted(rows, done))
      modifies session`view
      ensures r.Some? ==> r.value == VersionConflict && Stale(stock, item.productId, item.Value())
      ensures r.Some? ==> session.view == old(session.view)
      ensures r.None? ==> session.view == old(session.view).(stock := Saved(stock, Restricted(rows, done + {item.productId})))
      ensures r.None? ==> SameVersions(stock, Restricted(rows, done + {item.productId}))
    {
      SaveMore(stock, rows, done, item.productId);
      r := Save(item);
      if r.None? {
        VersionsMore(stock, rows, done, item.productId);
      }
    }

    /**
     * Saves every item, in any order, until one meets another version. The items of `done` are then
     * written, each once, and nothing else: a conflict leaves them in the session.
     */
    method SaveMany(inventory: Inventory) returns (r: Option<Error>, ghost done: set<ProductId>)
      requires KeyedByProduct(inventory)
      modifies session`view
      ensures r.None? <==> SameVersions(old(session.view).stock, old(RowsOf(inventory)))
      ensures done <= inventory.Keys && SameVersions(old(session.view).stock, Restricted(old(RowsOf(inventory)), done))
      ensures session.view
           == old(session.view).(stock := Saved(old(session.view).stock, Restricted(old(RowsOf(inventory)), done)))
      ensures r.None? ==> done == inventory.Keys && Restricted(old(RowsOf(inventory)), done) == old(RowsOf(inventory))
      ensures r.Some? ==> r.value == VersionConflict && done != inventory.Keys
      ensures r.None? <==> forall p | p in inventory && p in old(session.view).stock ::
                old(session.view).stock[p].version == inventory[p].version
      ensures r.None? ==> forall p | p in inventory ::
                && p in session.view.stock
                && session.view.stock[p] == Stock(inventory[p].quantity, inventory[p].reserved,
                     inventory[p].version + if p in old(session.view).stock then 1 else 0)
    {
      ghost var start, rows := session.view, RowsOf(inventory);
      done := {};
      var left := inventory.Keys;
      assert Saved(start.stock, Restricted(rows, {})) == start.stock;
      while left != {}
        invariant done + left == rows.Keys && done !! left
        invariant forall p | p in inventory :: inventory[p].Value() == rows[p]
        invariant SameVersions(start.stock, Restricted(rows, done))
        invariant session.view == start.(stock := Saved(start.stock, Restricted(rows, done)))
        invariant rows.Keys == inventory.Keys
        decreases left
      {
        var p :| p in left;
        assert inventory[p].productId == p;
        r := SaveNext(inventory[p], start.stock, rows, done);
        if r.Some? {
          return;
        }
        left, done := left - {p}, done + {p};
      }
      assert Restricted(rows, done) == rows;
      r := None;
    }
  }

  class OrderRepository {
    const session: Session

    constructor (session: Session)
      ensures this.session == session
    {
      this.session := session;
    }

    method GetById(oid: OrderId) returns (r: Option<D.Order>)
      ensures r.Some? <==> oid in session.view.orders
      ensures r.Some? ==> fresh(r.value) && r.value.id == oid && session.view.orders[oid] == RecordOf(r.value)
    {
      if oid !in session.view.orders {
        return None;
      }
      var row := session.view.orders[oid];
      var order := new D.Order(oid, row.customer, row.lines, row.status);
      r := Some(order);
    }

    /** The effect of OrderTables.OrderRepository.Save on the orders that its tables store. */
    method Save(order: D.Order)
      modifies session`view
      ensures session.view == old(session.view).(orders := WithOrder(old(session.view).orders, order.id, RecordOf(order)))
    {
      var record := OrderRecord(order.customer, order.status, order.items);
      session.view := session.view.(orders := WithOrder(session.view.orders, order.id, record));
    }
  }

  function RecordOf(order: D.Order): OrderRecord
    reads order
  {
    OrderRecord(order.customer, order.status, order.items)
  }

  class IdempotencyRepository {
    const session: Session

    constructor (session: Session)
      ensures this.session == session
    {
      this.session := session;
    }

    method Get(key: Key) returns (r: Option<KeyRow>)
      ensures r == if key in session.view.keys then Some(session.view.keys[key]) else None
    {
      r := if key in session.view.keys then Some(session.view.keys[key]) else None;
    }

    /** The insert; the primary key refuses a second row. */
    method Save(key: Key, row: KeyRow) returns (r: Option<Error>)
      modifies session`view
      ensures if key in old(session.view).keys then r == Some(DuplicateKey) && session.view == old(session.view)
              else r.None? && session.view == old(session.view).(keys := old(session.view).keys[key := row])
    {
      if key in session.view.keys {
        return Some(DuplicateKey);
      }
      session.view := session.view.(keys := session.view.keys[key := row]);
      r := None;
    }
  }

  /**
   * What moving the lines raises: the first fault, or, when a shortage meets a row that started below zero,
   * possibly the error of the rollback.
   */
  predicate Raised(m: Move, stock: StockMap, lines: seq<Line>, e: Error) {
    var v := Verdict(m, stock, lines);
    && v.Some?
    && (e == v.value
        || (m.Reserve? && v.value.Insufficient? && e == OverRelease && !NonNegative(stock, ProductsOf(lines))))
  }

  /** An attempt fails as the atomic creation does; see Raised. */
  predicate FailedAs(catalog: Catalog, db: Db, req: Request, oid: OrderId, e: Error) {
    var atomic := CreateOrder(catalog, db, req, oid);
    && atomic.Failed?
    && (e == atomic.error
        || (atomic.error.Insufficient? && e == OverRelease && !NonNegative(db.stock, Wanted(req))))
  }

  /**
   * What one attempt at creating an order must do. A replay is the atomic replay on the database at the
   * start; a new order is the atomic creation on the database at the time of the writes; a failure is the
   * failure of the atomic creation on the stock as it is read, or the loss of the race for the key.
   */
  predicate OnceOk(catalog: Catalog, req: Request, oid: OrderId, m: Moments, end: Db, r: Result<OrderResult>) {
    match r
    case Ok(result) =>
      if result.fromCache then CreateOrder(catalog, m.start, req, oid) == Replayed(result) && end == m.start
      else !Hit(req, m.start.keys) && CreateOrder(catalog, m.writing, req, oid) == Created(end, result)
    case Err(e) =>
      || FailedAs(catalog, m.reading.(keys := m.start.keys), req, oid, e)
      || (e == DuplicateKey && !Hit(req, m.start.keys) && Hit(req, m.writing.keys)
          && CreateOrder(catalog, m.writing.(keys := m.start.keys), req, oid).Created?)
  }

  /** Saving the moved rows over stock that has not changed under them is the atomic settlement. */
  lemma SavedIsSettled(m: Move, stock: StockMap, lines: seq<Line>)
    requires Clear(m, Restricted(stock, ProductsOf(lines)), lines)
    ensures Clear(m, stock, lines)
    ensures SameVersions(stock, After(m, Restricted(stock, ProductsOf(lines)), lines))
    ensures Saved(stock, After(m, Restricted(stock, ProductsOf(lines)), lines)) == Settled(m, stock, lines)
  {
    SameFaults(m, Restricted(stock, ProductsOf(lines)), stock, lines);
    ClearIsPositive(m, stock, lines);
  }

  /** Moving lines never raises a version conflict. */
  lemma NeverConflicts(stock: StockMap, lines: seq<Line>)
    ensures !Raised(Move.Reserve, stock, lines, VersionConflict)
  {
    assert forall i | 0 <= i < |lines| :: FaultOf(Move.Reserve, stock, lines, i) != Some(VersionConflict);
  }

  /** The first product of the request, in request order, that is missing or inactive stops it. */
  method CheckProducts(catalog: Catalog, items: seq<Want>) returns (r: Option<Error>)
    ensures r == None <==>
              forall i | 0 <= i < |items| :: items[i].product in catalog && catalog[items[i].product].active
    ensures r != None ==>
              exists i ::
                && 0 <= i < |items| && r == Some(ProductNotFound(items[i].product))
                && (items[i].product !in catalog || catalog[items[i].product].active == false)
                && forall j | 0 <= j < i :: items[j].product in catalog && catalog[items[j].product].active
    ensures r == match FirstUnsellable(catalog, items)
                 case None => None
                 case Some(p) => Some(ProductNotFound(p))
  {
    for i := 0 to |items|
      invariant forall j | 0 <= j < i :: items[j].product in catalog && catalog[items[j].product].active
      invariant FirstUnsellable(catalog, items) == FirstUnsellable(catalog, items[i..])
    {
      if items[i].product !in catalog || !catalog[items[i].product].active {
        return Some(ProductNotFound(items[i].product));
      }
    }
    r := None;
  }

  /** Reserves or releases all lines of an order in memory. */
  method MoveAll(m: Move, reservation: OrderReservationService, order: D.Order, items: Inventory)
    returns (r: Option<Error>)
    requires KeyedByProduct(items)
    modifies items.Values
    ensures match r
            case Some(e) => Raised(m, old(RowsOf(items)), order.items, e)
            case None => Clear(m, old(RowsOf(items)), order.items) && RowsOf(items) == After(m, old(RowsOf(items)), order.items)
  {
    ghost var read := RowsOf(items);
    if m.Reserve? {
      r := reservation.Reserve(order, items);
      ProductsOfPrefix(order.items, FirstFault(m, read, order.items));
    } else {
      r := reservation.Release(order, items);
    }
  }

  /** The rows of the order's own products decide what is raised. */
  lemma RaisedByOwnRows(m: Move, stock: StockMap, lines: seq<Line>, e: Error)
    ensures Raised(m, Restricted(stock, ProductsOf(lines)), lines, e) <==> Raised(m, stock, lines, e)
    ensures Clear(m, Restricted(stock, ProductsOf(lines)), lines) <==> Clear(m, stock, lines)
  {
    SameFaults(m, Restricted(stock, ProductsOf(lines)), stock, lines);
  }

  /**
   * The part both use cases share: read and lock the stock of an order's products, reserve or release all
   * lines in memory, and let others commit what the locks allow.
   */
  method LockAndMove(m: Move, repository: InventoryRepository, reservation: OrderReservationService,
                     order: D.Order, rival: Rival)
    returns (items: Inventory, r: Option<Error>)
    requires repository.session.locked == {}
    modifies repository.session
    ensures KeyedByProduct(items) && fresh(items.Values)
    ensures var session := repository.session;
            && session.locked == (if session.locking then ProductsOf(order.items) * old(session.view).stock.Keys else {})
            && session.view == Overlaid(old(session.view), Allowed(rival, session.locked))
            && session.store == Overlaid(old(session.store), Allowed(rival, session.locked))
    ensures r.Some? ==> Raised(m, old(repository.session.view).stock, order.items, r.value)
    ensures r.None? ==>
              var read := Restricted(old(repository.session.view).stock, ProductsOf(order.items));
              Clear(m, read, order.items) && RowsOf(items) == After(m, read, order.items)
  {
    ghost var stock := repository.session.view.stock;
    items := repository.GetForOrder(order);
    assert items.Keys == ProductsOf(order.items) * stock.Keys by {
      assert items.Keys == RowsOf(items).Keys;
    }
    r := MoveAll(m, reservation, order, items);
    if r.Some? {
      RaisedByOwnRows(m, stock, order.items, r.value);
    }
    ghost var moved := RowsOf(items);
    repository.session.Others(rival);
    assert RowsOf(items) == moved;
  }

  /** Rows moved from what was read and locked settle the stock as it is when they are written. */
  lemma MovedIsSettled(m: Move, stock: StockMap, rival: Rival, lines: seq<Line>)
    requires Clear(m, Restricted(stock, ProductsOf(lines)), lines)
    ensures var later := stock + Allowed(rival, ProductsOf(lines) * stock.Keys).stock;
            var moved := After(m, Restricted(stock, ProductsOf(lines)), lines);
            && Clear(m, later, lines)
            && SameVersions(later, moved)
            && Saved(later, moved) == Settled(m, later, lines)
  {
    ClearIsPositive(m, Restricted(stock, ProductsOf(lines)), lines);
    var later := stock + Allowed(rival, ProductsOf(lines) * stock.Keys).stock;
    assert Restricted(later, ProductsOf(lines)) == Restricted(stock, ProductsOf(lines));
    SavedIsSettled(m, later, lines);
  }

  /** The outcome of writing a confirmed order, these stock rows and the key. */
  predicate PersistOk(now: Db, rows: StockMap, req: Request, oid: OrderId, lines: seq<Line>, end: Db, r: Result<OrderResult>) {
    var order := OrderRecord(req.customer, Confirmed, lines);
    if Hit(req, now.keys) then r == Err(DuplicateKey)
    else
      && r == Ok(FreshResult(oid, order))
      && end == Db(Saved(now.stock, rows), WithOrder(now.orders, oid, order),
                   if HasKey(req) then now.keys[req.key.value := KeyRowFor(oid, order)] else now.keys)
  }

  /** The outcome of the statements from the locking read on. */
  predicate PlacedOk(reading: Db, writing: Db, req: Request, oid: OrderId, lines: seq<Line>, end: Db, r: Result<OrderResult>) {
    var read := Restricted(reading.stock, ProductsOf(lines));
    if Clear(Move.Reserve, read, lines) then
      PersistOk(writing, After(Move.Reserve, read, lines), req, oid, lines, end, r)
    else r.Err? && Raised(Move.Reserve, reading.stock, lines, r.error)
  }

  /** An order that cannot be reserved fails as the atomic creation does on the stock as it is read. */
  lemma RefusedIsOnce(catalog: Catalog, req: Request, oid: OrderId, m: Moments, e: Error)
    requires req.items != [] && !Hit(req, m.start.keys) && FirstUnsellable(catalog, req.items).None?
    requires Raised(Move.Reserve, m.reading.stock, Priced(catalog, req.items), e)
    ensures FailedAs(catalog, m.reading.(keys := m.start.keys), req, oid, e)
  {
    WantedAreProducts(catalog, req);
  }

  /** An order whose rows are written meets its key, or is the atomic creation at the time of the writes. */
  lemma PersistedIsOnce(catalog: Catalog, req: Request, oid: OrderId, m: Moments, rows: StockMap, end: Db, r: Result<OrderResult>)
    requires req.items != [] && !Hit(req, m.start.keys) && FirstUnsellable(catalog, req.items).None?
    requires oid !in m.writing.orders && Clear(Move.Reserve, m.writing.stock, Priced(catalog, req.items))
    requires Saved(m.writing.stock, rows) == Settled(Move.Reserve, m.writing.stock, Priced(catalog, req.items))
    requires PersistOk(m.writing, rows, req, oid, Priced(catalog, req.items), end, r)
    ensures OnceOk(catalog, req, oid, m, end, r)
  {
    assert Hit(req, m.writing.keys) ==> CreateOrder(catalog, m.writing.(keys := m.start.keys), req, oid).Created?;
  }

  lemma PlacedIsOnce(catalog: Catalog, req: Request, oid: OrderId, m: Moments, rivals: Rivals, end: Db, r: Result<OrderResult>)
    requires m == Met(m.start, rivals, Wanted(req), true) && oid !in m.writing.orders
    requires req.items != [] && !Hit(req, m.start.keys) && FirstUnsellable(catalog, req.items).None?
    requires PlacedOk(m.reading, m.writing, req, oid, Priced(catalog, req.items), end, r)
    ensures OnceOk(catalog, req, oid, m, end, r)
  {
    var lines := Priced(catalog, req.items);
    WantedAreProducts(catalog, req);
    var read := Restricted(m.reading.stock, ProductsOf(lines));
    if Clear(Move.Reserve, read, lines) {
      MovedIsSettled(Move.Reserve, m.reading.stock, rivals.during, lines);
      PersistedIsOnce(catalog, req, oid, m, After(Move.Reserve, read, lines), end, r);
    } else {
      RefusedIsOnce(catalog, req, oid, m, r.error);
    }
  }

  /** The error e of an item that does not fit, or, after a shortage, perhaps the error of the rollback. */
  predicate Misfit(stock: StockMap, req: Request, i: nat, e: Error) {
    || FirstMisfit(stock, req.items, i, e)
    || (e == OverRelease && !NonNegative(stock, Wanted(req)) && i < |req.items| && req.items[i].product in stock
        && FirstMisfit(stock, req.items, i,
             Insufficient(req.items[i].product, req.items[i].quantity,
                          stock[req.items[i].product].quantity - stock[req.items[i].product].reserved
                            - UnitsWanted(req.items[..i], req.items[i].product))))
  }

  /**
   * OnceOk, told in terms of the request, the catalog and the rows alone. An empty order and a product that
   * is not on sale are refused, a stored key is replayed, and otherwise every item is reserved and ordered as
   * asked, unless one does not fit or another request has stored the key meanwhile.
   */
  ghost predicate Answered(catalog: Catalog, req: Request, oid: OrderId, m: Moments, end: Db, r: Result<OrderResult>) {
    if req.items == [] then r == Err(EmptyOrder)
    else if CarriesStoredKey(req, m.start.keys) then
      var row := m.start.keys[req.key.value];
      && (match Parsed(row.body.total)
          case Some(total) => r == Ok(OrderResult(row.orderId, total, row.body.status, true)) && end == m.start
          case None => r == Err(BadStoredTotal))
      && (KeysOk(m.start.orders, m.start.keys) ==>
            && row.orderId in m.start.orders
            && r == Ok(OrderResult(row.orderId, Total(m.start.orders[row.orderId].lines), "CONFIRMED", true)))
    else if !AllOnSale(catalog, req.items) then
      exists i: nat :: FirstOffSale(catalog, req.items, i) && r == Err(ProductNotFound(req.items[i].product))
    else
      match r
      case Ok(result) => Fulfilled(catalog, req, oid, m.writing, end, result)
      case Err(e) =>
        || (exists i: nat :: Misfit(m.reading.stock, req, i, e))
        || (e == DuplicateKey && CarriesStoredKey(req, m.writing.keys))
  }

  lemma OnceIsAnswered(catalog: Catalog, req: Request, oid: OrderId, m: Moments, end: Db, r: Result<OrderResult>)
    requires OnceOk(catalog, req, oid, m, end, r)
    ensures Answered(catalog, req, oid, m, end, r)
  {
    if req.items == [] {
      assert CreateOrder(catalog, m.start, req, oid) == Failed(EmptyOrder);
    } else if CarriesStoredKey(req, m.start.keys) {
      ReplayIsAnswered(catalog, req, oid, m, end, r);
    } else if r.Ok? {
      FreshIsAnswered(catalog, req, oid, m, end, r.value);
    } else {
      RefusalIsAnswered(catalog, req, oid, m, end, r.error);
    }
  }

  lemma ReplayIsAnswered(catalog: Catalog, req: Request, oid: OrderId, m: Moments, end: Db, r: Result<OrderResult>)
    requires OnceOk(catalog, req, oid, m, end, r) && req.items != [] && CarriesStoredKey(req, m.start.keys)
    ensures Answered(catalog, req, oid, m, end, r)
  {
    CreateOrderMeans(catalog, req, oid, m.start);
    StillHits(catalog, req, oid, m);
  }

  /** A creation whose key was stored at the start is the same replay on every later database with those keys. */
  lemma StillHits(catalog: Catalog, req: Request, oid: OrderId, m: Moments)
    requires req.items != [] && CarriesStoredKey(req, m.start.keys)
    ensures CreateOrder(catalog, m.reading.(keys := m.start.keys), req, oid) == CreateOrder(catalog, m.start, req, oid)
    ensures !CreateOrder(catalog, m.writing.(keys := m.start.keys), req, oid).Created?
  {
  }

  lemma FreshIsAnswered(catalog: Catalog, req: Request, oid: OrderId, m: Moments, end: Db, result: OrderResult)
    requires OnceOk(catalog, req, oid, m, end, Ok(result)) && !CarriesStoredKey(req, m.start.keys)
    ensures Fulfilled(catalog, req, oid, m.writing, end, result)
  {
    FirstUnsellableMeans(catalog, req.items);
    CreatedMeans(catalog, req, oid, m.writing);
  }

  lemma RefusalIsAnswered(catalog: Catalog, req: Request, oid: OrderId, m: Moments, end: Db, e: Error)
    requires OnceOk(catalog, req, oid, m, end, Err(e)) && req.items != [] && !CarriesStoredKey(req, m.start.keys)
    ensures Answered(catalog, req, oid, m, end, Err(e))
  {
    var db := m.reading.(keys := m.start.keys);
    if FailedAs(catalog, db, req, oid, e) {
      CreateOrderMeans(catalog, req, oid, db);
      var atomic := CreateOrder(catalog, db, req, oid).error;
      if AllOnSale(catalog, req.items) {
        var i: nat :| FirstMisfit(db.stock, req.items, i, atomic);
        assert Misfit(m.reading.stock, req, i, e);
      }
    } else {
      FirstUnsellableMeans(catalog, req.items);
    }
  }

  class CreateOrderUseCase {
    const catalog: Catalog
    const session: Session
    const inventory: InventoryRepository
    const orders: OrderRepository
    const idempotency: IdempotencyRepository
    const reservation: OrderReservationService

    constructor (catalog: Catalog, session: Session)
      ensures this.catalog == catalog && this.session == session && Wired()
    {
      this.catalog, this.session := catalog, session;
      inventory := new InventoryRepository(session);
      orders := new OrderRepository(session);
      idempotency := new IdempotencyRepository(session);
      reservation := new OrderReservationService();
    }

    /** All repositories work on the one session. */
    predicate Wired() {
      inventory.session == session && orders.session == session && idempotency.session == session
    }

    /**
     * One attempt, step by step. On a database that honours row locks it does exactly what OnceOk and
     * Answered say, whatever others commit, and a version conflict cannot happen.
     */
    method ExecuteOnce(req: Request, oid: OrderId, rivals: Rivals) returns (r: Result<OrderResult>)
      requires Wired() && session.locked == {}
      modifies session
      ensures var m := Met(old(session.view), rivals, Wanted(req), session.locking);
              && (session.locking && oid !in m.writing.orders ==>
                    OnceOk(catalog, req, oid, m, session.view, r) && Answered(catalog, req, oid, m, session.view, r))
              && (old(session.store) == old(session.view) ==>
                    session.store == m.writing || (session.store == m.start && (r.Ok? ==> r.value.fromCache)))
      ensures session.locking ==> r != Err(VersionConflict)
      ensures !session.locking ==> session.locked == {}
    {
      ghost var m := Met(session.view, rivals, Wanted(req), session.locking);
      var early := CheckRequest(req, oid, m);
      if early.Some? {
        OnceIsAnswered(catalog, req, oid, m, session.view, early.value);
        return early.value;
      }
      var lines := Priced(catalog, req.items);
      WantedAreProducts(catalog, req);
      session.Others(rivals.before);
      assert Allowed(rivals.before, {}) == rivals.before;
      assert session.view == m.reading;
      r := Place(req, oid, rivals.during, lines);
      if session.locking && oid !in m.writing.orders {
        PlacedIsOnce(catalog, req, oid, m, rivals, session.view, r);
        OnceIsAnswered(catalog, req, oid, m, session.view, r);
      }
    }

    /** The statements before any stock is read: they end the attempt, or the lines can be priced. */
    method CheckRequest(req: Request, ghost oid: OrderId, ghost m: Moments) returns (r: Option<Result<OrderResult>>)
      requires Wired() && m.start == session.view
      ensures r.None? ==> req.items != [] && !Hit(req, m.start.keys) && FirstUnsellable(catalog, req.items).None?
      ensures r.Some? ==> OnceOk(catalog, req, oid, m, m.start, r.value)
      ensures r.Some? ==> r.value != Err(VersionConflict) && (r.value.Ok? ==> r.value.value.fromCache)
    {
      if req.items == [] {
        return Some(Err(EmptyOrder));
      }
      if HasKey(req) {
        var existing := idempotency.Get(req.key.value);
        if existing.Some? {
          return Some(FromCache(existing.value));
        }
      }
      var unsellable := CheckProducts(catalog, req.items);
      if unsellable.Some? {
        return Some(Err(unsellable.value));
      }
      r := None;
    }

    /** The rest of an attempt once the lines are priced: lock, reserve, confirm, save. */
    method Place(req: Request, oid: OrderId, rival: Rival, lines: seq<Line>) returns (r: Result<OrderResult>)
      requires Wired() && session.locked == {}
      modifies session
      ensures var start := old(session.view);
              var later := Later(start, rival, ProductsOf(lines), session.locking);
              && (session.locking ==> PlacedOk(start, later, req, oid, lines, session.view, r) && r != Err(VersionConflict))
              && (old(session.store) == start ==> session.store == later)
      ensures r.Ok? ==> !r.value.fromCache
      ensures !session.locking ==> session.locked == {}
    {
      ghost var start := session.view;
      var order := new D.Order(oid, req.customer, lines);
      var items, short := LockAndMove(Move.Reserve, inventory, reservation, order, rival);
      SameFaults(Move.Reserve, Restricted(start.stock, ProductsOf(lines)), start.stock, lines);
      if short.Some? {
        NeverConflicts(start.stock, lines);
        return Err(short.value);
      }
      if session.locking {
        MovedIsSettled(Move.Reserve, start.stock, rival, lines);
      }
      r := Persist(req, order, items);
    }

    /** Confirms the order, then writes order, stock rows and key. */
    method Persist(req: Request, order: D.Order, items: Inventory) returns (r: Result<OrderResult>)
      requires Wired() && KeyedByProduct(items) && order.status == Pending && order.customer == req.customer
      modifies session`view, order
      ensures r.Ok? ==> !r.value.fromCache
      ensures !SameVersions(old(session.view).stock, old(RowsOf(items))) ==> r == Err(VersionConflict)
      ensures SameVersions(old(session.view).stock, old(RowsOf(items))) ==>
                PersistOk(old(session.view), old(RowsOf(items)), req, order.id, order.items, session.view, r)
    {
      var refused := order.Confirm();
      assert refused.None?;
      orders.Save(order);
      var conflict: Option<Error>;
      ghost var done: set<ProductId>;
      conflict, done := inventory.SaveMany(items);
      if conflict.Some? {
        return Err(conflict.value);
      }
      r := Answer(req, order);
    }

    /** Builds the result and, with a key, stores it for later retries. */
    method Answer(req: Request, order: D.Order) returns (r: Result<OrderResult>)
      requires Wired()
      modifies session`view
      ensures r == if Hit(req, old(session.view).keys) then Err(DuplicateKey) else Ok(FreshResult(order.id, RecordOf(order)))
      ensures r.Ok? ==> session.view == old(session.view).(keys :=
                if HasKey(req) then old(session.view).keys[req.key.value := KeyRowFor(order.id, RecordOf(order))]
                else old(session.view).keys)
    {
      var total := order.TotalAmount();
      if HasKey(req) {
        var body := Body(order.id, StatusText(order.status), Printed(total));
        var taken := idempotency.Save(req.key.value, KeyRow(order.id, body, 201));
        if taken.Some? {
          return Err(taken.value);
        }
      }
      r := Ok(OrderResult(order.id, total, StatusText(order.status), false));
    }

    /**
     * The bounded retry. Attempt i uses the fresh order id oids[i] and meets the rivals of that attempt.
     * The session is not rolled back between attempts. `answers` are the answers of the attempts made: a
     * lock error is tried again, up to three times in all, and any other answer is final.
     */
    method Execute(req: Request, oids: seq<OrderId>, rivals: seq<Rivals>)
      returns (r: Result<OrderResult>, answers: seq<Result<OrderResult>>)
      requires Wired() && |oids| == |rivals| == MAX_RETRIES && session.locked == {}
      modifies session
      ensures 1 <= |answers| <= 3 && r == answers[|answers| - 1]
      ensures forall i | 0 <= i < |answers| - 1 :: answers[i] == Err(VersionConflict)
      ensures r == Err(VersionConflict) ==> |answers| == 3
      ensures session.locking ==>
                var m := Met(old(session.view), rivals[0], Wanted(req), true);
                && |answers| == 1
                && r != Err(VersionConflict)
                && (oids[0] !in m.writing.orders ==>
                      OnceOk(catalog, req, oids[0], m, session.view, r) && Answered(catalog, req, oids[0], m, session.view, r))
                && (old(session.store) == old(session.view) ==>
                      session.store == m.writing || (session.store == m.start && (r.Ok? ==> r.value.fromCache)))
    {
      answers := [];
      r := Err(VersionConflict);
      for attempt := 0 to MAX_RETRIES
        invariant |answers| == attempt && session.locked == {}
        invariant forall i | 0 <= i < attempt :: answers[i] == Err(VersionConflict)
        invariant r == Err(VersionConflict)
        invariant session.locking ==> attempt == 0
        invariant attempt == 0 ==> session.view == old(session.view) && session.store == old(session.store)
      {
        r := ExecuteOnce(req, oids[attempt], rivals[attempt]);
        answers := answers + [r];
        if r != Err(VersionConflict) {
          return;
        }
      }
    }
  }

  const MAX_RETRIES := 3

  /**
   * A whole request on a session of its own: the use case inside the commit-or-rollback boundary. A new
   * order is committed as one atomic creation on what the others committed; a replay returns what the
   * stored key says; a replay or a failure commits nothing of its own.
   */
  method HandleCreate(useCase: CreateOrderUseCase, req: Request, oids: seq<OrderId>, rivals: seq<Rivals>)
    returns (r: Result<OrderResult>)
    requires useCase.Wired() && |oids| == |rivals| == MAX_RETRIES
    requires useCase.session.view == useCase.session.store && useCase.session.locked == {}
    modifies useCase.session
    ensures useCase.session.view == useCase.session.store && useCase.session.locked == {}
    ensures var m := Met(old(useCase.session.store), rivals[0], Wanted(req), true);
            && (useCase.session.locking && oids[0] !in m.writing.orders ==>
                  && OnceOk(useCase.catalog, req, oids[0], m, useCase.session.store, r)
                  && Answered(useCase.catalog, req, oids[0], m, useCase.session.store, r))
            && (useCase.session.locking && r.Err? ==>
                  useCase.session.store == m.start || useCase.session.store == m.writing)
  {
    var answers: seq<Result<OrderResult>>;
    r, answers := useCase.Execute(req, oids, rivals);
    useCase.session.Finish(r.Err?);
  }

  /** A database with one order as it was read, its customer aside. */
  function AsRead(db: Db, oid: OrderId, order: OrderRecord): Db {
    db.(orders := WithOrder(db.orders, oid, order))
  }

  /**
   * What a cancellation must do. Its order is read first, without a lock, and everything else when stock is
   * read and written: it is the atomic cancellation of the order as it was read.
   */
  predicate CancelOnceOk(oid: OrderId, m: Moments, end: Db, r: Option<Error>) {
    if oid !in m.start.orders then r == Some(OrderNotFound) && end == m.start
    else
      match r
      case Some(e) => CancelOrder(AsRead(m.reading, oid, m.start.orders[oid]), oid) == Err(e)
      case None => CancelOrder(AsRead(m.writing, oid, m.start.orders[oid]), oid) == Ok(end)
  }

  /** The database with one order as it was read; only its customer is read again when it is saved. */
  function WithRead(db: Db, oid: OrderId, order: OrderRecord): Db {
    Db(db.stock,
       db.orders[oid := OrderRecord(if oid in db.orders then db.orders[oid].customer else order.customer,
                                    order.status, order.lines)],
       db.keys)
  }

  /** CancelOnceOk, told in terms of the order and the rows alone. */
  ghost predicate CancelAnswered(oid: OrderId, m: Moments, end: Db, r: Option<Error>) {
    if oid !in m.start.orders then r == Some(OrderNotFound) && end == m.start
    else
      match r
      case Some(e) => CancellationOk(oid, WithRead(m.reading, oid, m.start.orders[oid]), Err(e))
      case None => CancellationOk(oid, WithRead(m.writing, oid, m.start.orders[oid]), Ok(end))
  }

  lemma CancelIsAnswered(oid: OrderId, m: Moments, end: Db, r: Option<Error>)
    requires CancelOnceOk(oid, m, end, r)
    ensures CancelAnswered(oid, m, end, r)
  {
    if oid in m.start.orders {
      var order := m.start.orders[oid];
      assert AsRead(m.reading, oid, order) == WithRead(m.reading, oid, order);
      assert AsRead(m.writing, oid, order) == WithRead(m.writing, oid, order);
      CancelOrderMeans(oid, WithRead(m.reading, oid, order));
      CancelOrderMeans(oid, WithRead(m.writing, oid, order));
    }
  }

  /** So while no one else commits a change of the order, it is the atomic cancellation of what is committed. */
  lemma UndisturbedCancel(oid: OrderId, m: Moments, end: Db, r: Option<Error>)
    requires CancelOnceOk(oid, m, end, r) && oid in m.start.orders
    requires oid in m.reading.orders && m.reading.orders[oid] == m.start.orders[oid]
    requires oid in m.writing.orders && m.writing.orders[oid] == m.start.orders[oid]
    ensures if r.None? then CancelOrder(m.writing, oid) == Ok(end) else CancelOrder(m.reading, oid) == Err(r.value)
  {
    assert AsRead(m.reading, oid, m.start.orders[oid]).orders == m.reading.orders;
    assert AsRead(m.writing, oid, m.start.orders[oid]).orders == m.writing.orders;
  }

  /** Refused lines, or saved rows and a saved order, are what the cancellation of the order as read must be. */
  lemma ReleasedIsCancelled(oid: OrderId, m: Moments, rivals: Rivals, order: OrderRecord,
                            moved: StockMap, stuck: Option<Error>, end: Db, r: Option<Error>)
    requires m == Met(m.start, rivals, ProductsOf(order.lines), true)
    requires oid in m.start.orders && m.start.orders[oid].status == Pending
    requires order == m.start.orders[oid].(status := Cancelled)
    requires stuck.Some? ==> r == stuck && Raised(Move.Release, m.reading.stock, order.lines, stuck.value)
    requires stuck.None? ==>
               var read := Restricted(m.reading.stock, ProductsOf(order.lines));
               && Clear(Move.Release, read, order.lines) && moved == After(Move.Release, read, order.lines)
               && (r.None? <==> SameVersions(m.writing.stock, moved))
    requires r.None? ==> end == Db(Saved(m.writing.stock, moved), WithOrder(m.writing.orders, oid, order), m.writing.keys)
    ensures CancelOnceOk(oid, m, end, r)
  {
    if stuck.None? {
      MovedIsSettled(Move.Release, m.reading.stock, rivals.during, order.lines);
      CancelledAsRead(m.writing, oid, m.start.orders[oid]);
    }
  }

  class CancelOrderUseCase {
    const session: Session
    const inventory: InventoryRepository
    const orders: OrderRepository
    const reservation: OrderReservationService

    constructor (session: Session)
      ensures this.session == session && Wired()
    {
      this.session := session;
      inventory := new InventoryRepository(session);
      orders := new OrderRepository(session);
      reservation := new OrderReservationService();
    }

    predicate Wired() {
      inventory.session == session && orders.session == session
    }

    /** The products of the order, as the database that this session sees has it. */
    function Products(oid: OrderId): set<ProductId>
      reads session
    {
      if oid in session.view.orders then ProductsOf(session.view.orders[oid].lines) else {}
    }

    /** Cancels, releases and persists, whatever others commit meanwhile. */
    method Execute(oid: OrderId, rivals: Rivals) returns (r: Option<Error>)
      requires Wired() && session.locked == {}
      modifies session
      ensures var m := Met(old(session.view), rivals, old(Products(oid)), session.locking);
              && (session.locking ==> CancelOnceOk(oid, m, session.view, r) && CancelAnswered(oid, m, session.view, r))
              && (old(session.store) == old(session.view) ==>
                    session.store == m.writing || (session.store == m.start && r.Some?))
              && (oid !in m.start.orders ==> session.store == old(session.store))
    {
      ghost var m := Met(session.view, rivals, Products(oid), session.locking);
      var loaded := LoadAndCancel(oid, m);
      if loaded.Err? {
        CancelIsAnswered(oid, m, session.view, Some(loaded.error));
        return Some(loaded.error);
      }
      r := ReleaseAndSave(loaded.value, rivals, m);
      if session.locking {
        CancelIsAnswered(oid, m, session.view, r);
      }
    }

    /** Releases and persists an order that has been cancelled in memory. */
    method ReleaseAndSave(order: D.Order, rivals: Rivals, ghost m: Moments) returns (r: Option<Error>)
      requires Wired() && session.locked == {}
      requires m == Met(session.view, rivals, ProductsOf(order.items), session.locking)
      requires order.id in m.start.orders && m.start.orders[order.id].status == Pending
      requires RecordOf(order) == m.start.orders[order.id].(status := Cancelled)
      modifies session
      ensures session.locking ==> CancelOnceOk(order.id, m, session.view, r)
      ensures old(session.store) == old(session.view) ==> session.store == m.writing
    {
      session.Others(rivals.before);
      assert Allowed(rivals.before, {}) == rivals.before;
      assert session.view == m.reading;
      ghost var record, same := RecordOf(order), session.store == session.view;
      var items, stuck := LockAndMove(Move.Release, inventory, reservation, order, rivals.during);
      assert session.view == m.writing && (same ==> session.store == m.writing) && RecordOf(order) == record;
      ghost var moved := RowsOf(items);
      r := stuck;
      if stuck.None? {
        r := Persist(order, items);
      }
      if session.locking {
        ReleasedIsCancelled(order.id, m, rivals, record, moved, stuck, session.view, r);
      }
    }

    /** The order as it is read, cancelled in memory. */
    method LoadAndCancel(oid: OrderId, ghost m: Moments) returns (r: Result<D.Order>)
      requires Wired() && m.start == session.view
      ensures r.Ok? ==> oid in m.start.orders && m.start.orders[oid].status == Pending
      ensures r.Ok? ==> fresh(r.value) && r.value.id == oid && RecordOf(r.value) == m.start.orders[oid].(status := Cancelled)
      ensures r.Err? ==> CancelOnceOk(oid, m, m.start, Some(r.error))
    {
      var found := orders.GetById(oid);
      if found.None? {
        return Err(OrderNotFound);
      }
      var illegal := found.value.Cancel();
      r := if illegal.Some? then Err(illegal.value) else Ok(found.value);
    }

    /** Writes the order, then the stock rows. */
    method Persist(order: D.Order, items: Inventory) returns (r: Option<Error>)
      requires Wired() && KeyedByProduct(items)
      modifies session`view
      ensures r.None? <==> SameVersions(old(session.view).stock, old(RowsOf(items)))
      ensures var before := old(session.view);
              var saved := Db(Saved(before.stock, old(RowsOf(items))),
                              WithOrder(before.orders, order.id, RecordOf(order)), before.keys);
              r.None? ==> session.view == saved
    {
      orders.Save(order);
      ghost var done: set<ProductId>;
      r, done := inventory.SaveMany(items);
    }
  }

  lemma CancelledAsRead(db: Db, oid: OrderId, order: OrderRecord)
    ensures var read := AsRead(db, oid, order).orders;
            WithOrder(db.orders, oid, order.(status := Cancelled)) == read[oid := read[oid].(status := Cancelled)]
  {
  }

  /** A whole cancellation request: one atomic cancellation of the order as it was read, or nothing of its own. */
  method HandleCancel(useCase: CancelOrderUseCase, oid: OrderId, rivals: Rivals) returns (r: Option<Error>)
    requires useCase.Wired() && useCase.session.view == useCase.session.store && useCase.session.locked == {}
    modifies useCase.session
    ensures useCase.session.view == useCase.session.store && useCase.session.locked == {}
    ensures var m := Met(old(useCase.session.store), rivals, old(useCase.Products(oid)), true);
            && (useCase.session.locking ==>
                  CancelOnceOk(oid, m, useCase.session.store, r) && CancelAnswered(oid, m, useCase.session.store, r))
            && (useCase.session.locking && r.Some? ==>
                  useCase.session.store == m.start || useCase.session.store == m.writing)
  {
    r := useCase.Execute(oid, rivals);
    useCase.session.Finish(r.Some?);
  }
}
