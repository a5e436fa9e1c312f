/** The platform's promises, for every reachable state of every interleaving. */
module Guarantees {
  import opened Values
  import opened Sums
  import opened Moves
  import opened Serial
  import opened Requests
  import opened History
  import opened Protocol
  import opened Refinement

  predicate Reaches(c: Config, steps: seq<Step>, s: State) {
    DbOk(c.base) && Run(c, Start(c), steps, s)
  }

  /** A stock row, committed or private, that belongs to product p and is not oversold. */
  predicate Honest(c: Config, p: ProductId, row: Stock) {
    p in c.base.stock && Sound(row) && row.quantity == c.base.stock[p].quantity
  }

  /** No oversell: not in the committed rows, and not in any transaction's private rows either. */
  lemma NoOversell(c: Config, steps: seq<Step>, s: State)
    requires Reaches(c, steps, s)
    ensures s.db.stock.Keys == c.base.stock.Keys
    ensures forall p | p in s.db.stock :: Honest(c, p, s.db.stock[p])
    ensures forall t, p | t in s.txs && p in s.txs[t].read :: Honest(c, p, s.txs[t].read[p])
    ensures forall t, p | t in s.txs && p in s.txs[t].local :: Honest(c, p, s.txs[t].local[p])
    ensures forall t, p | t in s.txs && p in s.txs[t].writes :: Honest(c, p, s.txs[t].writes[p])
  {
    ReachableInv(c, steps, s);
    HistoryKeeps(c.catalog, c.base, s.log);
    forall t, p | t in s.txs && p in s.txs[t].read
      ensures Honest(c, p, s.txs[t].read[p]) && Honest(c, p, s.txs[t].local[p])
    {
      var tx := s.txs[t];
      assert TxOk(c, s.db, tx) && p in tx.local;
    }
    forall t, p | t in s.txs && p in s.txs[t].writes ensures Honest(c, p, s.txs[t].writes[p]) {
      var tx := s.txs[t];
      assert TxOk(c, s.db, tx) && p in tx.held && p in tx.read && p in tx.local;
    }
  }

  /**
   * The stock ledger under mixed locking: a committed row is the fold, in commit order, of the successful
   * reserve and release calls of the transactions that saved it, one version per save.
   */
  lemma RowsAreLedgers(c: Config, steps: seq<Step>, s: State, p: ProductId)
    requires Reaches(c, steps, s) && p in c.base.stock
    ensures p in s.db.stock
    ensures Folded(p, c.base.stock[p], Saves(s.db.orders, s.log, p)) == Some(s.db.stock[p])
    ensures s.db.stock[p].version == c.base.stock[p].version + |Saves(s.db.orders, s.log, p)|
    ensures s.db.stock[p].reserved == c.base.stock[p].reserved + Ledger(s.db.orders, s.log, p)
  {
    ReachableInv(c, steps, s);
    LedgerHolds(c.catalog, c.base, s.log, p);
  }

  predicate OnlyCreations(steps: seq<Step>) {
    forall i | 0 <= i < |steps| && steps[i].Begin? :: steps[i].work.Create?
  }

  lemma {:induction false} CreationsLogCreations(c: Config, s: State, steps: seq<Step>, s': State)
    requires Run(c, s, steps, s') && OnlyCreations(steps)
    requires OnlyCreates(s.log) && forall t | t in s.txs :: s.txs[t].work.Create?
    ensures OnlyCreates(s'.log)
    decreases |steps|
  {
    if steps != [] {
      var e := steps[0];
      if e.Do? {
        KeyGained(c, s.db, s.txs[e.t], e.act);
      }
      CreationsLogCreations(c, Next(c, s, e), steps[1..], s');
    }
  }

  /**
   * No lost reservation: in a run of creations, what is reserved of a product is what was reserved at the
   * start plus the units that the committed requests asked for, which are the summed line quantities of
   * exactly the orders committed since, each counted once.
   */
  lemma NoLostReservation(c: Config, steps: seq<Step>, s: State, p: ProductId)
    requires Reaches(c, steps, s) && OnlyCreations(steps) && p in c.base.stock
    ensures p in s.db.stock
    ensures s.db.stock[p].reserved == c.base.stock[p].reserved + UnitsAsked(s.log, p)
    ensures s.db.stock[p].reserved == c.base.stock[p].reserved + SumDemand(s.db.orders, NewOrders(s.log), p)
    ensures History.Distinct(NewOrders(s.log))
    ensures forall o :: o in NewOrders(s.log) <==> o in s.db.orders && o !in c.base.orders
  {
    ReachableInv(c, steps, s);
    CreationsLogCreations(c, Start(c), steps, s);
    LedgerHolds(c.catalog, c.base, s.log, p);
    CreateLedger(s.db.orders, s.log, p);
    OrdersAreAsAsked(c.catalog, c.base, s.log);
    UnitsAskedAreHeld(c.catalog, s.db.orders, s.log, p);
    NewOrdersAreAll(c.catalog, c.base, s.log);
    HistoryKeeps(c.catalog, c.base, s.log);
  }

  /**
   * Every committed creation asked only for products in the catalog that are active, and its order repeats
   * its items one by one at the catalog's prices, for its customer, as CONFIRMED.
   */
  lemma OrdersMatchRequests(c: Config, steps: seq<Step>, s: State, req: Request, oid: OrderId)
    requires Reaches(c, steps, s) && Create(req, oid) in s.log
    ensures req.items != []
    ensures forall i | 0 <= i < |req.items| ::
              req.items[i].product in c.catalog && c.catalog[req.items[i].product].active
    ensures oid in s.db.orders && OrderFollows(c.catalog, req, s.db.orders[oid]) && s.db.orders[oid].status == Confirmed
  {
    ReachableInv(c, steps, s);
    OrdersAreAsAsked(c.catalog, c.base, s.log);
    assert CreatedAsAsked(c.catalog, s.db.orders, Create(req, oid));
  }

  /** A creation that returned its own order returned its id, what its items cost, and CONFIRMED. */
  lemma ResultsMatchRequests(c: Config, steps: seq<Step>, s: State, t: TxId)
    requires Reaches(c, steps, s) && t in s.txs && s.txs[t].work.Create? && Returned(s.txs[t])
    ensures AllListed(c.catalog, s.txs[t].work.req.items)
    ensures s.txs[t].result.value
         == OrderResult(s.txs[t].work.oid, CostOf(c.catalog, s.txs[t].work.req.items), "CONFIRMED", false)
  {
    ReachableInv(c, steps, s);
    assert TxOk(c, s.db, s.txs[t]);
    PricedFollows(c.catalog, s.txs[t].work.req.items);
    FollowingSums(c.catalog, s.txs[t].work.req.items, s.db.orders[s.txs[t].work.oid].lines);
  }

  // ---- What the deciding statements decide, in every reachable state ----

  /**
   * Looking up the key: an empty order is refused; a creation whose key is stored finishes with the key's
   * order, its status and the sum of its frozen lines, as a replay that holds and writes nothing and is the
   * atomic creation on this database; every other creation goes on. There is no fourth case.
   */
  lemma LookupDecides(c: Config, steps: seq<Step>, s: State, t: TxId)
    requires Reaches(c, steps, s) && t in s.txs && s.txs[t].work.Create? && s.txs[t].phase.Begun?
    ensures Enabled(s, Do(t, CheckKey))
    ensures var req, after := s.txs[t].work.req, Next(c, s, Do(t, CheckKey)).txs[t];
            if req.items == [] then after.phase == Aborted(EmptyOrder) && after.held == {} && after.writes == map[]
            else if CarriesStoredKey(req, s.db.keys) then
              var oid := s.db.keys[req.key.value].orderId;
              && oid in s.db.orders && s.db.orders[oid].status == Confirmed
              && after.phase == Done && after.held == {} && after.writes == map[]
              && after.result == Some(OrderResult(oid, Total(s.db.orders[oid].lines), "CONFIRMED", true))
              && CreateOrder(c.catalog, s.db, req, s.txs[t].work.oid) == Replayed(after.result.value)
            else after == s.txs[t].(phase := KeyMissed)
  {
    ReachableInv(c, steps, s);
    var req := s.txs[t].work.req;
    assert TxOk(c, s.db, s.txs[t]);
    if req.items != [] && CarriesStoredKey(req, s.db.keys) {
      StoredKeyReplays(c, s.db, s.txs[t]);
    }
  }

  lemma StoredKeyReplays(c: Config, db: Db, tx: Tx)
    requires DbOk(db) && tx.work.Create? && Able(db, tx, CheckKey)
    requires tx.work.req.items != [] && CarriesStoredKey(tx.work.req, db.keys)
    ensures var oid := db.keys[tx.work.req.key.value].orderId;
            && oid in db.orders && db.orders[oid].status == Confirmed
            && var r := OrderResult(oid, Total(db.orders[oid].lines), "CONFIRMED", true);
               && CreateOrder(c.catalog, db, tx.work.req, tx.work.oid) == Replayed(r)
               && Effect(c, db, tx, CheckKey) == Closed(tx).(phase := Done, result := Some(r))
  {
    CreateOrderMeans(c.catalog, tx.work.req, tx.work.oid, db);
    assert KeyOk(db.orders, db.keys[tx.work.req.key.value]);
  }

  /** Checking the products: the first one missing or inactive ends the creation; else its order is built as asked. */
  lemma ProductsDecide(c: Config, steps: seq<Step>, s: State, t: TxId)
    requires Reaches(c, steps, s) && t in s.txs && s.txs[t].work.Create? && s.txs[t].phase.KeyMissed?
    ensures Enabled(s, Do(t, Price))
    ensures var req, after := s.txs[t].work.req, Next(c, s, Do(t, Price)).txs[t];
            && (AllOnSale(c.catalog, req.items) ==>
                  after.phase == Ready && after.order.status == Pending && OrderFollows(c.catalog, req, after.order))
            && (forall i: nat | FirstOffSale(c.catalog, req.items, i) ::
                  after.phase == Aborted(ProductNotFound(req.items[i].product)))
  {
    var req := s.txs[t].work.req;
    FirstUnsellableMeans(c.catalog, req.items);
    if AllOnSale(c.catalog, req.items) {
      PricedFollows(c.catalog, req.items);
    }
  }

  /** Reading the order of a cancellation: only a PENDING one goes on, as CANCELLED, all else as stored. */
  lemma OrderReadDecides(c: Config, steps: seq<Step>, s: State, t: TxId)
    requires Reaches(c, steps, s) && t in s.txs && s.txs[t].work.Cancel? && s.txs[t].phase.Begun?
    ensures Enabled(s, Do(t, ReadOrder))
    ensures var oid, after := s.txs[t].work.oid, Next(c, s, Do(t, ReadOrder)).txs[t];
            if oid !in s.db.orders then after.phase == Aborted(OrderNotFound)
            else if s.db.orders[oid].status == Confirmed || s.db.orders[oid].status == Cancelled then
              after.phase == Aborted(InvalidTransition)
            else
              && after.phase == Ready
              && after.order == OrderRecord(s.db.orders[oid].customer, Cancelled, s.db.orders[oid].lines)
  {
  }

  /** Booking: what is refused, and with which error, is what the committed stock refuses. */
  lemma BookingDecides(c: Config, steps: seq<Step>, s: State, t: TxId)
    requires Reaches(c, steps, s) && t in s.txs && Able(s.db, s.txs[t], Book)
    ensures Enabled(s, Do(t, Book))
    ensures var after := Next(c, s, Do(t, Book)).txs[t];
            match Verdict(MoveOf(s.txs[t].work), s.db.stock, s.txs[t].order.lines)
            case Some(e) => after.phase == Aborted(e) && after.held == {} && after.writes == map[]
            case None =>
              && after.phase == Booked && after.order.lines == s.txs[t].order.lines
              && after.order.status == (if s.txs[t].work.Create? then Confirmed else Cancelled)
              && forall p | p in ProductsOf(after.order.lines) ::
                   && p in after.local && p in s.db.stock
                   && after.local[p] == After(MoveOf(s.txs[t].work), s.db.stock, after.order.lines)[p]
  {
    RefusalIsTrue(c, steps, s, t);
    ReachableInv(c, steps, s);
    assert TxOk(c, s.db, s.txs[t]);
    ClearIff(MoveOf(s.txs[t].work), s.txs[t].local, s.txs[t].order.lines);
  }

  /** Writing the key: the loser of a race for it aborts as a duplicate and leaves nothing; anyone else goes on. */
  lemma KeyWriteDecides(c: Config, steps: seq<Step>, s: State, t: TxId)
    requires Reaches(c, steps, s) && t in s.txs && Enabled(s, Do(t, WriteKey))
    ensures s.txs[t].work.Create? && CarriesKey(s.txs[t].work.req)
    ensures var after := Next(c, s, Do(t, WriteKey)).txs[t];
            if CarriesStoredKey(s.txs[t].work.req, s.db.keys) then
              after.phase == Aborted(DuplicateKey) && after.held == {} && after.writes == map[]
            else after == s.txs[t].(phase := KeyWritten)
  {
  }

  /**
   * A statement waits exactly when it is a locking read or a versioned update of a row that another live
   * transaction holds, or the write of a key that another live transaction has written; a read without a
   * lock never waits.
   */
  lemma WaitsForHolders(c: Config, steps: seq<Step>, s: State, t: TxId, a: Act)
    requires Reaches(c, steps, s) && t in s.txs && Able(s.db, s.txs[t], a)
    ensures !Enabled(s, Do(t, a)) <==>
              exists u ::
                && u in s.txs && u != t && Live(s.txs[u])
                && (if a.LockRow? || a.SaveRow? then a.p in s.txs[u].held
                    else a.WriteKey? && s.txs[u].work.Create? && s.txs[u].phase.KeyWritten?
                         && s.txs[u].work.req.key == s.txs[t].work.req.key)
  {
    ReachableInv(c, steps, s);
    forall u | u in s.txs ensures s.txs[u].held != {} ==> Live(s.txs[u]) {
      assert TxOk(c, s.db, s.txs[u]);
    }
    if MustWait(s, t, a) && a.WriteKey? {
      var u :| u in s.txs && u != t && PendingKey(s.txs[u]) == KeyOf(s.txs[t].work);
      assert u in s.txs && u != t && Live(s.txs[u]);
    }
    if a.WriteKey? {
      forall u | u in s.txs && s.txs[u].work.Create? && s.txs[u].phase.KeyWritten?
        ensures PendingKey(s.txs[u]) == s.txs[u].work.req.key
      {
        assert TxOk(c, s.db, s.txs[u]);
      }
    }
  }

  /** Any live transaction may give up at any moment; it then holds nothing, and nothing of it was ever visible. */
  lemma GivingUpLeavesNothing(c: Config, steps: seq<Step>, s: State, t: TxId, why: Error)
    requires Reaches(c, steps, s) && t in s.txs && Live(s.txs[t])
    ensures Enabled(s, Do(t, GiveUp(why)))
    ensures var next := Next(c, s, Do(t, GiveUp(why)));
            && next.db == s.db && next.log == s.log && next.txs.Keys == s.txs.Keys
            && (forall u | u in s.txs && u != t :: next.txs[u] == s.txs[u])
            && next.txs[t].phase == Aborted(why) && next.txs[t].held == {} && next.txs[t].writes == map[]
  {
  }

  /** At most one order is ever committed under an idempotency key, and it is the one the key names. */
  lemma AtMostOneOrderPerKey(c: Config, steps: seq<Step>, s: State)
    requires Reaches(c, steps, s)
    ensures forall i, j | 0 <= i < |s.log| && 0 <= j < |s.log| && Keyed(s.log[i]) && Keyed(s.log[j])
                          && s.log[i].req.key.value == s.log[j].req.key.value :: i == j
    ensures forall i | 0 <= i < |s.log| && Keyed(s.log[i]) :: OwnsKey(c.base, s.db, s.log[i])
  {
    ReachableInv(c, steps, s);
    KeysUsedOnce(c.catalog, c.base, s.log);
    KeysOwned(c.catalog, c.base, s.log);
  }

  /** A creation's order exists exactly when the creation returned it; a loser or a replay leaves none. */
  lemma OrderExistsIffReturned(c: Config, steps: seq<Step>, s: State, t: TxId)
    requires Reaches(c, steps, s) && t in s.txs && s.txs[t].work.Create?
    ensures s.txs[t].work.oid in s.db.orders <==> Returned(s.txs[t])
    ensures s.txs[t].work.oid in NewOrders(s.log) <==> Returned(s.txs[t])
  {
    ReachableInv(c, steps, s);
    NewOrdersAreAll(c.catalog, c.base, s.log);
    assert TxOk(c, s.db, s.txs[t]);
    OldOrdersAreOld(c, Start(c), steps, s);
  }

  /** No transaction of a run is about to create an order the base already had. */
  lemma {:induction false} OldOrdersAreOld(c: Config, s: State, steps: seq<Step>, s': State)
    requires Run(c, s, steps, s')
    requires forall o | o in c.base.orders :: o in s.db.orders
    requires forall t | t in s.txs && s.txs[t].work.Create? :: s.txs[t].work.oid !in c.base.orders
    ensures forall t | t in s'.txs && s'.txs[t].work.Create? :: s'.txs[t].work.oid !in c.base.orders
    decreases |steps|
  {
    if steps != [] {
      var e := steps[0];
      if e.Do? {
        KeyGained(c, s.db, s.txs[e.t], e.act);
      }
      OldOrdersAreOld(c, Next(c, s, e), steps[1..], s');
    }
  }

  /**
   * Apart from a commit, no step changes the committed database, and a commit extends it. The commit is one
   * atomic transaction on that database unless it cancels an order that is no longer PENDING.
   */
  lemma OnlyCommitsWrite(c: Config, steps: seq<Step>, s: State, e: Step)
    requires Reaches(c, steps, s) && Enabled(s, e)
    ensures !e.Commit? ==> Next(c, s, e).db == s.db && Next(c, s, e).log == s.log
    ensures e.Commit? ==>
              var w := Logged(s.txs[e.t]);
              && Next(c, s, e).log == s.log + [w]
              && Extends(s.db, Next(c, s, e).db)
              && (w.Cancel? ==> w.oid in s.db.orders)
              && (Atomic(c.catalog, s.db, w) == Some(Next(c, s, e).db) <==>
                    (w.Cancel? ==> s.db.orders[w.oid].status == Pending))
  {
    ReachableInv(c, steps, s);
    if e.Commit? {
      CommitExtends(c, s, e.t);
      AtomicIffPending(c, s.db, s.txs[e.t]);
    }
  }

  /** A creation or a cancellation that has locked its rows never meets a version conflict. */
  lemma LocksMakeVersionsRedundant(c: Config, steps: seq<Step>, s: State, t: TxId)
    requires Reaches(c, steps, s) && t in s.txs && !s.txs[t].work.Adjust?
    ensures !s.txs[t].phase.Conflict?
    ensures forall p | p in s.txs[t].held :: p in s.txs[t].read && p in s.db.stock && s.txs[t].read[p] == s.db.stock[p]
    ensures forall p | Able(s.db, s.txs[t], SaveRow(p)) ::
              p in s.txs[t].held && Effect(c, s.db, s.txs[t], SaveRow(p)).phase.OrderWritten?
  {
    ReachableInv(c, steps, s);
    assert TxOk(c, s.db, s.txs[t]);
    forall p | Able(s.db, s.txs[t], SaveRow(p))
      ensures p in s.txs[t].held && Effect(c, s.db, s.txs[t], SaveRow(p)).phase.OrderWritten?
    {
      LockedVersion(s.db, s.txs[t], p);
    }
  }

  /**
   * For a transaction that read without a lock, a save fails exactly when the row it would replace, its own
   * earlier write or else the committed row, is not the row it read; otherwise it writes the next version.
   * So one snapshot is saved at most once.
   */
  lemma ConflictIffStale(c: Config, steps: seq<Step>, s: State, t: TxId, p: ProductId)
    requires Reaches(c, steps, s) && t in s.txs && s.txs[t].work.Adjust? && Able(s.db, s.txs[t], SaveRow(p))
    ensures p in s.txs[t].read
    ensures Effect(c, s.db, s.txs[t], SaveRow(p)).phase.Conflict? <==> s.txs[t].read[p] != Visible(s.db, s.txs[t], p)
    ensures !Effect(c, s.db, s.txs[t], SaveRow(p)).phase.Conflict? ==>
              var after := Effect(c, s.db, s.txs[t], SaveRow(p));
              && p in after.writes && after.writes[p].version == Visible(s.db, s.txs[t], p).version + 1
              && after.read[p] != Visible(s.db, after, p)
  {
    ReachableInv(c, steps, s);
    assert TxOk(c, s.db, s.txs[t]) && p in s.txs[t].local && p in s.txs[t].read;
  }

  /**
   * Whatever commits was computed from the row it replaces, whether that row was locked or only read: by the
   * moved lines of an order, or by the calls of each save in turn, one version per save.
   */
  lemma SavesFollowTheirReads(c: Config, steps: seq<Step>, s: State, t: TxId, p: ProductId)
    requires Reaches(c, steps, s) && t in s.txs && CanCommit(s.txs[t]) && p in s.txs[t].writes
    ensures p in s.db.stock && Published(s.db, s.txs[t]).stock[p] == s.txs[t].writes[p]
    ensures !s.txs[t].work.Adjust? ==>
              && p in s.txs[t].read && s.txs[t].read[p] == s.db.stock[p]
              && s.txs[t].writes[p] == Settled(MoveOf(s.txs[t].work), s.db.stock, s.txs[t].order.lines)[p]
    ensures s.txs[t].work.Adjust? ==>
              && p in s.txs[t].saved
              && Folded(p, s.db.stock[p], s.txs[t].saved[p]) == Some(s.txs[t].writes[p])
              && s.txs[t].writes[p].version == s.db.stock[p].version + |s.txs[t].saved[p]|
  {
    ReachableInv(c, steps, s);
    var tx := s.txs[t];
    assert TxOk(c, s.db, tx) && p in tx.held && p in tx.read && p in tx.local;
    if tx.work.Adjust? {
      FoldedNet(p, s.db.stock[p], tx.saved[p]);
    } else {
      PublishedIsSettled(c, s.db, tx);
      assert (s.db.stock + tx.writes)[p] == tx.writes[p];
    }
  }

  /** A committed order raises the version of exactly its distinct products, by one, however many lines repeat. */
  lemma CommitBumpsEachProductOnce(c: Config, steps: seq<Step>, s: State, t: TxId, p: ProductId)
    requires Reaches(c, steps, s) && t in s.txs && CanCommit(s.txs[t]) && !s.txs[t].work.Adjust?
    requires p in s.db.stock
    ensures p in Published(s.db, s.txs[t]).stock
    ensures Published(s.db, s.txs[t]).stock[p].version
         == s.db.stock[p].version + if p in ProductsOf(s.txs[t].order.lines) then 1 else 0
    ensures p !in ProductsOf(s.txs[t].order.lines) ==> Published(s.db, s.txs[t]).stock[p] == s.db.stock[p]
  {
    ReachableInv(c, steps, s);
    assert TxOk(c, s.db, s.txs[t]);
    PublishedIsSettled(c, s.db, s.txs[t]);
  }

  /** Between any two states of a run, versions never fall and everything committed stays. */
  lemma {:induction false} DatabaseOnlyGrows(c: Config, s: State, steps: seq<Step>, s': State)
    requires Inv(c, s) && Run(c, s, steps, s')
    ensures Extends(s.db, s'.db)
    ensures s.log <= s'.log
    decreases |steps|
  {
    if steps != [] {
      var next := Next(c, s, steps[0]);
      StepKeeps(c, s, steps[0]);
      StepExtends(c, s, steps[0]);
      DatabaseOnlyGrows(c, next, steps[1..], s');
      ExtendsTransitive(s.db, next.db, s'.db);
    }
  }

  /** A creation or cancellation refused for its lines is refused truthfully: the committed stock refuses them too. */
  lemma RefusalIsTrue(c: Config, steps: seq<Step>, s: State, t: TxId)
    requires Reaches(c, steps, s) && t in s.txs && Able(s.db, s.txs[t], Book)
    ensures Verdict(MoveOf(s.txs[t].work), s.txs[t].local, s.txs[t].order.lines)
         == Verdict(MoveOf(s.txs[t].work), s.db.stock, s.txs[t].order.lines)
  {
    ReachableInv(c, steps, s);
    assert TxOk(c, s.db, s.txs[t]);
    SameFaults(MoveOf(s.txs[t].work), s.txs[t].local, s.db.stock, s.txs[t].order.lines);
  }

  /**
   * When a creation is refused for its lines, the atomic creation at that moment is refused with the same
   * error, if and only if no one else has committed the request's key since it was looked up.
   */
  lemma RefusalIsAtomicIffKeyStillFree(c: Config, steps: seq<Step>, s: State, t: TxId)
    requires Reaches(c, steps, s) && t in s.txs && s.txs[t].work.Create? && Able(s.db, s.txs[t], Book)
    requires Effect(c, s.db, s.txs[t], Book).phase.Aborted?
    ensures CreateOrder(c.catalog, s.db, s.txs[t].work.req, s.txs[t].work.oid)
              == Failed(Effect(c, s.db, s.txs[t], Book).phase.why)
            <==> !Hit(s.txs[t].work.req, s.db.keys)
  {
    RefusalIsTrue(c, steps, s, t);
    ReachableInv(c, steps, s);
    assert TxOk(c, s.db, s.txs[t]);
    var req := s.txs[t].work.req;
    if Hit(req, s.db.keys) {
      ReplayIsFaithful(c, steps, s, req.key.value);
    }
  }

  /**
   * Every order's status comes from the committed history: an order was released by a committed cancellation
   * exactly when it went from PENDING to CANCELLED, and in a calm run by only one.
   */
  lemma ReleasedExactlyWhenCancelled(c: Config, steps: seq<Step>, s: State)
    requires Reaches(c, steps, s)
    ensures forall o | o in s.db.orders :: StatusExplained(c.base, s.db, s.log, o)
    ensures CalmRun(c, Start(c), steps, s) ==> NoCancelTwice(s.log)
  {
    ReachableInv(c, steps, s);
    StatusesExplained(c.catalog, c.base, s.log);
    if CalmRun(c, Start(c), steps, s) {
      CalmRunsAreSerialisable(c, steps, s);
    }
  }

  /** Every creation that returned its own order, and every finished cancellation, is in the history. */
  ghost predicate Acknowledged(s: State) {
    forall t | t in s.txs && s.txs[t].phase.Done? && (Returned(s.txs[t]) || s.txs[t].work.Cancel?) ::
      s.txs[t].work in s.log
  }

  lemma CommitAcknowledges(c: Config, s: State, t: TxId)
    requires Acknowledged(s) && Enabled(s, Commit(t))
    ensures Acknowledged(Next(c, s, Commit(t)))
  {
    var next := Next(c, s, Commit(t));
    assert next.log[|s.log|] == Logged(s.txs[t]);
    assert forall w | w in s.log :: w in next.log;
  }

  /** Apart from a replay, no statement finishes a transaction. */
  lemma OnlyReplaysFinish(c: Config, db: Db, tx: Tx, a: Act)
    requires Able(db, tx, a)
    ensures Effect(c, db, tx, a).phase.Done? ==>
              !Returned(Effect(c, db, tx, a)) && Effect(c, db, tx, a).work.Create?
  {
  }

  lemma StatementAcknowledges(c: Config, s: State, t: TxId, a: Act)
    requires Acknowledged(s) && Enabled(s, Do(t, a))
    ensures Acknowledged(Next(c, s, Do(t, a)))
  {
    OnlyReplaysFinish(c, s.db, s.txs[t], a);
  }

  /** No acknowledged order is ever lost. */
  lemma {:induction false} AcknowledgedAreCommitted(c: Config, s: State, steps: seq<Step>, s': State)
    requires Inv(c, s) && Acknowledged(s) && Run(c, s, steps, s')
    ensures Acknowledged(s')
    decreases |steps|
  {
    if steps != [] {
      var e := steps[0];
      match e {
        case Begin(_, _) =>
        case Do(t, a) => StatementAcknowledges(c, s, t, a);
        case Commit(t) => CommitAcknowledges(c, s, t);
      }
      StepKeeps(c, s, e);
      AcknowledgedAreCommitted(c, Next(c, s, e), steps[1..], s');
    }
  }

  /** From a store with no PENDING order every cancellation is refused before it touches anything. */
  lemma CancellationsRefused(c: Config, steps: seq<Step>, s: State)
    requires Reaches(c, steps, s)
    requires forall o | o in c.base.orders :: c.base.orders[o].status != Pending
    ensures forall i | 0 <= i < |s.log| :: !s.log[i].Cancel?
    ensures forall t | t in s.txs && s.txs[t].work.Cancel? :: !Working(s.txs[t].phase)
    ensures forall t | t in s.txs && Able(s.db, s.txs[t], ReadOrder) ::
              Effect(c, s.db, s.txs[t], ReadOrder).phase.Aborted?
  {
    ReachableInv(c, steps, s);
    NothingToCancel(c.catalog, c.base, s.log);
    assert forall t | t in s.txs && s.txs[t].work.Cancel? :: TxOk(c, s.db, s.txs[t]);
  }

  /** Finished creations with one key all returned the same order, status and total: those the key stores. */
  lemma RepliesAgree(c: Config, steps: seq<Step>, s: State, t: TxId, u: TxId)
    requires Reaches(c, steps, s) && t in s.txs && u in s.txs
    requires s.txs[t].work.Create? && s.txs[u].work.Create? && s.txs[t].phase.Done? && s.txs[u].phase.Done?
    requires HasKey(s.txs[t].work.req) && s.txs[t].work.req.key == s.txs[u].work.req.key
    ensures s.txs[t].result.Some? && s.txs[u].result.Some?
    ensures s.txs[t].result.value.(fromCache := false) == s.txs[u].result.value.(fromCache := false)
    ensures s.txs[t].work.req.key.value in s.db.keys
    ensures var row := s.db.keys[s.txs[t].work.req.key.value];
            && FromCache(row).Ok?
            && FromCache(row).value == s.txs[t].result.value.(fromCache := true)
  {
    ReachableInv(c, steps, s);
    assert TxOk(c, s.db, s.txs[t]) && TxOk(c, s.db, s.txs[u]);
    var row := s.db.keys[s.txs[t].work.req.key.value];
    assert KeyOk(s.db.orders, row);
    Money.ParsePrinted(Total(s.db.orders[row.orderId].lines));
  }

  /** Replaying any stored key succeeds and repeats the stored order's id, status and frozen total. */
  lemma ReplayIsFaithful(c: Config, steps: seq<Step>, s: State, k: Key)
    requires Reaches(c, steps, s) && k in s.db.keys
    ensures var row := s.db.keys[k];
            && row.orderId in s.db.orders
            && FromCache(row) == Ok(FreshResult(row.orderId, s.db.orders[row.orderId]).(fromCache := true))
  {
    ReachableInv(c, steps, s);
    var row := s.db.keys[k];
    assert KeyOk(s.db.orders, row);
    Money.ParsePrinted(Total(s.db.orders[row.orderId].lines));
  }
}
