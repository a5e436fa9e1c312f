/** What every serial history satisfies: the reservation ledger, versions, keys and cancellations. */
module History {
  import opened Values
  import opened Sums
  import opened Moves
  import opened Serial
  import opened Requests

  function LinesOf(orders: Orders, oid: OrderId): seq<Line> {
    if oid in orders then orders[oid].lines else []
  }

  function ChangesOf(m: Move, lines: seq<Line>, p: ProductId): seq<Change> {
    if lines == [] then []
    else
      var front := ChangesOf(m, lines[..|lines| - 1], p);
      var l := lines[|lines| - 1];
      if l.product == p then front + [Change(m, l.quantity)] else front
  }

  /** The saves a transaction made of product p, each with the domain calls before it. */
  function SavesOf(orders: Orders, w: Work, p: ProductId): seq<seq<Change>> {
    match w
    case Create(_, oid) =>
      var lines := LinesOf(orders, oid);
      if p in ProductsOf(lines) then [ChangesOf(Reserve, lines, p)] else []
    case Cancel(oid) =>
      var lines := LinesOf(orders, oid);
      if p in ProductsOf(lines) then [ChangesOf(Release, lines, p)] else []
    case Adjust(saves) => if p in saves then saves[p] else []
  }

  /** The saves of product p, in commit order. */
  function Saves(orders: Orders, log: seq<Work>, p: ProductId): seq<seq<Change>> {
    if log == [] then []
    else Saves(orders, log[..|log| - 1], p) + SavesOf(orders, log[|log| - 1], p)
  }

  function NetOfChanges(changes: seq<Change>): int {
    if changes == [] then 0
    else
      var c := changes[|changes| - 1];
      NetOfChanges(changes[..|changes| - 1]) + if c.move.Reserve? then c.amount else -c.amount
  }

  function NetOfSaves(saves: seq<seq<Change>>): int {
    if saves == [] then 0 else NetOfSaves(saves[..|saves| - 1]) + NetOfChanges(saves[|saves| - 1])
  }

  /** What a committed transaction added to the reservation of p. */
  function Net(orders: Orders, w: Work, p: ProductId): int {
    match w
    case Create(_, oid) => Demand(LinesOf(orders, oid), p)
    case Cancel(oid) => -Demand(LinesOf(orders, oid), p)
    case Adjust(saves) => if p in saves then NetOfSaves(saves[p]) else 0
  }

  function Ledger(orders: Orders, log: seq<Work>, p: ProductId): int {
    if log == [] then 0
    else Ledger(orders, log[..|log| - 1], p) + Net(orders, log[|log| - 1], p)
  }

  /** The orders a history created, in commit order. */
  function NewOrders(log: seq<Work>): seq<OrderId> {
    if log == [] then []
    else
      var front := NewOrders(log[..|log| - 1]);
      if log[|log| - 1].Create? then front + [log[|log| - 1].oid] else front
  }

  predicate OnlyCreates(log: seq<Work>) {
    forall i | 0 <= i < |log| :: log[i].Create?
  }

  predicate OidsKnown(orders: Orders, log: seq<Work>) {
    forall i | 0 <= i < |log| && !log[i].Adjust? :: log[i].oid in orders
  }

  predicate SameLines(a: Orders, b: Orders) {
    forall o | o in a :: o in b && b[o].lines == a[o].lines
  }

  /** Later orders do not change what an earlier history means. */
  lemma {:induction false} Stable(a: Orders, b: Orders, log: seq<Work>, p: ProductId)
    requires SameLines(a, b) && OidsKnown(a, log)
    ensures Ledger(a, log, p) == Ledger(b, log, p)
    ensures Saves(a, log, p) == Saves(b, log, p)
  {
    if log != [] {
      Stable(a, b, log[..|log| - 1], p);
    }
  }

  lemma {:induction false} AppliedNet(p: ProductId, row: Stock, changes: seq<Change>)
    requires Applied(p, row, changes).Some?
    ensures Applied(p, row, changes).value == row.(reserved := row.reserved + NetOfChanges(changes))
  {
    if changes != [] {
      AppliedNet(p, row, changes[..|changes| - 1]);
    }
  }

  /** Can call i be made after all calls before it? */
  predicate CallFits(row: Stock, changes: seq<Change>, i: nat)
    requires i < |changes|
  {
    var reserved := row.reserved + NetOfChanges(changes[..i]);
    0 < changes[i].amount <= if changes[i].move.Reserve? then row.quantity - reserved else reserved
  }

  /** A sequence of calls succeeds exactly when each call asks for what is left at its turn. */
  lemma {:induction false} AppliedIff(p: ProductId, row: Stock, changes: seq<Change>)
    ensures Applied(p, row, changes).Some? <==> forall i | 0 <= i < |changes| :: CallFits(row, changes, i)
  {
    if changes != [] {
      var n := |changes| - 1;
      var front := changes[..n];
      AppliedIff(p, row, front);
      forall i | 0 <= i < n ensures CallFits(row, front, i) <==> CallFits(row, changes, i) {
        assert front[..i] == changes[..i];
      }
      if Applied(p, row, front).Some? {
        AppliedNet(p, row, front);
        assert Applied(p, row, changes).Some? <==> CallFits(row, changes, n);
        assert forall i | 0 <= i < n :: CallFits(row, changes, i);
      } else {
        var i :| 0 <= i < n && !CallFits(row, front, i);
        assert !CallFits(row, changes, i);
      }
    }
  }

  /** The lines of a clear order, applied one by one, are successful domain calls with the summed effect. */
  lemma {:induction false} LinesApply(m: Move, stock: StockMap, lines: seq<Line>, p: ProductId)
    requires Clear(m, stock, lines) && p in stock
    ensures Applied(p, stock[p], ChangesOf(m, lines, p)) == Some(After(m, stock, lines)[p])
  {
    if lines != [] {
      var n := |lines| - 1;
      forall i | 0 <= i < n ensures FaultOf(m, stock, lines[..n], i).None? {
        assert lines[..n][..i] == lines[..i] && lines[..n][..i + 1] == lines[..i + 1];
        assert FaultOf(m, stock, lines, i).None?;
      }
      LinesApply(m, stock, lines[..n], p);
      if lines[n].product == p {
        assert FaultOf(m, stock, lines, n).None?;
        assert lines[..n + 1] == lines;
        var changes := ChangesOf(m, lines, p);
        assert changes[..|changes| - 1] == ChangesOf(m, lines[..n], p);
      }
    }
  }

  lemma {:induction false} FoldedNet(p: ProductId, row: Stock, saves: seq<seq<Change>>)
    requires Folded(p, row, saves).Some?
    ensures Folded(p, row, saves).value.reserved == row.reserved + NetOfSaves(saves)
    ensures Folded(p, row, saves).value.version == row.version + |saves|
  {
    if saves != [] {
      FoldedNet(p, row, saves[..|saves| - 1]);
      AppliedNet(p, Folded(p, row, saves[..|saves| - 1]).value, saves[|saves| - 1]);
    }
  }

  lemma FoldedOnce(p: ProductId, row: Stock, changes: seq<Change>)
    requires Applied(p, row, changes).Some?
    ensures Folded(p, row, [changes]) == Some(Bumped(Applied(p, row, changes).value))
  {
    assert [changes][..0] == [];
  }

  /** One atomic transaction, product by product. */
  lemma AtomicRow(catalog: Catalog, db: Db, w: Work, p: ProductId)
    requires Atomic(catalog, db, w).Some? && p in db.stock
    ensures var after := Atomic(catalog, db, w).value;
            && p in after.stock
            && after.stock[p].reserved == db.stock[p].reserved + Net(after.orders, w, p)
            && Folded(p, db.stock[p], SavesOf(after.orders, w, p)) == Some(after.stock[p])
  {
    match w
    case Create(req, oid) => SettledRow(Reserve, db.stock, Priced(catalog, req.items), p);
    case Cancel(oid) => SettledRow(Release, db.stock, db.orders[oid].lines, p);
    case Adjust(saves) =>
      if p in saves {
        FoldedNet(p, db.stock[p], saves[p]);
      }
  }

  /** An order's lines, product by product: one save of each product it names. */
  lemma SettledRow(m: Move, stock: StockMap, lines: seq<Line>, p: ProductId)
    requires Clear(m, stock, lines) && p in stock
    ensures Folded(p, stock[p], if p in ProductsOf(lines) then [ChangesOf(m, lines, p)] else [])
         == Some(Settled(m, stock, lines)[p])
    ensures p !in ProductsOf(lines) ==> Demand(lines, p) == 0
  {
    LinesApply(m, stock, lines, p);
    FoldedOnce(p, stock[p], ChangesOf(m, lines, p));
    if p !in ProductsOf(lines) {
      DemandOfStranger(lines, p);
    }
  }

  /** What LedgerHolds says of a run that ended in db. */
  predicate LedgerAt(base: Db, db: Db, log: seq<Work>, p: ProductId)
    requires p in base.stock && p in db.stock
  {
    && Folded(p, base.stock[p], Saves(db.orders, log, p)) == Some(db.stock[p])
    && db.stock[p].version == base.stock[p].version + |Saves(db.orders, log, p)|
    && db.stock[p].reserved == base.stock[p].reserved + Ledger(db.orders, log, p)
  }

  lemma LedgerStep(catalog: Catalog, base: Db, before: Db, log: seq<Work>, p: ProductId)
    requires log != [] && DbOk(before) && LastEffect(catalog, before, log).Some?
    requires CancelsShow(before.orders, log[..|log| - 1])
    requires p in base.stock && p in before.stock
    requires OidsKnown(before.orders, log[..|log| - 1]) && LedgerAt(base, before, log[..|log| - 1], p)
    ensures var db := LastEffect(catalog, before, log).value;
            p in db.stock && LedgerAt(base, db, log, p)
  {
    var w := log[|log| - 1];
    var db := LastEffect(catalog, before, log).value;
    LastKeeps(catalog, before, log);
    AtomicRow(catalog, SeenByLast(before, log), w, p);
    Stable(before.orders, db.orders, log[..|log| - 1], p);
    FoldedMore(p, base.stock[p], Saves(before.orders, log[..|log| - 1], p), SavesOf(db.orders, w, p));
    FoldedNet(p, before.stock[p], SavesOf(db.orders, w, p));
  }

  lemma {:induction false} FoldedMore(p: ProductId, row: Stock, a: seq<seq<Change>>, b: seq<seq<Change>>)
    requires Folded(p, row, a).Some?
    ensures Folded(p, row, a + b) == Folded(p, Folded(p, row, a).value, b)
  {
    if b == [] {
      assert a + b == a;
    } else {
      assert (a + b)[..|a + b| - 1] == a + b[..|b| - 1];
      FoldedMore(p, row, a, b[..|b| - 1]);
    }
  }

  /** What one committed transaction did to orders and keys. */
  predicate Shaped(db: Db, w: Work, after: Db) {
    match w
    case Create(req, oid) =>
      && oid !in db.orders && oid in after.orders
      && after.orders[oid].status == Confirmed
      && after.orders == db.orders[oid := after.orders[oid]]
      && (if HasKey(req)
          then req.key.value !in db.keys
               && after.keys == db.keys[req.key.value := KeyRowFor(oid, after.orders[oid])]
          else after.keys == db.keys)
    case Cancel(oid) =>
      && oid in db.orders && db.orders[oid].status == Pending
      && after.orders == db.orders[oid := db.orders[oid].(status := Cancelled)]
      && after.keys == db.keys
    case Adjust(_) => after.orders == db.orders && after.keys == db.keys
  }

  lemma AtomicShape(catalog: Catalog, db: Db, w: Work)
    requires Atomic(catalog, db, w).Some?
    ensures Shaped(db, w, Atomic(catalog, db, w).value)
  {
  }

  /** What the last entry of a history did to orders and keys: a repeated cancellation did nothing. */
  predicate LastShaped(db: Db, log: seq<Work>, after: Db)
    requires log != []
  {
    if Repeats(log) then
      && log[|log| - 1].oid in db.orders && db.orders[log[|log| - 1].oid].status == Cancelled
      && after.orders == db.orders && after.keys == db.keys
    else Shaped(db, log[|log| - 1], after)
  }

  lemma LastShape(catalog: Catalog, base: Db, log: seq<Work>)
    requires log != [] && DbOk(base) && LeftBy(catalog, base, log).Some?
    ensures LeftBy(catalog, base, log[..|log| - 1]).Some?
    ensures LastShaped(LeftBy(catalog, base, log[..|log| - 1]).value, log, LeftBy(catalog, base, log).value)
  {
    var before := LeftBy(catalog, base, log[..|log| - 1]).value;
    HistoryKeeps(catalog, base, log[..|log| - 1]);
    if Repeats(log) {
      CancelAgain(catalog, before, log[|log| - 1].oid);
    } else {
      AtomicShape(catalog, before, log[|log| - 1]);
    }
  }

  lemma OidsKnownStep(before: Db, after: Db, log: seq<Work>)
    requires log != [] && LastShaped(before, log, after)
    requires OidsKnown(before.orders, log[..|log| - 1])
    ensures OidsKnown(after.orders, log)
  {
    assert forall i | 0 <= i < |log| - 1 :: log[..|log| - 1][i] == log[i];
  }

  lemma {:induction false} OidsStayKnown(catalog: Catalog, base: Db, log: seq<Work>)
    requires DbOk(base) && LeftBy(catalog, base, log).Some?
    ensures OidsKnown(LeftBy(catalog, base, log).value.orders, log)
  {
    if log != [] {
      OidsStayKnown(catalog, base, log[..|log| - 1]);
      LastShape(catalog, base, log);
      OidsKnownStep(LeftBy(catalog, base, log[..|log| - 1]).value, LeftBy(catalog, base, log).value, log);
    }
  }

  /**
   * The ledger of a history: each row is the fold of its successful domain calls in commit order,
   * its version counts its saves, and its reservation is the base plus every transaction's net effect.
   */
  lemma {:induction false} LedgerHolds(catalog: Catalog, base: Db, log: seq<Work>, p: ProductId)
    requires DbOk(base) && LeftBy(catalog, base, log).Some? && p in base.stock
    ensures p in LeftBy(catalog, base, log).value.stock
    ensures LedgerAt(base, LeftBy(catalog, base, log).value, log, p)
  {
    if log != [] {
      var n := |log| - 1;
      LedgerHolds(catalog, base, log[..n], p);
      HistoryKeeps(catalog, base, log[..n]);
      OidsStayKnown(catalog, base, log[..n]);
      LedgerStep(catalog, base, LeftBy(catalog, base, log[..n]).value, log, p);
    }
  }

  function SumDemand(orders: Orders, oids: seq<OrderId>, p: ProductId): int {
    if oids == [] then 0
    else SumDemand(orders, oids[..|oids| - 1], p) + Demand(LinesOf(orders, oids[|oids| - 1]), p)
  }

  lemma {:induction false} CreateLedger(orders: Orders, log: seq<Work>, p: ProductId)
    requires OnlyCreates(log)
    ensures Ledger(orders, log, p) == SumDemand(orders, NewOrders(log), p)
  {
    if log != [] {
      var n := |log| - 1;
      CreateLedger(orders, log[..n], p);
      var oids := NewOrders(log);
      assert oids[..|oids| - 1] == NewOrders(log[..n]);
    }
  }

  predicate Distinct(oids: seq<OrderId>) {
    forall i, j | 0 <= i < j < |oids| :: oids[i] != oids[j]
  }

  /** A history's orders are new, distinct, and together with the base are all the orders there are. */
  lemma {:induction false} NewOrdersAreAll(catalog: Catalog, base: Db, log: seq<Work>)
    requires DbOk(base) && LeftBy(catalog, base, log).Some?
    ensures var db := LeftBy(catalog, base, log).value;
            && Distinct(NewOrders(log))
            && (forall o | o in NewOrders(log) :: o !in base.orders)
            && (forall o :: o in db.orders <==> o in base.orders || o in NewOrders(log))
  {
    if log != [] {
      NewOrdersAreAll(catalog, base, log[..|log| - 1]);
      LastShape(catalog, base, log);
    }
  }

  /** The order of a committed creation is the one its request asks for, of products on sale. */
  predicate CreatedAsAsked(catalog: Catalog, orders: Orders, w: Work)
    requires w.Create?
  {
    && w.oid in orders && orders[w.oid].status == Confirmed
    && w.req.items != [] && AllOnSale(catalog, w.req.items) && OrderFollows(catalog, w.req, orders[w.oid])
  }

  lemma LastCreatedAsAsked(catalog: Catalog, db: Db, w: Work)
    requires DbOk(db) && w.Create? && Atomic(catalog, db, w).Some?
    ensures CreatedAsAsked(catalog, Atomic(catalog, db, w).value.orders, w)
  {
    CreateOrderMeans(catalog, w.req, w.oid, db);
  }

  /** Every order a history created is the one its request asks for. */
  lemma {:induction false} OrdersAreAsAsked(catalog: Catalog, base: Db, log: seq<Work>)
    requires DbOk(base) && LeftBy(catalog, base, log).Some?
    ensures forall w | w in log && w.Create? :: CreatedAsAsked(catalog, LeftBy(catalog, base, log).value.orders, w)
  {
    if log != [] {
      var front, w := log[..|log| - 1], log[|log| - 1];
      var before := LeftBy(catalog, base, front).value;
      OrdersAreAsAsked(catalog, base, front);
      HistoryKeeps(catalog, base, front);
      LastKeeps(catalog, before, log);
      if w.Create? {
        LastCreatedAsAsked(catalog, before, w);
      }
      assert log == front + [w];
    }
  }

  /** The units of p that all creations of a history asked for. */
  function UnitsAsked(log: seq<Work>, p: ProductId): int {
    if log == [] then 0
    else
      var w := log[|log| - 1];
      UnitsAsked(log[..|log| - 1], p) + if w.Create? then UnitsWanted(w.req.items, p) else 0
  }

  /** In a history of creations the created orders hold exactly the units asked for. */
  lemma {:induction false} UnitsAskedAreHeld(catalog: Catalog, orders: Orders, log: seq<Work>, p: ProductId)
    requires OnlyCreates(log) && forall w | w in log :: w.Create? && CreatedAsAsked(catalog, orders, w)
    ensures Ledger(orders, log, p) == UnitsAsked(log, p)
  {
    if log != [] {
      var w := log[|log| - 1];
      UnitsAskedAreHeld(catalog, orders, log[..|log| - 1], p);
      assert w in log;
      FollowingSums(catalog, w.req.items, orders[w.oid].lines);
    }
  }

  predicate Keyed(w: Work) {
    w.Create? && HasKey(w.req)
  }

  /** A committed keyed creation owns its key. */
  predicate OwnsKey(base: Db, db: Db, w: Work)
    requires Keyed(w)
  {
    var k := w.req.key.value;
    k !in base.keys && k in db.keys && db.keys[k].orderId == w.oid
  }

  lemma KeysOwnedStep(base: Db, before: Db, after: Db, log: seq<Work>)
    requires log != [] && LastShaped(before, log, after)
    requires forall k | k in base.keys :: k in before.keys
    requires forall i | 0 <= i < |log| - 1 && Keyed(log[i]) :: OwnsKey(base, before, log[i])
    ensures forall i | 0 <= i < |log| && Keyed(log[i]) :: OwnsKey(base, after, log[i])
  {
  }

  lemma {:induction false} KeysOwned(catalog: Catalog, base: Db, log: seq<Work>)
    requires DbOk(base) && LeftBy(catalog, base, log).Some?
    ensures forall i | 0 <= i < |log| && Keyed(log[i]) :: OwnsKey(base, LeftBy(catalog, base, log).value, log[i])
  {
    if log != [] {
      var n := |log| - 1;
      var front := log[..n];
      var before := LeftBy(catalog, base, front).value;
      KeysOwned(catalog, base, front);
      HistoryKeeps(catalog, base, front);
      LastShape(catalog, base, log);
      assert forall i | 0 <= i < n :: front[i] == log[i];
      KeysOwnedStep(base, before, LeftBy(catalog, base, log).value, log);
    }
  }

  /** Two committed creations never carry the same key. */
  lemma {:induction false} KeysUsedOnce(catalog: Catalog, base: Db, log: seq<Work>)
    requires DbOk(base) && LeftBy(catalog, base, log).Some?
    ensures forall i, j | 0 <= i < j < |log| && Keyed(log[i]) && Keyed(log[j]) ::
              log[i].req.key.value != log[j].req.key.value
  {
    if log != [] {
      var n := |log| - 1;
      var front := log[..n];
      KeysUsedOnce(catalog, base, front);
      KeysOwned(catalog, base, front);
      forall i, j | 0 <= i < j < |log| && Keyed(log[i]) && Keyed(log[j])
        ensures log[i].req.key.value != log[j].req.key.value
      {
        assert front[i] == log[i];
        if j < n {
          assert front[j] == log[j];
        } else {
          assert OwnsKey(base, LeftBy(catalog, base, front).value, front[i]);
          LastShape(catalog, base, log);
        }
      }
    }
  }

  /** Where every order's status comes from. */
  predicate StatusExplained(base: Db, db: Db, log: seq<Work>, o: OrderId)
    requires o in db.orders
  {
    if Cancel(o) in log then
      o in base.orders && base.orders[o].status == Pending && db.orders[o].status == Cancelled
    else if o in base.orders then db.orders[o].status == base.orders[o].status
    else db.orders[o].status == Confirmed
  }

  lemma StatusStep(base: Db, before: Db, after: Db, log: seq<Work>, o: OrderId)
    requires log != [] && LastShaped(before, log, after) && o in after.orders
    requires o in before.orders ==> StatusExplained(base, before, log[..|log| - 1], o)
    requires o !in before.orders ==> o !in base.orders && Cancel(o) !in log[..|log| - 1]
    ensures StatusExplained(base, after, log, o)
  {
    assert log == log[..|log| - 1] + [log[|log| - 1]];
  }

  /** Every status comes from the base and the history: only a PENDING order was ever cancelled. */
  lemma {:induction false} StatusesExplained(catalog: Catalog, base: Db, log: seq<Work>)
    requires DbOk(base) && LeftBy(catalog, base, log).Some?
    ensures forall o | o in LeftBy(catalog, base, log).value.orders ::
              StatusExplained(base, LeftBy(catalog, base, log).value, log, o)
  {
    if log != [] {
      var front := log[..|log| - 1];
      var before := LeftBy(catalog, base, front).value;
      var db := LeftBy(catalog, base, log).value;
      StatusesExplained(catalog, base, front);
      NewOrdersAreAll(catalog, base, front);
      HistoryKeeps(catalog, base, front);
      LastShape(catalog, base, log);
      forall o | o in db.orders ensures StatusExplained(base, db, log, o) {
        assert o in before.orders ==> StatusExplained(base, before, front, o);
        StatusStep(base, before, db, log, o);
      }
    }
  }

  lemma CancelsWerePending(catalog: Catalog, base: Db, log: seq<Work>)
    requires DbOk(base) && LeftBy(catalog, base, log).Some?
    ensures forall w | w in log && w.Cancel? :: w.oid in base.orders && base.orders[w.oid].status == Pending
  {
    HistoryKeeps(catalog, base, log);
    StatusesExplained(catalog, base, log);
    forall w | w in log && w.Cancel? ensures w.oid in base.orders && base.orders[w.oid].status == Pending {
      assert w == Cancel(w.oid) && StatusExplained(base, LeftBy(catalog, base, log).value, log, w.oid);
    }
  }

  /** With no PENDING order to start from, no cancellation ever commits and none becomes possible. */
  lemma NothingToCancel(catalog: Catalog, base: Db, log: seq<Work>)
    requires DbOk(base) && LeftBy(catalog, base, log).Some?
    requires forall o | o in base.orders :: base.orders[o].status != Pending
    ensures forall i | 0 <= i < |log| :: !log[i].Cancel?
    ensures forall o | o in LeftBy(catalog, base, log).value.orders ::
              LeftBy(catalog, base, log).value.orders[o].status != Pending
  {
    var db := LeftBy(catalog, base, log).value;
    StatusesExplained(catalog, base, log);
    CancelsWerePending(catalog, base, log);
    forall i | 0 <= i < |log| ensures !log[i].Cancel? {
      assert log[i] in log;
    }
    forall o | o in db.orders ensures db.orders[o].status != Pending {
      assert StatusExplained(base, db, log, o);
    }
  }

  lemma NoRepeatAtEnd(log: seq<Work>)
    requires log != []
    ensures NoCancelTwice(log) <==> NoCancelTwice(log[..|log| - 1]) && !Repeats(log)
  {
    var n := |log| - 1;
    var front := log[..n];
    if NoCancelTwice(front) && !Repeats(log) {
      forall i, j | 0 <= i < j < |log| && log[i].Cancel? && log[j].Cancel? ensures log[i].oid != log[j].oid {
        assert front[i] == log[i] && front[i] in front;
        assert j < n ==> front[j] == log[j];
      }
    }
    if NoCancelTwice(log) {
      forall i, j | 0 <= i < j < n && front[i].Cancel? && front[j].Cancel? ensures front[i].oid != front[j].oid {
        assert front[i] == log[i] && front[j] == log[j];
      }
    }
  }

  /**
   * A history is a serial run of its transactions exactly when it cancels no order twice; it then leaves
   * the database the serial run leaves.
   */
  lemma {:induction false} SerialIffNoCancelTwice(catalog: Catalog, base: Db, log: seq<Work>)
    requires DbOk(base)
    ensures Replay(catalog, base, log).Some? <==> LeftBy(catalog, base, log).Some? && NoCancelTwice(log)
    ensures Replay(catalog, base, log).Some? ==> Replay(catalog, base, log) == LeftBy(catalog, base, log)
  {
    if log != [] {
      var front := log[..|log| - 1];
      SerialIffNoCancelTwice(catalog, base, front);
      NoRepeatAtEnd(log);
      if LeftBy(catalog, base, front).Some? && Repeats(log) {
        HistoryKeeps(catalog, base, front);
        CancelledOnce(catalog, LeftBy(catalog, base, front).value, front, log[|log| - 1]);
      }
    }
  }

  /** An order that a history has cancelled cannot be cancelled again by a transaction that reads it now. */
  lemma CancelledOnce(catalog: Catalog, db: Db, log: seq<Work>, w: Work)
    requires CancelsShow(db.orders, log) && w in log && w.Cancel?
    ensures Atomic(catalog, db, w).None?
  {
  }
}
