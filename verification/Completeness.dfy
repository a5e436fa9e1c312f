/**
 * The converse of refinement: whatever an atomic transaction does, the protocol can do, statement by
 * statement, as soon as no one else holds the rows it names or is about to store its key.
 */
module Completeness {
  import opened Values
  import opened Sums
  import opened Moves
  import opened Serial
  import opened Requests
  import opened History
  import opened Protocol
  import opened Refinement

  // ---- Runs, put together ----

  /** Some run leads from a to b. */
  ghost predicate Leads(c: Config, a: State, b: State) {
    exists steps :: Run(c, a, steps, b)
  }

  lemma LeadsNowhere(c: Config, s: State)
    ensures Leads(c, s, s)
  {
    assert Run(c, s, [], s);
  }

  lemma LeadsOn(c: Config, a: State, b: State, e: Step)
    requires Leads(c, a, b) && Enabled(b, e)
    ensures Leads(c, a, Next(c, b, e))
  {
    var steps :| Run(c, a, steps, b);
    RunThen(c, a, steps, b, e);
  }

  lemma {:induction false} RunsJoin(c: Config, a: State, x: seq<Step>, b: State, y: seq<Step>, d: State)
    requires Run(c, a, x, b) && Run(c, b, y, d)
    ensures Run(c, a, x + y, d)
    decreases |x|
  {
    if x == [] {
      assert x + y == y;
    } else {
      assert (x + y)[1..] == x[1..] + y;
      RunsJoin(c, Next(c, a, x[0]), x[1..], b, y, d);
    }
  }

  lemma LeadsThrough(c: Config, a: State, b: State, d: State)
    requires Leads(c, a, b) && Leads(c, b, d)
    ensures Leads(c, a, d)
  {
    var x :| Run(c, a, x, b);
    var y :| Run(c, b, y, d);
    RunsJoin(c, a, x, b, y, d);
  }

  /** A state of some run of the protocol. */
  ghost predicate Reachable(c: Config, s: State) {
    DbOk(c.base) && Leads(c, Start(c), s)
  }

  lemma ReachableOn(c: Config, a: State, b: State)
    requires Reachable(c, a) && Leads(c, a, b)
    ensures Reachable(c, b)
  {
    LeadsThrough(c, Start(c), a, b);
  }

  lemma InvOf(c: Config, s: State)
    requires Reachable(c, s)
    ensures Inv(c, s)
  {
    var steps :| Run(c, Start(c), steps, s);
    ReachableInv(c, steps, s);
  }

  /** The state b is a, except for what transaction t has become. */
  predicate Moved(a: State, t: TxId, b: State) {
    t in b.txs && b == a.(txs := a.txs[t := b.txs[t]])
  }

  /** No one else holds a row of these products or is about to store this key. */
  predicate Free(s: State, t: TxId, products: set<ProductId>, key: Option<Key>) {
    forall u | u in s.txs && u != t ::
      s.txs[u].held !! products && (key.Some? ==> PendingKey(s.txs[u]) != key)
  }

  lemma FreeStays(a: State, t: TxId, b: State, products: set<ProductId>, key: Option<Key>)
    requires Free(a, t, products, key) && Moved(a, t, b)
    ensures Free(b, t, products, key)
  {
  }

  lemma MovesOn(a: State, t: TxId, b: State, tx: Tx)
    requires Moved(a, t, b)
    ensures Moved(a, t, b.(txs := b.txs[t := tx]))
  {
    assert b.txs[t := tx] == a.txs[t := tx];
  }

  /** A statement that need not wait. */
  lemma Statement(c: Config, a: State, b: State, t: TxId, act: Act) returns (d: State)
    requires Leads(c, a, b) && Moved(a, t, b)
    requires Able(b.db, b.txs[t], act) && !MustWait(b, t, act)
    ensures Leads(c, a, d) && Moved(a, t, d)
    ensures d.txs[t] == Effect(c, b.db, b.txs[t], act)
  {
    d := Next(c, b, Do(t, act));
    LeadsOn(c, a, b, Do(t, act));
    MovesOn(a, t, b, d.txs[t]);
  }

  /** What the invariant says of one transaction. */
  lemma Sane(c: Config, a: State, b: State, t: TxId)
    requires Reachable(c, a) && Leads(c, a, b) && t in b.txs
    ensures DbOk(b.db) && TxOk(c, b.db, b.txs[t])
    ensures forall u | u in b.txs && u != t :: Apart(b.txs[t], b.txs[u])
  {
    ReachableOn(c, a, b);
    InvOf(c, b);
  }

  // ---- Creations and cancellations ----

  /** Locks the rows still missing, one at a time. */
  lemma {:induction false} LockAll(c: Config, a: State, b: State, t: TxId, left: set<ProductId>) returns (d: State)
    requires Reachable(c, a) && Leads(c, a, b) && Moved(a, t, b)
    requires b.txs[t].phase.Ready? && !b.txs[t].work.Adjust?
    requires left <= ProductsOf(b.txs[t].order.lines) * b.db.stock.Keys && left !! b.txs[t].held
    requires Free(a, t, left, None)
    ensures Leads(c, a, d) && Moved(a, t, d)
    ensures d.txs[t].phase.Ready? && d.txs[t].work == b.txs[t].work && d.txs[t].order == b.txs[t].order
    ensures d.txs[t].held == b.txs[t].held + left
    decreases left
  {
    if left == {} {
      d := b;
    } else {
      var p :| p in left;
      FreeStays(a, t, b, left, None);
      var next := Statement(c, a, b, t, LockRow(p));
      d := LockAll(c, a, next, t, left - {p});
    }
  }

  /** Writes the rows that are still to be written, one at a time; no version can differ. */
  lemma {:induction false} SaveAll(c: Config, a: State, b: State, t: TxId, left: set<ProductId>) returns (d: State)
    requires Reachable(c, a) && Leads(c, a, b) && Moved(a, t, b)
    requires b.txs[t].phase.OrderWritten? && !b.txs[t].work.Adjust?
    requires left == b.txs[t].local.Keys - b.txs[t].writes.Keys
    ensures Leads(c, a, d) && Moved(a, t, d)
    ensures d.txs[t].phase.OrderWritten? && d.txs[t].work == b.txs[t].work && d.txs[t].writes.Keys == d.txs[t].local.Keys
    decreases left
  {
    if left == {} {
      d := b;
      WritesAreLocal(c, a, b, t);
      assert forall p | p in d.txs[t].local :: p in d.txs[t].writes || p in left;
    } else {
      var p :| p in left;
      var next := SaveNext(c, a, b, t, p);
      assert left - {p} == next.txs[t].local.Keys - next.txs[t].writes.Keys;
      d := SaveAll(c, a, next, t, left - {p});
    }
  }

  lemma WritesAreLocal(c: Config, a: State, b: State, t: TxId)
    requires Reachable(c, a) && Leads(c, a, b) && t in b.txs
    ensures b.txs[t].writes.Keys <= b.txs[t].local.Keys
  {
    Sane(c, a, b, t);
  }

  lemma SaveNext(c: Config, a: State, b: State, t: TxId, p: ProductId) returns (d: State)
    requires Reachable(c, a) && Leads(c, a, b) && Moved(a, t, b)
    requires b.txs[t].phase.OrderWritten? && !b.txs[t].work.Adjust?
    requires p in b.txs[t].local && p !in b.txs[t].writes
    ensures Leads(c, a, d) && Moved(a, t, d)
    ensures d.txs[t].phase.OrderWritten? && d.txs[t].work == b.txs[t].work && d.txs[t].local == b.txs[t].local
    ensures d.txs[t].writes.Keys == b.txs[t].writes.Keys + {p}
  {
    Sane(c, a, b, t);
    OwnRow(c, b, t, p);
    d := Statement(c, a, b, t, SaveRow(p));
  }

  lemma OwnRow(c: Config, b: State, t: TxId, p: ProductId)
    requires t in b.txs && TxOk(c, b.db, b.txs[t]) && b.txs[t].phase.OrderWritten? && !b.txs[t].work.Adjust?
    requires forall u | u in b.txs && u != t :: Apart(b.txs[t], b.txs[u])
    requires p in b.txs[t].local && p !in b.txs[t].writes
    ensures Able(b.db, b.txs[t], SaveRow(p)) && !MustWait(b, t, SaveRow(p))
    ensures var next := Effect(c, b.db, b.txs[t], SaveRow(p));
            && next.phase == OrderWritten && next.work == b.txs[t].work && next.local == b.txs[t].local
            && next.writes.Keys == b.txs[t].writes.Keys + {p}
  {
    assert p in b.txs[t].read;
    LockedVersion(b.db, b.txs[t], p);
    forall u | u in b.txs && u != t ensures p !in b.txs[u].held {
      assert Apart(b.txs[t], b.txs[u]);
    }
  }

  /** With its order built, a transaction is refused as the committed stock refuses it, or can commit. */
  lemma FinishOrder(c: Config, a: State, b: State, t: TxId) returns (d: State)
    requires Reachable(c, a) && Leads(c, a, b) && Moved(a, t, b)
    requires b.txs[t].phase.Ready? && !b.txs[t].work.Adjust?
    requires Free(a, t, ProductsOf(b.txs[t].order.lines), KeyOf(b.txs[t].work))
    requires KeyOf(b.txs[t].work).Some? ==> KeyOf(b.txs[t].work).value !in b.db.keys
    ensures Leads(c, a, d) && Moved(a, t, d) && d.txs[t].work == b.txs[t].work
    ensures match Verdict(MoveOf(b.txs[t].work), b.db.stock, b.txs[t].order.lines)
            case Some(e) => d.txs[t].phase == Aborted(e)
            case None => CanCommit(d.txs[t])
  {
    var tx := b.txs[t];
    var products := ProductsOf(tx.order.lines) * b.db.stock.Keys;
    Sane(c, a, b, t);
    var locked := LockAll(c, a, b, t, products - tx.held);
    Sane(c, a, locked, t);
    SameFaults(MoveOf(tx.work), locked.txs[t].local, locked.db.stock, tx.order.lines);
    d := Statement(c, a, locked, t, Book);
    if Verdict(MoveOf(tx.work), b.db.stock, tx.order.lines).None? {
      d := WriteAll(c, a, d, t);
    }
  }

  /** Once booked, a transaction writes its order, its rows and its key. */
  lemma WriteAll(c: Config, a: State, b: State, t: TxId) returns (d: State)
    requires Reachable(c, a) && Leads(c, a, b) && Moved(a, t, b)
    requires b.txs[t].phase.Booked? && !b.txs[t].work.Adjust?
    requires Free(a, t, {}, KeyOf(b.txs[t].work))
    requires KeyOf(b.txs[t].work).Some? ==> KeyOf(b.txs[t].work).value !in b.db.keys
    ensures Leads(c, a, d) && Moved(a, t, d) && d.txs[t].work == b.txs[t].work
    ensures CanCommit(d.txs[t])
  {
    d := Statement(c, a, b, t, WriteOrder);
    d := SaveAll(c, a, d, t, d.txs[t].local.Keys - d.txs[t].writes.Keys);
    if KeyOf(b.txs[t].work).Some? {
      FreeStays(a, t, d, {}, KeyOf(b.txs[t].work));
      d := Statement(c, a, d, t, WriteKey);
    }
  }

  lemma Started(c: Config, s: State, t: TxId, w: Work) returns (b: State)
    requires Reachable(c, s) && Enabled(s, Begin(t, w))
    ensures Leads(c, s, b) && Moved(s, t, b) && Reachable(c, b) && b.txs[t] == Fresh(w)
    ensures Moved(b, t, b) && Leads(c, b, b) && b == Next(c, s, Begin(t, w))
  {
    b := Next(c, s, Begin(t, w));
    LeadsNowhere(c, s);
    LeadsOn(c, s, s, Begin(t, w));
    ReachableOn(c, s, b);
    LeadsNowhere(c, b);
    assert b.txs == b.txs[t := b.txs[t]];
  }

  /** What a creation has come to: its commit, a replay, or a refusal that leaves nothing. */
  predicate CreationRan(a: State, t: TxId, w: Work, outcome: Outcome, b: State)
    requires w.Create?
  {
    && t in b.txs && b.txs[t].held == {} && b.txs[t].work == w
    && match outcome
       case Created(after, result) =>
         && b == State(after, a.txs[t := b.txs[t]], a.log + [w])
         && b.txs[t].phase == Done && b.txs[t].result == Some(result)
       case Replayed(result) => Moved(a, t, b) && b.txs[t].phase == Done && b.txs[t].result == Some(result)
       case Failed(e) => Moved(a, t, b) && b.txs[t].phase == Aborted(e)
  }

  lemma CommitCreation(c: Config, a: State, b: State, t: TxId) returns (d: State)
    requires Reachable(c, a) && Leads(c, a, b) && Moved(a, t, b)
    requires b.txs[t].work.Create? && CanCommit(b.txs[t])
    ensures Leads(c, a, d)
    ensures CreationRan(a, t, b.txs[t].work, CreateOrder(c.catalog, a.db, b.txs[t].work.req, b.txs[t].work.oid), d)
  {
    Sane(c, a, b, t);
    d := Committing(c, a, b, t);
    CreateIsAtomic(c, b.db, b.txs[t]);
  }

  lemma Committing(c: Config, a: State, b: State, t: TxId) returns (d: State)
    requires Leads(c, a, b) && Moved(a, t, b) && CanCommit(b.txs[t])
    ensures Leads(c, a, d) && t in d.txs && d.txs[t] == Committed(b.txs[t])
    ensures d == State(Published(b.db, b.txs[t]), a.txs[t := d.txs[t]], a.log + [Logged(b.txs[t])])
  {
    d := Next(c, b, Commit(t));
    LeadsOn(c, a, b, Commit(t));
    MovesOn(a, t, b, d.txs[t]);
  }

  /** The creation once its key has been looked up and not been found. */
  lemma RunMissed(c: Config, a: State, b: State, t: TxId) returns (d: State)
    requires Reachable(c, a) && Leads(c, a, b) && Moved(a, t, b)
    requires b.txs[t].work.Create? && b.txs[t].phase.KeyMissed?
    requires b.txs[t].work.req.items != [] && !Hit(b.txs[t].work.req, a.db.keys)
    requires Free(a, t, Wanted(b.txs[t].work.req), KeyOf(b.txs[t].work))
    ensures Leads(c, a, d)
    ensures CreationRan(a, t, b.txs[t].work, CreateOrder(c.catalog, a.db, b.txs[t].work.req, b.txs[t].work.oid), d)
  {
    var req := b.txs[t].work.req;
    d := Statement(c, a, b, t, Price);
    if FirstUnsellable(c.catalog, req.items).None? {
      WantedAreProducts(c.catalog, req);
      d := FinishOrder(c, a, d, t);
      if Verdict(Reserve, a.db.stock, Priced(c.catalog, req.items)).None? {
        d := CommitCreation(c, a, d, t);
      } else {
        Sane(c, a, d, t);
      }
    }
  }

  /** Starting from a, the transaction has run as if it had started from s. */
  lemma RanFrom(s: State, a: State, t: TxId, w: Work, outcome: Outcome, b: State)
    requires w.Create? && Moved(s, t, a) && CreationRan(a, t, w, outcome, b)
    ensures CreationRan(s, t, w, outcome, b)
  {
    assert a.txs[t := b.txs[t]] == s.txs[t := b.txs[t]];
  }

  /** A creation that ends with the lookup of its key: an empty order, or a replay. */
  lemma LookupEnds(c: Config, db: Db, req: Request, oid: OrderId)
    requires DbOk(db) && (req.items == [] || Hit(req, db.keys))
    ensures var tx := Effect(c, db, Fresh(Create(req, oid)), CheckKey);
            && tx.held == {} && tx.work == Create(req, oid)
            && match CreateOrder(c.catalog, db, req, oid)
               case Created(_, _) => false
               case Replayed(result) => tx.phase == Done && tx.result == Some(result)
               case Failed(e) => tx.phase == Aborted(e)
  {
  }

  /**
   * Every creation can run to the outcome of the atomic creation on the database as it is: commit, replay or
   * refusal, with that result or error, leaving everyone else as they were.
   */
  lemma CreationCanRun(c: Config, s: State, t: TxId, req: Request, oid: OrderId) returns (s': State)
    requires Reachable(c, s) && Enabled(s, Begin(t, Create(req, oid)))
    requires Free(s, t, Wanted(req), KeyOf(Create(req, oid)))
    ensures Leads(c, s, s') && Leads(c, Next(c, s, Begin(t, Create(req, oid))), s')
    ensures CreationRan(s, t, Create(req, oid), CreateOrder(c.catalog, s.db, req, oid), s')
  {
    var w := Create(req, oid);
    var a := Started(c, s, t, w);
    FreeStays(s, t, a, Wanted(req), KeyOf(w));
    var d := Statement(c, a, a, t, CheckKey);
    if req.items == [] || Hit(req, s.db.keys) {
      InvOf(c, s);
      LookupEnds(c, s.db, req, oid);
      s' := d;
    } else {
      s' := RunMissed(c, a, d, t);
    }
    RanFrom(s, a, t, w, CreateOrder(c.catalog, s.db, req, oid), s');
    LeadsThrough(c, s, a, s');
  }

  predicate CancellationRan(a: State, t: TxId, oid: OrderId, outcome: Result<Db>, b: State) {
    && t in b.txs && b.txs[t].held == {} && b.txs[t].work == Cancel(oid)
    && match outcome
       case Ok(after) =>
         b == State(after, a.txs[t := b.txs[t]], a.log + [Cancel(oid)]) && b.txs[t].phase == Done
       case Err(e) => Moved(a, t, b) && b.txs[t].phase == Aborted(e)
  }

  lemma CommitCancellation(c: Config, a: State, b: State, t: TxId, oid: OrderId) returns (d: State)
    requires Reachable(c, a) && Leads(c, a, b) && Moved(a, t, b)
    requires b.txs[t].work == Cancel(oid) && CanCommit(b.txs[t])
    requires oid in a.db.orders && a.db.orders[oid].status == Pending
    ensures Leads(c, a, d) && CancellationRan(a, t, oid, CancelOrder(a.db, oid), d)
  {
    Sane(c, a, b, t);
    d := Committing(c, a, b, t);
    CancelIsAtomic(c, b.db, b.txs[t]);
  }

  /** The cancellation of an order that it has read as PENDING. */
  lemma RunRead(c: Config, a: State, b: State, t: TxId, oid: OrderId) returns (d: State)
    requires Reachable(c, a) && Leads(c, a, b) && Moved(a, t, b)
    requires b.txs[t].work == Cancel(oid) && b.txs[t].phase.Ready?
    requires oid in a.db.orders && a.db.orders[oid].status == Pending
    requires b.txs[t].order.lines == a.db.orders[oid].lines
    requires Free(a, t, ProductsOf(a.db.orders[oid].lines), None)
    ensures Leads(c, a, d) && CancellationRan(a, t, oid, CancelOrder(a.db, oid), d)
  {
    d := FinishOrder(c, a, b, t);
    if Verdict(Release, a.db.stock, a.db.orders[oid].lines).None? {
      d := CommitCancellation(c, a, d, t, oid);
    } else {
      Sane(c, a, d, t);
    }
  }

  lemma CancelledFrom(s: State, a: State, t: TxId, oid: OrderId, outcome: Result<Db>, b: State)
    requires Moved(s, t, a) && CancellationRan(a, t, oid, outcome, b)
    ensures CancellationRan(s, t, oid, outcome, b)
  {
    assert a.txs[t := b.txs[t]] == s.txs[t := b.txs[t]];
  }

  /** Every cancellation can run to the outcome of the atomic cancellation on the database as it is. */
  lemma CancellationCanRun(c: Config, s: State, t: TxId, oid: OrderId) returns (s': State)
    requires Reachable(c, s) && Enabled(s, Begin(t, Cancel(oid)))
    requires oid in s.db.orders ==> Free(s, t, ProductsOf(s.db.orders[oid].lines), None)
    ensures Leads(c, s, s') && CancellationRan(s, t, oid, CancelOrder(s.db, oid), s')
  {
    var a := Started(c, s, t, Cancel(oid));
    s' := Statement(c, a, a, t, ReadOrder);
    if oid in s.db.orders && s.db.orders[oid].status == Pending {
      FreeStays(s, t, a, ProductsOf(s.db.orders[oid].lines), None);
      s' := RunRead(c, a, s', t, oid);
    }
    CancelledFrom(s, a, t, oid, CancelOrder(s.db, oid), s');
    LeadsThrough(c, s, a, s');
  }

  // ---- Adjusting transactions ----

  lemma {:induction false} AppliedPrefix(p: ProductId, row: Stock, calls: seq<Change>, i: nat)
    requires i <= |calls| && Applied(p, row, calls).Some?
    ensures Applied(p, row, calls[..i]).Some?
    decreases |calls| - i
  {
    if i < |calls| {
      AppliedPrefix(p, row, calls, i + 1);
      assert calls[..i + 1][..i] == calls[..i];
    } else {
      assert calls[..i] == calls;
    }
  }

  lemma {:induction false} FoldedPrefix(p: ProductId, row: Stock, saves: seq<seq<Change>>, i: nat)
    requires i <= |saves| && Folded(p, row, saves).Some?
    ensures Folded(p, row, saves[..i]).Some?
    ensures i < |saves| ==> Applied(p, Folded(p, row, saves[..i]).value, saves[i]).Some?
    decreases |saves| - i
  {
    if i < |saves| {
      FoldedPrefix(p, row, saves, i + 1);
      assert saves[..i + 1][..i] == saves[..i];
    } else {
      assert saves[..i] == saves;
    }
  }

  predicate Adjusting(tx: Tx) {
    tx.work == Adjust(map[]) && tx.phase.Ready?
  }

  lemma CallPossible(tx: Tx, p: ProductId, calls: seq<Change>, i: nat)
    requires CallsOk(tx.read, tx.local, tx.changes) && p in tx.read && i < |calls| && tx.changes[p] == calls[..i]
    requires Applied(p, tx.read[p], calls).Some?
    ensures p in tx.local && TryMove(calls[i].move, p, tx.local[p], calls[i].amount).Ok?
    ensures tx.changes[p] + [calls[i]] == calls[..i + 1]
  {
    AppliedPrefix(p, tx.read[p], calls, i + 1);
    assert calls[..i + 1][..i] == calls[..i];
  }

  /** Makes the calls from the i-th on. */
  lemma {:induction false} CallAll(c: Config, a: State, b: State, t: TxId, p: ProductId, calls: seq<Change>, i: nat)
    returns (d: State)
    requires Reachable(c, a) && Leads(c, a, b) && Moved(a, t, b) && Adjusting(b.txs[t])
    requires p in b.txs[t].read && p in b.txs[t].changes && i <= |calls| && b.txs[t].changes[p] == calls[..i]
    requires Applied(p, b.txs[t].read[p], calls).Some?
    ensures Leads(c, a, d) && Moved(a, t, d)
    ensures d.txs[t] == b.txs[t].(local := d.txs[t].local, changes := d.txs[t].changes)
    ensures p in d.txs[t].changes && d.txs[t].changes[p] == calls
    decreases |calls| - i
  {
    if i == |calls| {
      d := b;
      assert calls[..i] == calls;
    } else {
      Sane(c, a, b, t);
      CallPossible(b.txs[t], p, calls, i);
      var next := Statement(c, a, b, t, Call(p, calls[i]));
      d := CallAll(c, a, next, t, p, calls, i + 1);
    }
  }

  /** One more save of p: read, calls, versioned UPDATE. */
  lemma SaveOnce(c: Config, a: State, b: State, t: TxId, p: ProductId, calls: seq<Change>) returns (d: State)
    requires Reachable(c, a) && Leads(c, a, b) && Moved(a, t, b) && Adjusting(b.txs[t])
    requires p in b.db.stock && Applied(p, Visible(b.db, b.txs[t], p), calls).Some? && Free(a, t, {p}, None)
    ensures Leads(c, a, d) && Moved(a, t, d) && Adjusting(d.txs[t])
    ensures d.txs[t].saved == b.txs[t].saved[p := SavedBefore(b.txs[t], p) + [calls]]
  {
    d := Statement(c, a, b, t, Peek(p));
    d := CallAll(c, a, d, t, p, calls, 0);
    Sane(c, a, d, t);
    assert p in d.txs[t].read && p in {p};
    FreeStays(a, t, d, {p}, None);
    d := Statement(c, a, d, t, SaveRow(p));
  }

  lemma SavePossible(c: Config, a: State, b: State, t: TxId, p: ProductId, saves: seq<seq<Change>>, k: nat)
    requires Reachable(c, a) && Leads(c, a, b) && t in b.txs && Adjusting(b.txs[t])
    requires p in b.db.stock && Folded(p, b.db.stock[p], saves).Some?
    requires k < |saves| && SavedBefore(b.txs[t], p) == saves[..k]
    ensures Applied(p, Visible(b.db, b.txs[t], p), saves[k]).Some?
  {
    Sane(c, a, b, t);
    FoldedPrefix(p, b.db.stock[p], saves, k);
  }

  /** Makes the saves of p from the k-th on. */
  lemma {:induction false} SaveRepeatedly(c: Config, a: State, b: State, t: TxId, p: ProductId, saves: seq<seq<Change>>, k: nat)
    returns (d: State)
    requires Reachable(c, a) && Leads(c, a, b) && Moved(a, t, b) && Adjusting(b.txs[t])
    requires p in b.db.stock && Folded(p, b.db.stock[p], saves).Some? && Free(a, t, {p}, None)
    requires k < |saves| && SavedBefore(b.txs[t], p) == saves[..k]
    ensures Leads(c, a, d) && Moved(a, t, d) && Adjusting(d.txs[t])
    ensures d.txs[t].saved == b.txs[t].saved[p := saves]
    decreases |saves| - k
  {
    SavePossible(c, a, b, t, p, saves, k);
    d := SaveOnce(c, a, b, t, p, saves[k]);
    assert saves[..k] + [saves[k]] == saves[..k + 1];
    if k + 1 < |saves| {
      d := SaveRepeatedly(c, a, d, t, p, saves, k + 1);
    } else {
      assert saves[..k + 1] == saves;
    }
  }

  /** Every item of an entry is saved at least once. */
  predicate Saving(saves: SaveMap) {
    forall p | p in saves :: saves[p] != []
  }

  lemma {:induction false} SaveEach(c: Config, a: State, b: State, t: TxId, saves: SaveMap, left: set<ProductId>)
    returns (d: State)
    requires Reachable(c, a) && Leads(c, a, b) && Moved(a, t, b) && Adjusting(b.txs[t])
    requires Saving(saves) && Applicable(b.db.stock, saves) && Free(a, t, saves.Keys, None)
    requires left <= saves.Keys && b.txs[t].saved == saves - left
    ensures Leads(c, a, d) && Moved(a, t, d) && Adjusting(d.txs[t]) && d.txs[t].saved == saves
    decreases left
  {
    if left == {} {
      d := b;
      assert saves - left == saves;
    } else {
      var p :| p in left;
      assert Free(a, t, {p}, None);
      d := SaveRepeatedly(c, a, b, t, p, saves[p], 0);
      assert (saves - left)[p := saves[p]] == saves - (left - {p});
      d := SaveEach(c, a, d, t, saves, left - {p});
    }
  }

  lemma CommitAdjustment(c: Config, a: State, b: State, t: TxId) returns (d: State)
    requires Reachable(c, a) && Leads(c, a, b) && Moved(a, t, b) && Adjusting(b.txs[t])
    ensures Leads(c, a, d) && t in d.txs && d.txs[t] == Committed(b.txs[t])
    ensures AdjustStock(a.db, b.txs[t].saved).Some?
    ensures d == State(AdjustStock(a.db, b.txs[t].saved).value, a.txs[t := d.txs[t]], a.log + [Adjust(b.txs[t].saved)])
  {
    Sane(c, a, b, t);
    AdjustIsAtomic(c, b.db, b.txs[t]);
    d := Committing(c, a, b, t);
  }

  /** Every sequence of saves that can be made atomically can be run, read by read and call by call. */
  lemma AdjustmentCanRun(c: Config, s: State, t: TxId, saves: SaveMap) returns (s': State)
    requires Reachable(c, s) && t !in s.txs && Saving(saves) && AdjustStock(s.db, saves).Some?
    requires Free(s, t, saves.Keys, None)
    ensures Leads(c, s, s') && t in s'.txs && s'.txs[t].held == {}
    ensures s'.txs[t].phase == Done && s'.txs[t].work.Adjust?
    ensures s' == State(AdjustStock(s.db, saves).value, s.txs[t := s'.txs[t]], s.log + [Adjust(saves)])
  {
    var a := Started(c, s, t, Adjust(map[]));
    FreeStays(s, t, a, saves.Keys, None);
    s' := SaveAndCommit(c, a, t, saves);
    LeadsThrough(c, s, a, s');
    MovesOn(s, t, a, s'.txs[t]);
  }

  lemma SaveAndCommit(c: Config, a: State, t: TxId, saves: SaveMap) returns (d: State)
    requires Reachable(c, a) && Leads(c, a, a) && Moved(a, t, a) && a.txs[t] == Fresh(Adjust(map[]))
    requires Saving(saves) && AdjustStock(a.db, saves).Some? && Free(a, t, saves.Keys, None)
    ensures Leads(c, a, d) && t in d.txs && d.txs[t].held == {} && d.txs[t].phase == Done && d.txs[t].work.Adjust?
    ensures d == State(AdjustStock(a.db, saves).value, a.txs[t := d.txs[t]], a.log + [Adjust(saves)])
  {
    assert saves - saves.Keys == map[];
    d := SaveEach(c, a, a, t, saves, saves.Keys);
    d := CommitAdjustment(c, a, d, t);
  }

  // ---- Whole histories ----

  /** A state in which every transaction has ended, and every creation's order is committed. */
  ghost predicate Ended(s: State, n: nat) {
    && (forall t: TxId :: t in s.txs <==> t < n)
    && forall t | t in s.txs ::
         && s.txs[t].held == {} && !s.txs[t].phase.KeyWritten?
         && (s.txs[t].work.Create? ==> s.txs[t].work.oid in s.db.orders)
  }

  predicate SavesCount(log: seq<Work>) {
    forall w | w in log && w.Adjust? :: Saving(w.saves)
  }

  /** After a state in which everything has ended, one more atomic transaction. */
  lemma WorkCanRun(c: Config, s: State, w: Work, n: nat) returns (s': State)
    requires Reachable(c, s) && Ended(s, n) && Atomic(c.catalog, s.db, w).Some? && (w.Adjust? ==> Saving(w.saves))
    ensures Leads(c, s, s') && n in s'.txs && s'.txs[n].held == {} && s'.txs[n].phase == Done
    ensures s' == State(Atomic(c.catalog, s.db, w).value, s.txs[n := s'.txs[n]], s.log + [w])
    ensures if w.Adjust? then s'.txs[n].work.Adjust? else s'.txs[n].work == w
  {
    match w
    case Create(req, oid) => s' := CreationCanRun(c, s, n, req, oid);
    case Cancel(oid) => s' := CancellationCanRun(c, s, n, oid);
    case Adjust(saves) => s' := AdjustmentCanRun(c, s, n, saves);
  }

  lemma EndedOn(c: Config, s: State, w: Work, n: nat, s': State)
    requires DbOk(s.db) && Ended(s, n) && Atomic(c.catalog, s.db, w).Some?
    requires n in s'.txs && s'.txs[n].held == {} && s'.txs[n].phase == Done
    requires s' == State(Atomic(c.catalog, s.db, w).value, s.txs[n := s'.txs[n]], s.log + [w])
    requires if w.Adjust? then s'.txs[n].work.Adjust? else s'.txs[n].work == w
    ensures Ended(s', n + 1)
  {
    AtomicKeeps(c.catalog, s.db, w);
    AtomicShape(c.catalog, s.db, w);
  }

  /** Every serial history is the history of a run of the protocol. */
  lemma {:induction false} HistoryCanRun(c: Config, log: seq<Work>) returns (s: State)
    requires DbOk(c.base) && Replay(c.catalog, c.base, log).Some? && SavesCount(log)
    ensures Leads(c, Start(c), s) && s.log == log && s.db == Replay(c.catalog, c.base, log).value
    ensures Ended(s, |log|)
  {
    if log == [] {
      s := Start(c);
      LeadsNowhere(c, s);
    } else {
      var n := |log| - 1;
      var front := log[..n];
      assert log == front + [log[n]];
      var before := HistoryCanRun(c, front);
      s := HistoryStep(c, before, log[n], n);
    }
  }

  lemma HistoryStep(c: Config, before: State, w: Work, n: nat) returns (s: State)
    requires DbOk(c.base) && Leads(c, Start(c), before) && Ended(before, n)
    requires Atomic(c.catalog, before.db, w).Some? && (w.Adjust? ==> Saving(w.saves))
    ensures Leads(c, Start(c), s) && Ended(s, n + 1)
    ensures s.log == before.log + [w] && s.db == Atomic(c.catalog, before.db, w).value
  {
    InvOf(c, before);
    s := WorkCanRun(c, before, w, n);
    EndedOn(c, before, w, n, s);
    LeadsThrough(c, Start(c), before, s);
  }

  // ---- The histories of the protocol, exactly ----

  /** A transaction in flight, and the log, hold no empty list of saves. */
  ghost predicate SavesCounted(s: State) {
    && SavesCount(s.log)
    && forall t | t in s.txs :: Saving(s.txs[t].saved)
  }

  lemma SavesCountedStep(c: Config, s: State, e: Step)
    requires SavesCounted(s) && Enabled(s, e)
    ensures SavesCounted(Next(c, s, e))
  {
    match e
    case Begin(_, _) =>
    case Do(t, a) =>
      assert Saving(Effect(c, s.db, s.txs[t], a).saved);
    case Commit(t) =>
      assert Saving(Committed(s.txs[t]).saved);
      assert Logged(s.txs[t]).Adjust? ==> Saving(Logged(s.txs[t]).saves);
  }

  lemma {:induction false} RunSavesCount(c: Config, s: State, steps: seq<Step>, s': State)
    requires SavesCounted(s) && Run(c, s, steps, s')
    ensures SavesCounted(s')
    decreases |steps|
  {
    if steps != [] {
      SavesCountedStep(c, s, steps[0]);
      RunSavesCount(c, Next(c, s, steps[0]), steps[1..], s');
    }
  }

  ghost predicate HistoryOf(c: Config, log: seq<Work>, db: Db) {
    exists steps, s :: Run(c, Start(c), steps, s) && s.log == log && s.db == db
  }

  /**
   * The histories of the protocol in which no order is cancelled twice are exactly the serial histories:
   * every run leaves what its transactions leave one at a time, and every way of running transactions one
   * at a time is reached by a run. (A log lists at least one save for every item it mentions.)
   */
  lemma HistoriesAreSerial(c: Config, log: seq<Work>, db: Db)
    requires DbOk(c.base)
    ensures HistoryOf(c, log, db) && NoCancelTwice(log) <==> Replay(c.catalog, c.base, log) == Some(db) && SavesCount(log)
  {
    if HistoryOf(c, log, db) && NoCancelTwice(log) {
      var steps, s :| Run(c, Start(c), steps, s) && s.log == log && s.db == db;
      Serialisable(c, steps, s);
      RunSavesCount(c, Start(c), steps, s);
    }
    if Replay(c.catalog, c.base, log) == Some(db) && SavesCount(log) {
      SerialIffNoCancelTwice(c.catalog, c.base, log);
      var s := HistoryCanRun(c, log);
      var steps :| Run(c, Start(c), steps, s);
      assert Run(c, Start(c), steps, s) && s.log == log && s.db == db;
    }
  }
}
