/** A duplicate request can be refused for stock although its key's order has just been committed. */
module KeyRaces {
  import opened Values
  import opened Sums
  import opened Moves
  import opened Serial
  import opened Protocol
  import opened Guarantees

  const REQUEST := Request(7, [Want(0, 1)], Some("k"))

  const LINES := [Line(0, 1, 100)]

  /** One unit in stock, and two requests for it under one key. */
  const CONFIG := Config(map[0 := Product(100, true)], Db(map[0 := Stock(1, 0, 0)], map[], map[]))

  function Missed(oid: OrderId): Tx {
    Fresh(Create(REQUEST, oid)).(phase := KeyMissed)
  }

  function Reader(oid: OrderId): Tx {
    Missed(oid).(phase := Ready, order := OrderRecord(7, Pending, LINES))
  }

  function Locked(oid: OrderId, row: Stock): Tx {
    Reader(oid).(read := map[0 := row], local := map[0 := row], changes := map[0 := []], held := {0})
  }

  const MOVED := Locked(1, Stock(1, 0, 0)).(phase := Booked, local := map[0 := Stock(1, 1, 0)],
                                            order := OrderRecord(7, Confirmed, LINES))

  const SAVED := MOVED.(phase := OrderWritten, writes := map[0 := Stock(1, 1, 1)])

  const KEYED := SAVED.(phase := KeyWritten)

  /** The database once the first request has committed. */
  const NOW := Published(CONFIG.base, KEYED)

  lemma LinesArePriced()
    ensures FirstUnsellable(CONFIG.catalog, REQUEST.items).None?
    ensures Priced(CONFIG.catalog, REQUEST.items) == LINES
    ensures ProductsOf(LINES) == {0}
    ensures Demand(LINES[..0], 0) == 0 && Demand(LINES[..1], 0) == 1 == Demand(LINES, 0)
  {
    assert REQUEST.items[1..] == [];
    assert LINES[0].product == 0 && LINES[..1] == LINES;
  }

  lemma PricedReader(db: Db, oid: OrderId)
    ensures Able(db, Missed(oid), Price) && Effect(CONFIG, db, Missed(oid), Price) == Reader(oid)
  {
    LinesArePriced();
  }

  lemma LockedReader(db: Db, oid: OrderId)
    requires 0 in db.stock
    ensures Able(db, Reader(oid), LockRow(0))
    ensures Effect(CONFIG, db, Reader(oid), LockRow(0)) == Locked(oid, db.stock[0])
  {
    LinesArePriced();
    assert {} + {0} == {0};
  }

  lemma FirstBooks()
    ensures Able(CONFIG.base, Locked(1, Stock(1, 0, 0)), Book)
    ensures Effect(CONFIG, CONFIG.base, Locked(1, Stock(1, 0, 0)), Book) == MOVED
  {
    LinesArePriced();
    var stock := map[0 := Stock(1, 0, 0)];
    assert FaultOf(Reserve, stock, LINES, 0) == None;
    assert After(Reserve, stock, LINES) == map[0 := Stock(1, 1, 0)];
  }

  lemma SecondFallsShort()
    ensures Able(NOW, Locked(2, Stock(1, 1, 1)), Book)
    ensures Effect(CONFIG, NOW, Locked(2, Stock(1, 1, 1)), Book).phase == Aborted(Insufficient(0, 1, 0))
  {
    LinesArePriced();
    assert FaultOf(Reserve, map[0 := Stock(1, 1, 1)], LINES, 0) == Some(Insufficient(0, 1, 0));
  }

  /** Two transactions in flight on the untouched base. */
  function Both(first: Tx, second: Tx): State {
    State(CONFIG.base, map[1 := first, 2 := second], [])
  }

  lemma BothMiss() returns (x: seq<Step>)
    ensures Run(CONFIG, Start(CONFIG), x, Both(Missed(1), Missed(2)))
  {
    var fresh1, fresh2 := Fresh(Create(REQUEST, 1)), Fresh(Create(REQUEST, 2));
    x := [Begin(1, Create(REQUEST, 1))];
    RunThen(CONFIG, Start(CONFIG), [], Start(CONFIG), x[0]);
    assert [] + [x[0]] == x;
    var s1 := State(CONFIG.base, map[1 := fresh1], []);
    RunThen(CONFIG, Start(CONFIG), x, s1, Begin(2, Create(REQUEST, 2)));
    x := x + [Begin(2, Create(REQUEST, 2))];
    assert Next(CONFIG, s1, Begin(2, Create(REQUEST, 2))) == Both(fresh1, fresh2);
    RunThen(CONFIG, Start(CONFIG), x, Both(fresh1, fresh2), Do(1, CheckKey));
    x := x + [Do(1, CheckKey)];
    assert Next(CONFIG, Both(fresh1, fresh2), Do(1, CheckKey)) == Both(Missed(1), fresh2);
    RunThen(CONFIG, Start(CONFIG), x, Both(Missed(1), fresh2), Do(2, CheckKey));
    x := x + [Do(2, CheckKey)];
    assert Next(CONFIG, Both(Missed(1), fresh2), Do(2, CheckKey)) == Both(Missed(1), Missed(2));
  }

  lemma BothPrice() returns (x: seq<Step>)
    ensures Run(CONFIG, Start(CONFIG), x, Both(Reader(1), Reader(2)))
  {
    x := BothMiss();
    PricedReader(CONFIG.base, 1);
    PricedReader(CONFIG.base, 2);
    RunThen(CONFIG, Start(CONFIG), x, Both(Missed(1), Missed(2)), Do(1, Price));
    x := x + [Do(1, Price)];
    assert Next(CONFIG, Both(Missed(1), Missed(2)), Do(1, Price)) == Both(Reader(1), Missed(2));
    RunThen(CONFIG, Start(CONFIG), x, Both(Reader(1), Missed(2)), Do(2, Price));
    x := x + [Do(2, Price)];
    assert Next(CONFIG, Both(Reader(1), Missed(2)), Do(2, Price)) == Both(Reader(1), Reader(2));
  }

  /** A statement of the first transaction while the second holds nothing. */
  lemma FirstRuns(x: seq<Step>, first: Tx, second: Tx, a: Act)
    requires Run(CONFIG, Start(CONFIG), x, Both(first, second))
    requires second.held == {} && PendingKey(second).None? && Able(CONFIG.base, first, a)
    ensures Run(CONFIG, Start(CONFIG), x + [Do(1, a)], Both(Effect(CONFIG, CONFIG.base, first, a), second))
  {
    RunThen(CONFIG, Start(CONFIG), x, Both(first, second), Do(1, a));
    assert Next(CONFIG, Both(first, second), Do(1, a)) == Both(Effect(CONFIG, CONFIG.base, first, a), second);
  }

  lemma FirstMoves() returns (x: seq<Step>)
    ensures Run(CONFIG, Start(CONFIG), x, Both(MOVED, Reader(2)))
  {
    x := BothPrice();
    LockedReader(CONFIG.base, 1);
    FirstRuns(x, Reader(1), Reader(2), LockRow(0));
    x := x + [Do(1, LockRow(0))];
    FirstBooks();
    FirstRuns(x, Locked(1, Stock(1, 0, 0)), Reader(2), Book);
    x := x + [Do(1, Book)];
  }

  lemma FirstWrites() returns (x: seq<Step>)
    ensures Run(CONFIG, Start(CONFIG), x, Both(KEYED, Reader(2)))
  {
    x := FirstMoves();
    var written := MOVED.(phase := OrderWritten);
    FirstRuns(x, MOVED, Reader(2), WriteOrder);
    x := x + [Do(1, WriteOrder)];
    FirstSaves(written);
    FirstRuns(x, written, Reader(2), SaveRow(0));
    x := x + [Do(1, SaveRow(0))];
    FirstRuns(x, SAVED, Reader(2), WriteKey);
    x := x + [Do(1, WriteKey)];
  }

  lemma FirstSaves(written: Tx)
    requires written == MOVED.(phase := OrderWritten)
    ensures Able(CONFIG.base, written, SaveRow(0)) && Effect(CONFIG, CONFIG.base, written, SaveRow(0)) == SAVED
  {
    assert {0} + {0} == {0};
  }

  /** The state in which the second request is about to book. */
  const LATE := State(NOW, map[1 := Committed(KEYED), 2 := Locked(2, Stock(1, 1, 1))], [Create(REQUEST, 1)])

  lemma FirstCommit()
    ensures Enabled(Both(KEYED, Reader(2)), Commit(1))
    ensures Next(CONFIG, Both(KEYED, Reader(2)), Commit(1))
         == State(NOW, map[1 := Committed(KEYED), 2 := Reader(2)], [Create(REQUEST, 1)])
  {
  }

  lemma FirstCommits() returns (x: seq<Step>)
    ensures Run(CONFIG, Start(CONFIG), x, State(NOW, map[1 := Committed(KEYED), 2 := Reader(2)], [Create(REQUEST, 1)]))
  {
    x := FirstWrites();
    FirstCommit();
    RunThen(CONFIG, Start(CONFIG), x, Both(KEYED, Reader(2)), Commit(1));
    x := x + [Commit(1)];
  }

  lemma SecondLocks() returns (x: seq<Step>)
    ensures Run(CONFIG, Start(CONFIG), x, LATE)
  {
    x := FirstCommits();
    var s := State(NOW, map[1 := Committed(KEYED), 2 := Reader(2)], [Create(REQUEST, 1)]);
    assert 0 in NOW.stock && NOW.stock[0] == Stock(1, 1, 1);
    LockedReader(NOW, 2);
    RunThen(CONFIG, Start(CONFIG), x, s, Do(2, LockRow(0)));
    x := x + [Do(2, LockRow(0))];
    assert Next(CONFIG, s, Do(2, LockRow(0))).txs == LATE.txs;
  }

  /** The second request is refused for stock at a moment at which its key names a committed order. */
  predicate RefusedThoughCommitted(steps: seq<Step>, s: State) {
    && Reaches(CONFIG, steps, s)
    && 2 in s.txs && s.txs[2].work == Create(REQUEST, 2) && Able(s.db, s.txs[2], Book)
    && Effect(CONFIG, s.db, s.txs[2], Book).phase == Aborted(Insufficient(0, 1, 0))
    && Hit(REQUEST, s.db.keys)
    && CreateOrder(CONFIG.catalog, s.db, REQUEST, 2).Replayed?
  }

  lemma KeyIsTaken()
    ensures Hit(REQUEST, NOW.keys) && DbOk(CONFIG.base)
  {
  }

  lemma DuplicateRefused()
    ensures exists steps, s :: RefusedThoughCommitted(steps, s)
  {
    var steps := SecondLocks();
    SecondFallsShort();
    KeyIsTaken();
    ReplayIsFaithful(CONFIG, steps, LATE, "k");
    assert RefusedThoughCommitted(steps, LATE);
  }
}
