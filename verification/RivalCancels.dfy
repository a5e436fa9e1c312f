/** Why serialisability needs that no order is cancelled twice. */
module RivalCancels {
  import opened Values
  import opened Sums
  import opened Moves
  import opened Serial
  import opened Protocol
  import opened Refinement

  const ORDER := OrderRecord(7, Pending, [Line(0, 3, 100)])

  /** Three of the six reserved units belong to the pending order 1. */
  const BASE := Db(map[0 := Stock(10, 6, 0)], map[1 := ORDER], map[])

  const CONFIG := Config(map[], BASE)

  /** A cancellation of order 1 that has read it as pending. */
  function Reader(): Tx {
    Fresh(Cancel(1)).(phase := Ready, order := ORDER.(status := Cancelled))
  }

  function Locked(row: Stock): Tx {
    Reader().(read := map[0 := row], local := map[0 := row], changes := map[0 := []], held := {0})
  }

  function Moved(row: Stock): Tx {
    Locked(row).(phase := Booked, local := map[0 := Shifted(Release, row, 3)])
  }

  function Saved(row: Stock): Tx {
    Moved(row).(phase := OrderWritten, writes := map[0 := Bumped(Shifted(Release, row, 3))])
  }

  lemma BookMoves(db: Db, row: Stock)
    requires row.reserved >= 3
    ensures Able(db, Locked(row), Book)
    ensures Effect(CONFIG, db, Locked(row), Book) == Moved(row)
  {
    var lines := ORDER.lines;
    assert lines[..0] == [] && lines[..1] == lines;
    assert Demand(lines, 0) == 3;
    assert ProductsOf(lines) == {0} by {
      assert lines[0].product == 0;
    }
    assert FaultOf(Release, map[0 := row], lines, 0).None?;
    assert After(Release, map[0 := row], lines) == map[0 := Shifted(Release, row, 3)];
  }

  lemma LockLocks(db: Db)
    requires 0 in db.stock
    ensures Able(db, Reader(), LockRow(0))
    ensures Effect(CONFIG, db, Reader(), LockRow(0)) == Locked(db.stock[0])
  {
    assert ORDER.lines[0].product in ProductsOf(ORDER.lines);
    assert {} + {0} == {0};
  }

  lemma SaveSaves(db: Db)
    requires 0 in db.stock
    ensures var tx := Moved(db.stock[0]).(phase := OrderWritten);
            Able(db, tx, SaveRow(0)) && Effect(CONFIG, db, tx, SaveRow(0)) == Saved(db.stock[0])
  {
    assert {0} + {0} == {0};
  }

  predicate NothingHeld(s: State) {
    forall u | u in s.txs :: s.txs[u].held == {}
  }

  /** The state with transaction t replaced. */
  function With(s: State, t: TxId, tx: Tx): State {
    s.(txs := s.txs[t := tx])
  }

  lemma LockStep(s0: State, x: seq<Step>, s: State, t: TxId)
    requires Run(CONFIG, s0, x, s)
    requires t in s.txs && s.txs[t] == Reader() && NothingHeld(s) && 0 in s.db.stock
    ensures Run(CONFIG, s0, x + [Do(t, LockRow(0))], With(s, t, Locked(s.db.stock[0])))
  {
    LockLocks(s.db);
    RunThen(CONFIG, s0, x, s, Do(t, LockRow(0)));
  }

  lemma BookStep(s0: State, x: seq<Step>, s: State, t: TxId, row: Stock)
    requires Run(CONFIG, s0, x, s)
    requires t in s.txs && s.txs[t] == Locked(row) && row.reserved >= 3
    ensures Run(CONFIG, s0, x + [Do(t, Book)], With(s, t, Moved(row)))
  {
    BookMoves(s.db, row);
    RunThen(CONFIG, s0, x, s, Do(t, Book));
  }

  /** A cancellation that has read the order as pending runs to its commit, whatever the order is by then. */
  lemma FinishCancel(s0: State, x: seq<Step>, s: State, t: TxId) returns (y: seq<Step>, s': State)
    requires Run(CONFIG, s0, x, s)
    requires t in s.txs && s.txs[t] == Reader() && NothingHeld(s)
    requires 0 in s.db.stock && s.db.stock[0].reserved >= 3
    ensures Run(CONFIG, s0, y, s')
    ensures s' == State(Published(s.db, Saved(s.db.stock[0])),
                        s.txs[t := Committed(Saved(s.db.stock[0]))], s.log + [Cancel(1)])
  {
    var row := s.db.stock[0];
    LockStep(s0, x, s, t);
    BookStep(s0, x + [Do(t, LockRow(0))], With(s, t, Locked(row)), t, row);
    y, s' := SaveAndCommit(s0, x + [Do(t, LockRow(0))] + [Do(t, Book)], With(With(s, t, Locked(row)), t, Moved(row)), t, row);
    assert s'.txs == s.txs[t := Committed(Saved(row))];
  }

  lemma SaveAndCommit(s0: State, x: seq<Step>, s: State, t: TxId, row: Stock) returns (y: seq<Step>, s': State)
    requires Run(CONFIG, s0, x, s)
    requires t in s.txs && s.txs[t] == Moved(row) && forall u | u in s.txs && u != t :: s.txs[u].held == {}
    requires 0 in s.db.stock && s.db.stock[0] == row
    ensures Run(CONFIG, s0, y, s')
    ensures s' == State(Published(s.db, Saved(row)), s.txs[t := Committed(Saved(row))], s.log + [Cancel(1)])
  {
    var z := WriteAndSave(s0, x, s, t, row);
    var s4 := With(s, t, Saved(row));
    RunThen(CONFIG, s0, z, s4, Commit(t));
    s' := Next(CONFIG, s4, Commit(t));
    y := z + [Commit(t)];
    assert s'.txs == s.txs[t := Committed(Saved(row))];
  }

  lemma WriteAndSave(s0: State, x: seq<Step>, s: State, t: TxId, row: Stock) returns (y: seq<Step>)
    requires Run(CONFIG, s0, x, s)
    requires t in s.txs && s.txs[t] == Moved(row) && forall u | u in s.txs && u != t :: s.txs[u].held == {}
    requires 0 in s.db.stock && s.db.stock[0] == row
    ensures Run(CONFIG, s0, y, With(s, t, Saved(row)))
  {
    RunThen(CONFIG, s0, x, s, Do(t, WriteOrder));
    var s3 := With(s, t, Moved(row).(phase := OrderWritten));
    SaveSaves(s.db);
    y := x + [Do(t, WriteOrder)];
    RunThen(CONFIG, s0, y, s3, Do(t, SaveRow(0)));
    y := y + [Do(t, SaveRow(0))];
    assert With(s3, t, Saved(row)) == With(s, t, Saved(row));
  }

  lemma BothRead() returns (x: seq<Step>)
    ensures Run(CONFIG, Start(CONFIG), x, State(BASE, map[1 := Reader(), 2 := Reader()], []))
  {
    var s0 := Start(CONFIG);
    RunThen(CONFIG, s0, [], s0, Begin(1, Cancel(1)));
    var s1 := State(BASE, map[1 := Fresh(Cancel(1))], []);
    RunThen(CONFIG, s0, [] + [Begin(1, Cancel(1))], s1, Begin(2, Cancel(1)));
    var s2 := State(BASE, map[1 := Fresh(Cancel(1)), 2 := Fresh(Cancel(1))], []);
    var x2 := [] + [Begin(1, Cancel(1))] + [Begin(2, Cancel(1))];
    RunThen(CONFIG, s0, x2, s2, Do(1, ReadOrder));
    var s3 := State(BASE, map[1 := Reader(), 2 := Fresh(Cancel(1))], []);
    assert Next(CONFIG, s2, Do(1, ReadOrder)) == s3;
    RunThen(CONFIG, s0, x2 + [Do(1, ReadOrder)], s3, Do(2, ReadOrder));
    x := x2 + [Do(1, ReadOrder)] + [Do(2, ReadOrder)];
    assert Next(CONFIG, s3, Do(2, ReadOrder)) == State(BASE, map[1 := Reader(), 2 := Reader()], []);
  }

  predicate ReleasedTwice(steps: seq<Step>, s: State) {
    && Run(CONFIG, Start(CONFIG), steps, s)
    && s.log == [Cancel(1), Cancel(1)]
    && 0 in s.db.stock && s.db.stock[0].reserved == 0
  }

  lemma BothFinish() returns (steps: seq<Step>, s: State)
    ensures ReleasedTwice(steps, s)
  {
    var x := BothRead();
    var s4 := State(BASE, map[1 := Reader(), 2 := Reader()], []);
    var y, s5 := FinishCancel(Start(CONFIG), x, s4, 1);
    steps, s := FinishCancel(Start(CONFIG), y, s5, 2);
  }

  /**
   * Two cancellations that both read the order before either commits release its three units twice:
   * six units were reserved, three for this order, and none is left. No serial run of the two does this.
   */
  lemma RivalsReleaseTwice()
    ensures DbOk(CONFIG.base)
    ensures exists steps, s :: ReleasedTwice(steps, s) && Replay(CONFIG.catalog, CONFIG.base, s.log) != Some(s.db)
  {
    var steps, s := BothFinish();
    assert s.log[0].oid == s.log[1].oid;
    Serialisable(CONFIG, steps, s);
  }
}
