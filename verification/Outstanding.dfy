/** Reservations that are outstanding at the same time never get in each other's way. */
module Outstanding {
  import opened Values
  import opened Sums
  import opened Moves

  /** Stock rows, and the line lists of the orders that currently hold a reservation in them. */
  datatype Ledger = Ledger(stock: StockMap, live: seq<seq<Line>>)

  /** Some order reserves its lines, or the i-th outstanding order releases its own. */
  datatype Op = Take(lines: seq<Line>) | Give(i: nat)

  function Without<T>(s: seq<T>, i: nat): seq<T>
    requires i < |s|
  {
    s[..i] + s[i + 1..]
  }

  /** The next ledger, unless the operation is refused. */
  function Do(g: Ledger, op: Op): Option<Ledger> {
    match op
    case Take(lines) =>
      if Clear(Reserve, g.stock, lines) then Some(Ledger(After(Reserve, g.stock, lines), g.live + [lines]))
      else None
    case Give(i) =>
      if i < |g.live| && Clear(Release, g.stock, g.live[i]) then
        Some(Ledger(After(Release, g.stock, g.live[i]), Without(g.live, i)))
      else None
  }

  /** The ledger after a sequence of operations, refused ones changing nothing. */
  function DoAll(g: Ledger, ops: seq<Op>): Ledger {
    if ops == [] then g
    else
      var before := DoAll(g, ops[..|ops| - 1]);
      match Do(before, ops[|ops| - 1])
      case None => before
      case Some(after) => after
  }

  /** The units of p that all outstanding orders hold together. */
  function Owed(live: seq<seq<Line>>, p: ProductId): int {
    if live == [] then 0 else Owed(live[..|live| - 1], p) + Demand(live[|live| - 1], p)
  }

  predicate Orderly(lines: seq<Line>, stock: StockMap) {
    AllPositive(lines) && ProductsOf(lines) <= stock.Keys
  }

  /** Every row is its base plus what is owed in it. */
  predicate Balanced(base: StockMap, g: Ledger) {
    && g.stock.Keys == base.Keys
    && (forall i | 0 <= i < |g.live| :: Orderly(g.live[i], base))
    && (forall p | p in base :: 0 <= base[p].reserved
          && g.stock[p] == base[p].(reserved := base[p].reserved + Owed(g.live, p)))
  }

  lemma {:induction false} OwedConcat(a: seq<seq<Line>>, b: seq<seq<Line>>, p: ProductId)
    ensures Owed(a + b, p) == Owed(a, p) + Owed(b, p)
  {
    if b == [] {
      assert a + b == a;
    } else {
      assert (a + b)[..|a + b| - 1] == a + b[..|b| - 1];
      OwedConcat(a, b[..|b| - 1], p);
    }
  }

  lemma OwedWithout(live: seq<seq<Line>>, i: nat, p: ProductId)
    requires i < |live|
    ensures Owed(live, p) == Owed(Without(live, i), p) + Demand(live[i], p)
  {
    assert live == (live[..i] + [live[i]]) + live[i + 1..];
    OwedConcat(live[..i] + [live[i]], live[i + 1..], p);
    OwedConcat(live[..i], live[i + 1..], p);
    assert (live[..i] + [live[i]])[..i] == live[..i];
  }

  lemma {:induction false} OwedNonNegative(live: seq<seq<Line>>, p: ProductId)
    requires forall i | 0 <= i < |live| :: AllPositive(live[i])
    ensures 0 <= Owed(live, p)
  {
    if live != [] {
      OwedNonNegative(live[..|live| - 1], p);
      DemandWithin(live[|live| - 1], 0, p);
    }
  }

  /** In a balanced ledger every outstanding order can release, and takes exactly its own units with it. */
  lemma CanGive(base: StockMap, g: Ledger, i: nat)
    requires Balanced(base, g) && i < |g.live|
    ensures Do(g, Give(i)).Some?
    ensures Balanced(base, Do(g, Give(i)).value)
  {
    var lines := g.live[i];
    forall p | p in base
      ensures 0 <= Owed(Without(g.live, i), p)
      ensures Owed(g.live, p) == Owed(Without(g.live, i), p) + Demand(lines, p)
    {
      OwedWithout(g.live, i, p);
      OwedNonNegative(Without(g.live, i), p);
    }
    ClearIff(Release, g.stock, lines);
  }

  lemma TakeBalances(base: StockMap, g: Ledger, lines: seq<Line>)
    requires Balanced(base, g) && Do(g, Take(lines)).Some?
    ensures Balanced(base, Do(g, Take(lines)).value)
  {
    ClearIsPositive(Reserve, g.stock, lines);
    var live := g.live + [lines];
    assert live[..|g.live|] == g.live;
  }

  /** Another order can reserve exactly when its units fit beside all that is owed. */
  lemma CanTake(base: StockMap, g: Ledger, lines: seq<Line>)
    requires Balanced(base, g)
    ensures Do(g, Take(lines)).Some? <==>
              && AllPositive(lines) && ProductsOf(lines) <= base.Keys
              && forall p | p in ProductsOf(lines) ::
                   base[p].reserved + Owed(g.live, p) + Demand(lines, p) <= base[p].quantity
    ensures Do(g, Take(lines)).Some? ==> Do(g, Take(lines)).value.live == g.live + [lines]
  {
    ClearIff(Reserve, g.stock, lines);
  }

  lemma {:induction false} AlwaysBalanced(base: StockMap, ops: seq<Op>)
    requires forall p | p in base :: 0 <= base[p].reserved
    ensures Balanced(base, DoAll(Ledger(base, []), ops))
  {
    if ops != [] {
      var before := DoAll(Ledger(base, []), ops[..|ops| - 1]);
      AlwaysBalanced(base, ops[..|ops| - 1]);
      match ops[|ops| - 1]
      case Take(lines) =>
        if Do(before, Take(lines)).Some? {
          TakeBalances(base, before, lines);
        }
      case Give(i) =>
        if i < |before.live| {
          CanGive(base, before, i);
        }
    }
  }

  /**
   * Whatever reservations and releases of other orders come in between, an order that reserved can release:
   * no release is ever refused, and it removes exactly that order's units.
   */
  lemma ReleaseThroughInterference(base: StockMap, ops: seq<Op>, i: nat)
    requires forall p | p in base :: 0 <= base[p].reserved
    requires i < |DoAll(Ledger(base, []), ops).live|
    ensures var g := DoAll(Ledger(base, []), ops);
            && Verdict(Release, g.stock, g.live[i]).None?
            && After(Release, g.stock, g.live[i]).Keys == base.Keys
            && forall p | p in base ::
                 && g.stock[p].reserved == base[p].reserved + Owed(g.live, p)
                 && After(Release, g.stock, g.live[i])[p].reserved == base[p].reserved + Owed(Without(g.live, i), p)
  {
    AlwaysBalanced(base, ops);
    CanGive(base, DoAll(Ledger(base, []), ops), i);
  }
}
