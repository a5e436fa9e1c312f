/** What moving all lines of an order against a set of stock rows must do, told by prefix sums. */
module Moves {
  import opened Values
  import opened Sums
  import opened Merging

  type StockMap = map<ProductId, Stock>

  /**
   * Why line i cannot be moved once all lines before it have been: its product is unknown,
   * its quantity is not positive, or the sum of its product's lines so far exceeds the room.
   */
  function FaultOf(m: Move, stock: StockMap, lines: seq<Line>, i: nat): Option<Error>
    requires i < |lines|
  {
    var l := lines[i];
    if l.product !in stock then Some(UnknownProduct(l.product))
    else if l.quantity <= 0 then Some(BadAmount)
    else if Demand(lines[..i + 1], l.product) > Room(m, stock[l.product]) then
      Some(if m.Reserve?
           then Insufficient(l.product, l.quantity, Room(m, stock[l.product]) - Demand(lines[..i], l.product))
           else OverRelease)
    else None
  }

  /** The first faulty line at or after i, or the number of lines. */
  function FirstFault(m: Move, stock: StockMap, lines: seq<Line>, i: nat := 0): (k: nat)
    requires i <= |lines|
    ensures i <= k <= |lines|
    ensures forall j | i <= j < k :: FaultOf(m, stock, lines, j).None?
    ensures k < |lines| ==> FaultOf(m, stock, lines, k).Some?
    decreases |lines| - i
  {
    if i == |lines| || FaultOf(m, stock, lines, i).Some? then i
    else FirstFault(m, stock, lines, i + 1)
  }

  predicate Clear(m: Move, stock: StockMap, lines: seq<Line>) {
    forall i | 0 <= i < |lines| :: FaultOf(m, stock, lines, i).None?
  }

  /** The error of the first faulty line. */
  function Verdict(m: Move, stock: StockMap, lines: seq<Line>): (v: Option<Error>)
    ensures v.None? <==> Clear(m, stock, lines)
  {
    var k := FirstFault(m, stock, lines);
    if k < |lines| then FaultOf(m, stock, lines, k) else None
  }

  /** Every row shifted by its product's demand. */
  function After(m: Move, stock: StockMap, lines: seq<Line>): StockMap {
    map p | p in stock :: Shifted(m, stock[p], Demand(lines, p))
  }

  /** The stock rows once the moved rows of an order have been written back. */
  function Settled(m: Move, stock: StockMap, lines: seq<Line>): StockMap {
    map p | p in stock :: if p in ProductsOf(lines) then Bumped(After(m, stock, lines)[p]) else stock[p]
  }

  lemma DemandWithin(lines: seq<Line>, i: nat, p: ProductId)
    requires AllPositive(lines) && i <= |lines|
    ensures 0 <= Demand(lines[..i], p) <= Demand(lines, p)
  {
    DemandMonotone(lines, 0, i, p);
    DemandMonotone(lines, i, |lines|, p);
    assert lines[..|lines|] == lines;
  }

  lemma ClearIsPositive(m: Move, stock: StockMap, lines: seq<Line>)
    requires Clear(m, stock, lines)
    ensures AllPositive(lines) && ProductsOf(lines) <= stock.Keys
  {
    forall i | 0 <= i < |lines| ensures lines[i].quantity > 0 && lines[i].product in stock {
      assert FaultOf(m, stock, lines, i).None?;
    }
  }

  /** The demand up to a product's last line is its whole demand. */
  lemma {:induction false} LastLineOf(lines: seq<Line>, p: ProductId) returns (i: nat)
    requires p in ProductsOf(lines)
    ensures i < |lines| && lines[i].product == p
    ensures Demand(lines[..i + 1], p) == Demand(lines, p)
  {
    var n := |lines| - 1;
    if lines[n].product == p {
      i := n;
      assert lines[..n + 1] == lines;
    } else {
      ProductsOfSnoc(lines);
      i := LastLineOf(lines[..n], p);
      assert lines[..n][..i + 1] == lines[..i + 1];
    }
  }

  lemma ProductsOfSnoc(lines: seq<Line>)
    requires lines != []
    ensures ProductsOf(lines) == ProductsOf(lines[..|lines| - 1]) + {lines[|lines| - 1].product}
  {
    var n := |lines| - 1;
    forall p | p in ProductsOf(lines[..n]) ensures p in ProductsOf(lines) {
      var i :| 0 <= i < n && lines[..n][i].product == p;
      assert lines[i].product == p;
    }
    forall p | p in ProductsOf(lines) ensures p in ProductsOf(lines[..n]) + {lines[n].product} {
      var i :| 0 <= i <= n && lines[i].product == p;
      assert i < n ==> lines[..n][i].product == p;
    }
  }

  /**
   * The exact success condition: every line names a known product and a positive quantity,
   * and no product's summed quantity exceeds its room.
   */
  lemma ClearIff(m: Move, stock: StockMap, lines: seq<Line>)
    ensures Clear(m, stock, lines) <==>
              AllPositive(lines) && ProductsOf(lines) <= stock.Keys
              && forall p | p in ProductsOf(lines) :: Demand(lines, p) <= Room(m, stock[p])
  {
    if Clear(m, stock, lines) {
      ClearIsPositive(m, stock, lines);
      forall p | p in ProductsOf(lines) ensures Demand(lines, p) <= Room(m, stock[p]) {
        var i := LastLineOf(lines, p);
        assert FaultOf(m, stock, lines, i).None?;
      }
    }
    if AllPositive(lines) && ProductsOf(lines) <= stock.Keys
       && forall p | p in ProductsOf(lines) :: Demand(lines, p) <= Room(m, stock[p]) {
      forall i | 0 <= i < |lines| ensures FaultOf(m, stock, lines, i).None? {
        assert lines[i].product in ProductsOf(lines);
        DemandWithin(lines, i + 1, lines[i].product);
      }
    }
  }

  /** A move without faults keeps every row sound. */
  lemma AfterIsSound(m: Move, stock: StockMap, lines: seq<Line>, p: ProductId)
    requires Clear(m, stock, lines) && p in stock && Sound(stock[p])
    ensures Sound(After(m, stock, lines)[p])
    ensures 0 <= Demand(lines, p) <= Room(m, stock[p])
  {
    ClearIff(m, stock, lines);
    DemandWithin(lines, |lines|, p);
    assert lines[..|lines|] == lines;
    if p !in ProductsOf(lines) {
      DemandOfStranger(lines, p);
    }
  }

  /** Faults depend only on the rows of the products the lines name. */
  lemma SameFaults(m: Move, a: StockMap, b: StockMap, lines: seq<Line>)
    requires forall p | p in ProductsOf(lines) :: p in a <==> p in b
    requires forall p | p in ProductsOf(lines) && p in a :: a[p] == b[p]
    ensures Clear(m, a, lines) <==> Clear(m, b, lines)
    ensures Verdict(m, a, lines) == Verdict(m, b, lines)
  {
    forall i | 0 <= i < |lines| ensures FaultOf(m, a, lines, i) == FaultOf(m, b, lines, i) {
      assert lines[i].product in ProductsOf(lines);
    }
    assert FirstFault(m, a, lines) == FirstFault(m, b, lines);
  }

  /** No row of these products starts below zero. */
  predicate NonNegative(stock: StockMap, products: set<ProductId>) {
    forall p | p in products && p in stock :: 0 <= stock[p].reserved
  }

  /**
   * Releasing what has been reserved restores every row, and is possible exactly when no product of the
   * lines started with a negative reservation.
   */
  lemma ReleaseUndoesReserve(stock: StockMap, lines: seq<Line>)
    requires Clear(Reserve, stock, lines)
    ensures Clear(Release, After(Reserve, stock, lines), lines) <==> NonNegative(stock, ProductsOf(lines))
    ensures After(Release, After(Reserve, stock, lines), lines) == stock
  {
    ClearIff(Reserve, stock, lines);
    ClearIff(Release, After(Reserve, stock, lines), lines);
  }

  /** Of what has been reserved, only more than there is to release can be refused. */
  lemma OnlyOverRelease(stock: StockMap, lines: seq<Line>)
    requires Clear(Reserve, stock, lines)
    ensures Verdict(Release, After(Reserve, stock, lines), lines)
         == if NonNegative(stock, ProductsOf(lines)) then None else Some(OverRelease)
  {
    ReleaseUndoesReserve(stock, lines);
    ClearIsPositive(Reserve, stock, lines);
    var k := FirstFault(Release, After(Reserve, stock, lines), lines);
    assert k < |lines| ==> lines[k].quantity > 0 && lines[k].product in ProductsOf(lines);
  }

  lemma ProductsOfPrefix(lines: seq<Line>, k: nat)
    requires k <= |lines|
    ensures ProductsOf(lines[..k]) <= ProductsOf(lines)
  {
    forall p | p in ProductsOf(lines[..k]) ensures p in ProductsOf(lines) {
      var i :| 0 <= i < k && lines[..k][i].product == p;
      assert lines[i].product == p;
    }
  }

  /** The outcome of an order depends on its lines only through their per-product sums. */
  lemma OnlySumsMatter(m: Move, stock: StockMap, a: seq<Line>, b: seq<Line>)
    requires ProductsOf(a) == ProductsOf(b)
    requires forall p :: Demand(a, p) == Demand(b, p)
    requires AllPositive(a) <==> AllPositive(b)
    ensures Clear(m, stock, a) <==> Clear(m, stock, b)
    ensures After(m, stock, a) == After(m, stock, b)
    ensures Settled(m, stock, a) == Settled(m, stock, b)
  {
    ClearIff(m, stock, a);
    ClearIff(m, stock, b);
  }

  lemma MembersOf(a: seq<Line>, b: seq<Line>)
    requires multiset(a) == multiset(b)
    ensures ProductsOf(a) <= ProductsOf(b)
    ensures AllPositive(b) ==> AllPositive(a)
  {
    forall i | 0 <= i < |a| ensures exists k :: 0 <= k < |b| && b[k] == a[i] {
      assert a[i] in multiset(b);
    }
  }

  /** Reordering the lines changes neither verdict, final stock nor total. */
  lemma {:induction false} LineOrderIrrelevant(m: Move, stock: StockMap, a: seq<Line>, b: seq<Line>)
    requires multiset(a) == multiset(b)
    ensures Clear(m, stock, a) <==> Clear(m, stock, b)
    ensures After(m, stock, a) == After(m, stock, b)
    ensures Settled(m, stock, a) == Settled(m, stock, b)
    ensures Total(a) == Total(b)
  {
    MembersOf(a, b);
    MembersOf(b, a);
    forall p ensures Demand(a, p) == Demand(b, p) {
      SumsOfPermutation(a, b, p);
    }
    SumsOfPermutation(a, b, 0);
    OnlySumsMatter(m, stock, a, b);
  }

  /**
   * Merging the lines of each product never changes the final stock, nor the total if each product has one
   * price. It changes the verdict only by hiding a line whose own quantity is not positive.
   */
  lemma {:induction false} LineSplittingIrrelevant(m: Move, stock: StockMap, lines: seq<Line>)
    ensures Clear(m, stock, lines) <==> AllPositive(lines) && Clear(m, stock, Merged(lines))
    ensures After(m, stock, Merged(lines)) == After(m, stock, lines)
    ensures Settled(m, stock, Merged(lines)) == Settled(m, stock, lines)
    ensures OnePricePerProduct(lines) ==> Total(Merged(lines)) == Total(lines)
  {
    MergedKeepsSums(lines);
    ClearIff(m, stock, lines);
    ClearIff(m, stock, Merged(lines));
  }
}
