/** Folding repeated lines of an order into one line per product. */
module Merging {
  import opened Values
  import opened Sums

  function Names(lines: seq<Line>): set<ProductId> {
    if lines == [] then {} else {lines[0].product} + Names(lines[1..])
  }

  predicate NoRepeats(lines: seq<Line>) {
    lines != [] ==> lines[0].product !in Names(lines[1..]) && NoRepeats(lines[1..])
  }

  predicate Positive(lines: seq<Line>) {
    lines != [] ==> lines[0].quantity > 0 && Positive(lines[1..])
  }

  /** All lines of l's product have l's price. */
  predicate Agrees(lines: seq<Line>, l: Line) {
    forall i | 0 <= i < |lines| :: lines[i].product == l.product ==> lines[i].unitPrice == l.unitPrice
  }

  predicate OnePricePerProduct(lines: seq<Line>) {
    forall i | 0 <= i < |lines| :: Agrees(lines, lines[i])
  }

  /** Adds a line, folding it into an existing line of the same product. */
  function Absorb(lines: seq<Line>, l: Line): seq<Line> {
    if lines == [] then [l]
    else if lines[0].product == l.product then
      [lines[0].(quantity := lines[0].quantity + l.quantity)] + lines[1..]
    else [lines[0]] + Absorb(lines[1..], l)
  }

  function Merged(lines: seq<Line>): seq<Line> {
    if lines == [] then [] else Absorb(Merged(lines[1..]), lines[0])
  }

  lemma SumsOfCons(lines: seq<Line>, p: ProductId)
    requires lines != []
    ensures Demand(lines, p) == Amount(lines[0], p) + Demand(lines[1..], p)
    ensures Total(lines) == lines[0].unitPrice * lines[0].quantity + Total(lines[1..])
  {
    assert lines == [lines[0]] + lines[1..];
    SumsOfConcat([lines[0]], lines[1..], p);
    SumsOfOne(lines[0], p);
  }

  lemma {:induction false} AbsorbSums(lines: seq<Line>, l: Line, p: ProductId)
    ensures Demand(Absorb(lines, l), p) == Demand(lines, p) + Amount(l, p)
    ensures Agrees(lines, l) ==> Total(Absorb(lines, l)) == Total(lines) + l.unitPrice * l.quantity
  {
    SumsOfCons(Absorb(lines, l), p);
    if lines != [] {
      SumsOfCons(lines, p);
      if lines[0].product == l.product {
        assert Absorb(lines, l)[1..] == lines[1..];
        assert lines[0].unitPrice * (lines[0].quantity + l.quantity)
            == lines[0].unitPrice * lines[0].quantity + lines[0].unitPrice * l.quantity;
      } else {
        assert Absorb(lines, l)[1..] == Absorb(lines[1..], l);
        AbsorbSums(lines[1..], l, p);
        assert Agrees(lines, l) ==> Agrees(lines[1..], l);
      }
    }
  }

  lemma {:induction false} AbsorbShape(lines: seq<Line>, l: Line)
    requires NoRepeats(lines)
    ensures Names(Absorb(lines, l)) == Names(lines) + {l.product}
    ensures NoRepeats(Absorb(lines, l))
    ensures Positive(lines) && l.quantity > 0 ==> Positive(Absorb(lines, l))
  {
    if lines != [] {
      if lines[0].product == l.product {
        assert Absorb(lines, l)[1..] == lines[1..];
      } else {
        AbsorbShape(lines[1..], l);
        assert Absorb(lines, l)[1..] == Absorb(lines[1..], l);
      }
    }
  }

  lemma {:induction false} AbsorbAgrees(lines: seq<Line>, l: Line, k: Line)
    requires Agrees(lines, k) && Agrees([l], k)
    ensures Agrees(Absorb(lines, l), k)
  {
    assert [l][0] == l;
    if lines != [] && lines[0].product != l.product {
      AbsorbAgrees(lines[1..], l, k);
    }
  }

  lemma {:induction false} MergedAgrees(lines: seq<Line>, k: Line)
    requires Agrees(lines, k)
    ensures Agrees(Merged(lines), k)
  {
    if lines != [] {
      MergedAgrees(lines[1..], k);
      AbsorbAgrees(Merged(lines[1..]), lines[0], k);
    }
  }

  lemma {:induction false} PositiveMeans(lines: seq<Line>)
    ensures Positive(lines) <==> AllPositive(lines)
  {
    if lines != [] {
      PositiveMeans(lines[1..]);
      assert forall i | 0 < i < |lines| :: lines[i] == lines[1..][i - 1];
      assert forall i | 0 <= i < |lines| - 1 :: lines[1..][i] == lines[i + 1];
    }
  }

  lemma {:induction false} NamesAreProducts(lines: seq<Line>)
    ensures Names(lines) == ProductsOf(lines)
  {
    if lines != [] {
      NamesAreProducts(lines[1..]);
      forall p | p in ProductsOf(lines) ensures p in Names(lines) {
        var i :| 0 <= i < |lines| && lines[i].product == p;
        assert i > 0 ==> lines[1..][i - 1].product == p;
      }
      forall p | p in Names(lines) ensures p in ProductsOf(lines) {
        if p == lines[0].product {
          assert lines[0].product == p;
        } else {
          var i :| 0 <= i < |lines[1..]| && lines[1..][i].product == p;
          assert lines[i + 1].product == p;
        }
      }
    }
  }

  lemma {:induction false} MergedShape(lines: seq<Line>)
    ensures NoRepeats(Merged(lines)) && Names(Merged(lines)) == Names(lines)
    ensures Positive(lines) ==> Positive(Merged(lines))
  {
    if lines != [] {
      MergedShape(lines[1..]);
      AbsorbShape(Merged(lines[1..]), lines[0]);
    }
  }

  lemma {:induction false} MergedTotal(lines: seq<Line>)
    requires OnePricePerProduct(lines)
    ensures Total(Merged(lines)) == Total(lines)
  {
    if lines != [] {
      var rest := lines[1..];
      assert forall i | 0 <= i < |rest| :: rest[i] == lines[i + 1] && Agrees(lines, lines[i + 1]);
      assert Agrees(lines, lines[0]);
      MergedTotal(rest);
      MergedAgrees(rest, lines[0]);
      AbsorbSums(Merged(rest), lines[0], 0);
      SumsOfCons(lines, 0);
    }
  }

  lemma {:induction false} MergedDemand(lines: seq<Line>, p: ProductId)
    ensures Demand(Merged(lines), p) == Demand(lines, p)
  {
    if lines != [] {
      MergedDemand(lines[1..], p);
      AbsorbSums(Merged(lines[1..]), lines[0], p);
      SumsOfCons(lines, p);
    }
  }

  /**
   * Merging leaves one line per product and keeps every product's demand, and the total too if each
   * product has one price.
   */
  lemma MergedKeepsSums(lines: seq<Line>)
    ensures forall p :: Demand(Merged(lines), p) == Demand(lines, p)
    ensures OnePricePerProduct(lines) ==> Total(Merged(lines)) == Total(lines)
    ensures NoRepeats(Merged(lines)) && ProductsOf(Merged(lines)) == ProductsOf(lines)
    ensures AllPositive(lines) ==> AllPositive(Merged(lines))
  {
    forall p ensures Demand(Merged(lines), p) == Demand(lines, p) {
      MergedDemand(lines, p);
    }
    if OnePricePerProduct(lines) {
      MergedTotal(lines);
    }
    MergedShape(lines);
    PositiveMeans(lines);
    PositiveMeans(Merged(lines));
    NamesAreProducts(lines);
    NamesAreProducts(Merged(lines));
  }
}
