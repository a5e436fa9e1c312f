/** Per-product sums over order lines, and what they do and do not depend on. */
module Sums {
  import opened Values

  function Amount(l: Line, p: ProductId): int {
    if l.product == p then l.quantity else 0
  }

  /** The units of p asked for by all lines together. */
  function Demand(lines: seq<Line>, p: ProductId): int {
    if lines == [] then 0
    else Demand(lines[..|lines| - 1], p) + Amount(lines[|lines| - 1], p)
  }

  /** The sum of the frozen subtotals, in cents. */
  function Total(lines: seq<Line>): int {
    if lines == [] then 0
    else Total(lines[..|lines| - 1]) + lines[|lines| - 1].unitPrice * lines[|lines| - 1].quantity
  }

  function ProductsOf(lines: seq<Line>): set<ProductId> {
    set i | 0 <= i < |lines| :: lines[i].product
  }

  predicate AllPositive(lines: seq<Line>) {
    forall i | 0 <= i < |lines| :: lines[i].quantity > 0
  }

  lemma DemandStep(lines: seq<Line>, i: nat, p: ProductId)
    requires i < |lines|
    ensures Demand(lines[..i + 1], p) == Demand(lines[..i], p) + Amount(lines[i], p)
  {
    assert lines[..i + 1][..i] == lines[..i];
  }

  lemma {:induction false} DemandMonotone(lines: seq<Line>, i: nat, j: nat, p: ProductId)
    requires i <= j <= |lines|
    requires forall k | i <= k < j :: lines[k].quantity > 0
    ensures Demand(lines[..i], p) <= Demand(lines[..j], p)
  {
    if i < j {
      DemandMonotone(lines, i, j - 1, p);
      DemandStep(lines, j - 1, p);
    }
  }

  lemma {:induction false} DemandOfStranger(lines: seq<Line>, p: ProductId)
    requires p !in ProductsOf(lines)
    ensures Demand(lines, p) == 0
  {
    if lines != [] {
      var n := |lines| - 1;
      assert lines[n].product in ProductsOf(lines);
      assert forall i | 0 <= i < n :: lines[..n][i] == lines[i] && lines[i].product in ProductsOf(lines);
      DemandOfStranger(lines[..n], p);
    }
  }

  lemma {:induction false} SumsOfConcat(a: seq<Line>, b: seq<Line>, p: ProductId)
    ensures Demand(a + b, p) == Demand(a, p) + Demand(b, p)
    ensures Total(a + b) == Total(a) + Total(b)
  {
    if b == [] {
      assert a + b == a;
    } else {
      var n := |b| - 1;
      assert (a + b)[..|a + b| - 1] == a + b[..n];
      SumsOfConcat(a, b[..n], p);
    }
  }

  lemma SumsOfOne(l: Line, p: ProductId)
    ensures Demand([l], p) == Amount(l, p)
    ensures Total([l]) == l.unitPrice * l.quantity
  {
    assert [l][..0] == [];
  }

  lemma SumsWithout(lines: seq<Line>, k: nat, p: ProductId)
    requires k < |lines|
    ensures Demand(lines, p) == Demand(lines[..k] + lines[k + 1..], p) + Amount(lines[k], p)
    ensures Total(lines) == Total(lines[..k] + lines[k + 1..]) + lines[k].unitPrice * lines[k].quantity
  {
    assert lines == lines[..k] + ([lines[k]] + lines[k + 1..]);
    SumsOfConcat(lines[..k], [lines[k]] + lines[k + 1..], p);
    SumsOfConcat([lines[k]], lines[k + 1..], p);
    SumsOfConcat(lines[..k], lines[k + 1..], p);
    SumsOfOne(lines[k], p);
  }

  lemma MultisetWithout(lines: seq<Line>, k: nat)
    requires k < |lines|
    ensures multiset(lines[..k] + lines[k + 1..]) == multiset(lines) - multiset{lines[k]}
  {
    assert lines == lines[..k] + [lines[k]] + lines[k + 1..];
  }

  /** Reordering lines changes neither a product's demand nor the total. */
  lemma {:induction false} SumsOfPermutation(a: seq<Line>, b: seq<Line>, p: ProductId)
    requires multiset(a) == multiset(b)
    ensures Demand(a, p) == Demand(b, p)
    ensures Total(a) == Total(b)
    decreases |a|
  {
    if a == [] {
      assert |multiset(b)| == 0;
    } else {
      assert a[0] in multiset(b);
      var k :| 0 <= k < |b| && b[k] == a[0];
      MultisetWithout(a, 0);
      MultisetWithout(b, k);
      SumsOfPermutation(a[..0] + a[1..], b[..k] + b[k + 1..], p);
      SumsWithout(a, 0, p);
      SumsWithout(b, k, p);
    }
  }
}
