/**
 * What creating and cancelling an order mean for the caller, told in terms of the request, the catalog and
 * the rows alone: no function of the atomic specification appears in these predicates.
 */
module Requests {
  import opened Values
  import opened Sums
  import opened Moves
  import opened Serial
  import Money

  /** The units of p that the items of a request ask for. */
  function UnitsWanted(items: seq<Want>, p: ProductId): int {
    if items == [] then 0
    else (if items[0].product == p then items[0].quantity else 0) + UnitsWanted(items[1..], p)
  }

  predicate AllListed(catalog: Catalog, items: seq<Want>) {
    forall i | 0 <= i < |items| :: items[i].product in catalog
  }

  /** What the items cost at the catalog's prices, in cents. */
  function CostOf(catalog: Catalog, items: seq<Want>): int
    requires AllListed(catalog, items)
  {
    if items == [] then 0
    else catalog[items[0].product].price * items[0].quantity + CostOf(catalog, items[1..])
  }

  /** Every requested product is in the catalog and active. */
  predicate AllOnSale(catalog: Catalog, items: seq<Want>) {
    forall i | 0 <= i < |items| :: items[i].product in catalog && catalog[items[i].product].active
  }

  /** Item i is the first whose product is missing or inactive. */
  predicate FirstOffSale(catalog: Catalog, items: seq<Want>, i: nat) {
    && i < |items| && AllOnSale(catalog, items[..i])
    && (items[i].product in catalog ==> !catalog[items[i].product].active)
  }

  /** The lines repeat the items one by one, each with its product's price. */
  predicate LinesFollow(catalog: Catalog, items: seq<Want>, lines: seq<Line>) {
    && |lines| == |items|
    && forall i | 0 <= i < |items| ::
         && items[i].product in catalog
         && lines[i].product == items[i].product
         && lines[i].quantity == items[i].quantity
         && lines[i].unitPrice == catalog[items[i].product].price
  }

  /** The order is the one the request asks for. */
  predicate OrderFollows(catalog: Catalog, req: Request, order: OrderRecord) {
    order.customer == req.customer && LinesFollow(catalog, req.items, order.lines)
  }

  /** The products a request names. */
  function Wanted(req: Request): set<ProductId> {
    set i | 0 <= i < |req.items| :: req.items[i].product
  }

  predicate Asked(items: seq<Want>, p: ProductId) {
    exists i :: 0 <= i < |items| && items[i].product == p
  }

  /** Every row gained the units wanted of it, and one version if it was asked for at all. */
  predicate UnitsReserved(items: seq<Want>, before: StockMap, after: StockMap) {
    && after.Keys == before.Keys
    && forall p | p in before ::
         && after[p].quantity == before[p].quantity
         && after[p].reserved == before[p].reserved + UnitsWanted(items, p)
         && after[p].version == before[p].version + if Asked(items, p) then 1 else 0
  }

  /** The request carries a key, and an empty one is none. */
  predicate CarriesKey(req: Request) {
    req.key.Some? && |req.key.value| > 0
  }

  predicate CarriesStoredKey(req: Request, keys: map<Key, KeyRow>) {
    CarriesKey(req) && req.key.value in keys
  }

  /** What a successful creation does and returns. */
  predicate Fulfilled(catalog: Catalog, req: Request, oid: OrderId, before: Db, after: Db, result: OrderResult) {
    && AllOnSale(catalog, req.items) && AllListed(catalog, req.items)
    && oid in after.orders && after.orders == before.orders[oid := after.orders[oid]]
    && OrderFollows(catalog, req, after.orders[oid]) && after.orders[oid].status == Confirmed
    && UnitsReserved(req.items, before.stock, after.stock)
    && result == OrderResult(oid, CostOf(catalog, req.items), "CONFIRMED", false)
    && !CarriesStoredKey(req, before.keys)
    && after.keys == if !CarriesKey(req) then before.keys
                     else before.keys[req.key.value := KeyRow(oid, Body(oid, "CONFIRMED", Money.Printed(result.total)), 201)]
  }

  /** Item i can be reserved after all items before it. */
  predicate Fits(stock: StockMap, items: seq<Want>, i: nat)
    requires i < |items|
  {
    var p := items[i].product;
    p in stock && items[i].quantity > 0 && UnitsWanted(items[..i + 1], p) <= stock[p].quantity - stock[p].reserved
  }

  /** Item i is the first that cannot be reserved, and e says why. */
  predicate FirstMisfit(stock: StockMap, items: seq<Want>, i: nat, e: Error) {
    && i < |items| && (forall j | 0 <= j < i :: Fits(stock, items, j)) && !Fits(stock, items, i)
    && var p := items[i].product;
       e == if p !in stock then UnknownProduct(p)
            else if items[i].quantity <= 0 then BadAmount
            else Insufficient(p, items[i].quantity,
                              stock[p].quantity - stock[p].reserved - UnitsWanted(items[..i], p))
  }

  // ---- The lines of a request ----

  lemma {:induction false} UnitsOfPrefix(items: seq<Want>, k: nat, p: ProductId)
    requires k < |items|
    ensures UnitsWanted(items[..k + 1], p)
         == UnitsWanted(items[..k], p) + if items[k].product == p then items[k].quantity else 0
    decreases k
  {
    assert items[..k + 1][0] == items[0];
    if k == 0 {
      assert items[..1][1..] == [] && items[..0] == [];
    } else {
      assert items[..k + 1][1..] == items[1..][..k] && items[..k][1..] == items[1..][..k - 1];
      UnitsOfPrefix(items[1..], k - 1, p);
    }
  }

  /** What the lines demand is what the items want. */
  lemma {:induction false} LinesDemand(catalog: Catalog, items: seq<Want>, lines: seq<Line>, k: nat, p: ProductId)
    requires LinesFollow(catalog, items, lines) && k <= |items|
    ensures Demand(lines[..k], p) == UnitsWanted(items[..k], p)
    decreases k
  {
    if k > 0 {
      LinesDemand(catalog, items, lines, k - 1, p);
      DemandStep(lines, k - 1, p);
      UnitsOfPrefix(items, k - 1, p);
    }
  }

  lemma {:induction false} CostOfPrefix(catalog: Catalog, items: seq<Want>, k: nat)
    requires AllListed(catalog, items) && k < |items|
    ensures AllListed(catalog, items[..k + 1]) && AllListed(catalog, items[..k])
    ensures CostOf(catalog, items[..k + 1])
         == CostOf(catalog, items[..k]) + catalog[items[k].product].price * items[k].quantity
    decreases k
  {
    assert items[..k + 1][0] == items[0];
    if k == 0 {
      assert items[..1][1..] == [] && items[..0] == [];
    } else {
      assert items[..k + 1][1..] == items[1..][..k] && items[..k][1..] == items[1..][..k - 1];
      CostOfPrefix(catalog, items[1..], k - 1);
    }
  }

  lemma {:induction false} LinesCost(catalog: Catalog, items: seq<Want>, lines: seq<Line>, k: nat)
    requires LinesFollow(catalog, items, lines) && k <= |items|
    ensures AllListed(catalog, items[..k]) && Total(lines[..k]) == CostOf(catalog, items[..k])
    decreases k
  {
    if k > 0 {
      LinesCost(catalog, items, lines, k - 1);
      assert AllListed(catalog, items);
      CostOfPrefix(catalog, items, k - 1);
      assert lines[..k][..k - 1] == lines[..k - 1];
    }
  }

  /** Lines that follow a request have its demands, products and cost. */
  lemma FollowingSums(catalog: Catalog, items: seq<Want>, lines: seq<Line>)
    requires LinesFollow(catalog, items, lines)
    ensures AllListed(catalog, items) && Total(lines) == CostOf(catalog, items)
    ensures forall p :: Demand(lines, p) == UnitsWanted(items, p)
    ensures forall p :: p in ProductsOf(lines) <==> Asked(items, p)
  {
    assert items[..|items|] == items && lines[..|items|] == lines;
    LinesCost(catalog, items, lines, |items|);
    forall p ensures Demand(lines, p) == UnitsWanted(items, p) {
      LinesDemand(catalog, items, lines, |items|, p);
    }
    forall p ensures p in ProductsOf(lines) <==> Asked(items, p) {
      if p in ProductsOf(lines) {
        var i :| 0 <= i < |lines| && lines[i].product == p;
        assert items[i].product == p;
      }
      if Asked(items, p) {
        var i :| 0 <= i < |items| && items[i].product == p;
        assert lines[i].product == p;
      }
    }
  }

  /** The lines a creation books repeat its items at the catalog's prices, all of them on sale. */
  lemma PricedFollows(catalog: Catalog, items: seq<Want>)
    requires FirstUnsellable(catalog, items).None?
    ensures AllOnSale(catalog, items) && LinesFollow(catalog, items, Priced(catalog, items))
  {
  }

  /** A check of the products stops at the first one that is missing or inactive, and only there. */
  lemma {:induction false} FirstUnsellableMeans(catalog: Catalog, items: seq<Want>)
    ensures FirstUnsellable(catalog, items).None? <==> AllOnSale(catalog, items)
    ensures forall i: nat | FirstOffSale(catalog, items, i) ::
              FirstUnsellable(catalog, items) == Some(items[i].product)
  {
    if items != [] {
      FirstUnsellableMeans(catalog, items[1..]);
      forall i: nat | FirstOffSale(catalog, items, i)
        ensures FirstUnsellable(catalog, items) == Some(items[i].product)
      {
        if i > 0 {
          assert items[..i][0] == items[0];
          assert items[1..][..i - 1] == items[..i][1..];
          assert FirstOffSale(catalog, items[1..], i - 1);
        }
      }
    }
  }

  lemma WantedAreProducts(catalog: Catalog, req: Request)
    requires FirstUnsellable(catalog, req.items).None?
    ensures ProductsOf(Priced(catalog, req.items)) == Wanted(req)
  {
    var lines := Priced(catalog, req.items);
    assert forall i | 0 <= i < |req.items| :: lines[i].product == req.items[i].product;
  }

  // ---- Creating an order ----

  lemma ClearMeansFits(catalog: Catalog, stock: StockMap, items: seq<Want>, lines: seq<Line>, i: nat)
    requires LinesFollow(catalog, items, lines) && i < |items|
    ensures FaultOf(Move.Reserve, stock, lines, i).None? <==> Fits(stock, items, i)
    ensures (forall j | 0 <= j < i :: Fits(stock, items, j)) && !Fits(stock, items, i) ==>
              FirstMisfit(stock, items, i, FaultOf(Move.Reserve, stock, lines, i).value)
  {
    LinesDemand(catalog, items, lines, i + 1, items[i].product);
    LinesDemand(catalog, items, lines, i, items[i].product);
  }

  /** The lines of a request are refused at the first item that does not fit, for that reason. */
  lemma VerdictMeans(catalog: Catalog, stock: StockMap, items: seq<Want>, lines: seq<Line>)
    requires LinesFollow(catalog, items, lines)
    ensures match Verdict(Move.Reserve, stock, lines)
            case None => forall i | 0 <= i < |items| :: Fits(stock, items, i)
            case Some(e) => exists i: nat :: FirstMisfit(stock, items, i, e)
  {
    forall i | 0 <= i < |items|
      ensures FaultOf(Move.Reserve, stock, lines, i).None? <==> Fits(stock, items, i)
    {
      ClearMeansFits(catalog, stock, items, lines, i);
    }
    var k := FirstFault(Move.Reserve, stock, lines);
    if k < |lines| {
      ClearMeansFits(catalog, stock, items, lines, k);
      assert FirstMisfit(stock, items, k, FaultOf(Move.Reserve, stock, lines, k).value);
    }
  }

  /** What a creation may come to, and exactly when. */
  ghost predicate CreationOk(catalog: Catalog, req: Request, oid: OrderId, db: Db, outcome: Outcome) {
    if req.items == [] then outcome == Failed(EmptyOrder)
    else if CarriesStoredKey(req, db.keys) then
      var row := db.keys[req.key.value];
      && (match Money.Parsed(row.body.total)
          case Some(total) => outcome == Replayed(OrderResult(row.orderId, total, row.body.status, true))
          case None => outcome == Failed(BadStoredTotal))
      && (KeysOk(db.orders, db.keys) ==>
            && row.orderId in db.orders
            && outcome == Replayed(OrderResult(row.orderId, Total(db.orders[row.orderId].lines), "CONFIRMED", true)))
    else
      match outcome
      case Replayed(_) => false
      case Created(after, result) =>
        && (forall i | 0 <= i < |req.items| :: Fits(db.stock, req.items, i))
        && Fulfilled(catalog, req, oid, db, after, result)
      case Failed(e) =>
        if AllOnSale(catalog, req.items) then exists i: nat :: FirstMisfit(db.stock, req.items, i, e)
        else exists i: nat :: FirstOffSale(catalog, req.items, i) && e == ProductNotFound(req.items[i].product)
  }

  lemma {:induction false} SomeFirstOffSale(catalog: Catalog, items: seq<Want>) returns (i: nat)
    requires !AllOnSale(catalog, items)
    ensures FirstOffSale(catalog, items, i)
  {
    i := 0;
    if AllOnSale(catalog, items[..1]) {
      assert items[..1][0] == items[0];
      i := SomeFirstOffSale(catalog, items[1..]);
      i := i + 1;
      assert forall j | 0 < j < i :: items[..i][j] == items[1..][..i - 1][j - 1];
    } else {
      assert items[..0] == [];
    }
  }

  lemma CreatedMeans(catalog: Catalog, req: Request, oid: OrderId, db: Db)
    requires FirstUnsellable(catalog, req.items).None? && !Hit(req, db.keys)
    requires Clear(Move.Reserve, db.stock, Priced(catalog, req.items)) && req.items != []
    ensures CreateOrder(catalog, db, req, oid).Created?
    ensures var done := CreateOrder(catalog, db, req, oid);
            Fulfilled(catalog, req, oid, db, done.db, done.result)
  {
    PricedFollows(catalog, req.items);
    FollowingSums(catalog, req.items, Priced(catalog, req.items));
    forall p | p in db.stock && !Asked(req.items, p) ensures UnitsWanted(req.items, p) == 0 {
      DemandOfStranger(Priced(catalog, req.items), p);
    }
  }

  /** The atomic creation is what the request, the catalog and the rows say it must be, in every case. */
  lemma CreateOrderMeans(catalog: Catalog, req: Request, oid: OrderId, db: Db)
    ensures CreationOk(catalog, req, oid, db, CreateOrder(catalog, db, req, oid))
  {
    if req.items == [] {
    } else if CarriesStoredKey(req, db.keys) {
      if KeysOk(db.orders, db.keys) {
        assert KeyOk(db.orders, db.keys[req.key.value]);
        Money.ParsePrinted(Total(db.orders[db.keys[req.key.value].orderId].lines));
      }
    } else {
      FirstUnsellableMeans(catalog, req.items);
      if AllOnSale(catalog, req.items) {
        PricedFollows(catalog, req.items);
        VerdictMeans(catalog, db.stock, req.items, Priced(catalog, req.items));
        if Clear(Move.Reserve, db.stock, Priced(catalog, req.items)) {
          CreatedMeans(catalog, req, oid, db);
        }
      } else {
        var i := SomeFirstOffSale(catalog, req.items);
      }
    }
  }

  // ---- Cancelling an order ----

  /** The units of p in an order's lines. */
  function UnitsIn(lines: seq<Line>, p: ProductId): int {
    if lines == [] then 0
    else (if lines[0].product == p then lines[0].quantity else 0) + UnitsIn(lines[1..], p)
  }

  predicate Names(lines: seq<Line>, p: ProductId) {
    exists i :: 0 <= i < |lines| && lines[i].product == p
  }

  /** Line i can be released after all lines before it. */
  predicate Releasable(stock: StockMap, lines: seq<Line>, i: nat)
    requires i < |lines|
  {
    var p := lines[i].product;
    p in stock && lines[i].quantity > 0 && UnitsIn(lines[..i + 1], p) <= stock[p].reserved
  }

  predicate FirstUnreleasable(stock: StockMap, lines: seq<Line>, i: nat, e: Error) {
    && i < |lines| && (forall j | 0 <= j < i :: Releasable(stock, lines, j)) && !Releasable(stock, lines, i)
    && e == if lines[i].product !in stock then UnknownProduct(lines[i].product)
            else if lines[i].quantity <= 0 then BadAmount
            else OverRelease
  }

  /** Every row lost the units of it, and the order is CANCELLED. */
  predicate Withdrawn(oid: OrderId, before: Db, after: Db) {
    && oid in before.orders && after.keys == before.keys
    && after.orders == before.orders[oid := OrderRecord(before.orders[oid].customer, Cancelled, before.orders[oid].lines)]
    && after.stock.Keys == before.stock.Keys
    && forall p | p in before.stock ::
         && after.stock[p].quantity == before.stock[p].quantity
         && after.stock[p].reserved == before.stock[p].reserved - UnitsIn(before.orders[oid].lines, p)
         && after.stock[p].version
              == before.stock[p].version + if Names(before.orders[oid].lines, p) then 1 else 0
  }

  /** What a cancellation may come to, and exactly when. */
  ghost predicate CancellationOk(oid: OrderId, db: Db, outcome: Result<Db>) {
    if oid !in db.orders then outcome == Err(OrderNotFound)
    else if db.orders[oid].status == Confirmed || db.orders[oid].status == Cancelled then
      outcome == Err(InvalidTransition)
    else
      var lines := db.orders[oid].lines;
      match outcome
      case Ok(after) => (forall i | 0 <= i < |lines| :: Releasable(db.stock, lines, i)) && Withdrawn(oid, db, after)
      case Err(e) => exists i: nat :: FirstUnreleasable(db.stock, lines, i, e)
  }

  lemma {:induction false} UnitsAreDemand(lines: seq<Line>, p: ProductId)
    ensures UnitsIn(lines, p) == Demand(lines, p)
  {
    if lines != [] {
      UnitsAreDemand(lines[1..], p);
      assert lines == [lines[0]] + lines[1..];
      SumsOfConcat([lines[0]], lines[1..], p);
      SumsOfOne(lines[0], p);
    }
  }

  lemma ReleasableMeans(stock: StockMap, lines: seq<Line>, i: nat)
    requires i < |lines|
    ensures FaultOf(Move.Release, stock, lines, i).None? <==> Releasable(stock, lines, i)
    ensures (forall j | 0 <= j < i :: Releasable(stock, lines, j)) && !Releasable(stock, lines, i) ==>
              FirstUnreleasable(stock, lines, i, FaultOf(Move.Release, stock, lines, i).value)
  {
    UnitsAreDemand(lines[..i + 1], lines[i].product);
  }

  lemma WithdrawnMeans(oid: OrderId, db: Db)
    requires oid in db.orders && db.orders[oid].status == Pending
    requires Clear(Move.Release, db.stock, db.orders[oid].lines)
    ensures CancelOrder(db, oid).Ok? && Withdrawn(oid, db, CancelOrder(db, oid).value)
  {
    var lines := db.orders[oid].lines;
    forall p ensures UnitsIn(lines, p) == Demand(lines, p) && (Names(lines, p) <==> p in ProductsOf(lines)) {
      UnitsAreDemand(lines, p);
    }
    forall p | p !in ProductsOf(lines) ensures Demand(lines, p) == 0 {
      DemandOfStranger(lines, p);
    }
  }

  /** The atomic cancellation is what the order and the rows say it must be, in every case. */
  lemma CancelOrderMeans(oid: OrderId, db: Db)
    ensures CancellationOk(oid, db, CancelOrder(db, oid))
  {
    if oid in db.orders && db.orders[oid].status == Pending {
      var lines := db.orders[oid].lines;
      forall i | 0 <= i < |lines|
        ensures FaultOf(Move.Release, db.stock, lines, i).None? <==> Releasable(db.stock, lines, i)
      {
        ReleasableMeans(db.stock, lines, i);
      }
      var k := FirstFault(Move.Release, db.stock, lines);
      if k < |lines| {
        ReleasableMeans(db.stock, lines, k);
        assert FirstUnreleasable(db.stock, lines, k, FaultOf(Move.Release, db.stock, lines, k).value);
      } else {
        WithdrawnMeans(oid, db);
      }
    }
  }
}
