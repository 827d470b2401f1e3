// What the reference allocator promises, order by order and for a whole call.
module AllocationResults {
  import opened Basics
  import opened WarehouseTables
  import opened Allocation

  // ------------------------------------------------------------------ shortage, exactly

  // The last line's share of what is gathered.
  lemma GatherLast(db: Db, lines: seq<Line>)
    requires lines != [] && Gather(db, lines).Picks?
    ensures var front, last := Gather(db, lines[..|lines| - 1]), lines[|lines| - 1];
            && front.Picks?
            && (if |FreeOf(db, last.sku)| < last.qty
                then Gather(db, lines) == Picks(front.picks, front.missing + [Missing(last.sku, last.qty - |FreeOf(db, last.sku)|)])
                else Gather(db, lines).missing == front.missing && |Query(db, last.sku, last.qty)| == last.qty
                     && ProductsOf(Gather(db, lines).picks) == ProductsOf(front.picks) + Query(db, last.sku, last.qty))
  {
  }

  predicate FallsShort(db: Db, l: Line, m: Missing) {
    |FreeOf(db, l.sku)| < l.qty && m == Missing(l.sku, l.qty - |FreeOf(db, l.sku)|)
  }

  // What is reported missing is each line's own quantity minus the free stock, for exactly the lines
  // that ask for more than is free.
  lemma {:induction false} MissingIsExact(db: Db, lines: seq<Line>, m: Missing)
    requires Gather(db, lines).Picks?
    ensures m in Gather(db, lines).missing <==> exists l :: l in lines && FallsShort(db, l, m)
    decreases |lines|
  {
    if lines != [] {
      var front, last := lines[..|lines| - 1], lines[|lines| - 1];
      GatherLast(db, lines);
      MissingIsExact(db, front, m);
      assert forall l :: l in lines <==> l in front || l == last;
      assert m in Gather(db, lines).missing <==> m in Gather(db, front).missing || FallsShort(db, last, m);
    }
  }

  // ----------------------------------------------------------- when the STORED guard fires

  predicate SameSkuTwice(lines: seq<Line>) {
    exists i, j :: 0 <= i < j < |lines| && lines[i].sku == lines[j].sku && lines[i].qty > 0 && lines[j].qty > 0
  }

  lemma {:induction false} LinePicks(db: Db, lines: seq<Line>, i: nat)
    requires Gather(db, lines).Picks? && Gather(db, lines).missing == [] && i < |lines|
    ensures forall p :: p in Query(db, lines[i].sku, lines[i].qty) ==> p in ProductsOf(Gather(db, lines).picks)
    decreases |lines|
  {
    var front := lines[..|lines| - 1];
    GatherLast(db, lines);
    if i < |front| {
      assert front[i] == lines[i];
      LinePicks(db, front, i);
      assert forall p :: p in ProductsOf(Gather(db, front).picks) ==> p in ProductsOf(Gather(db, lines).picks);
    }
  }

  lemma {:induction false} DemandedSku(lines: seq<Line>, sku: Sku)
    ensures Demand(lines, sku) > 0 <==> exists i :: 0 <= i < |lines| && lines[i].sku == sku && lines[i].qty > 0
    decreases |lines|
  {
    if lines != [] {
      var front := lines[..|lines| - 1];
      DemandedSku(front, sku);
      assert forall i :: 0 <= i < |front| ==> front[i] == lines[i];
    }
  }

  predicate AskedBefore(front: seq<Line>, sku: Sku) {
    exists i :: 0 <= i < |front| && front[i].sku == sku && front[i].qty > 0
  }

  // A product picked for an earlier line and found again for this one.
  lemma OverlapIsAskedBefore(db: Db, front: seq<Line>, last: Line, p: Product)
    requires Gather(db, front).Picks? && Gather(db, front).missing == []
    requires p in Query(db, last.sku, last.qty) && p in ProductsOf(Gather(db, front).picks)
    ensures AskedBefore(front, last.sku)
  {
    var picks := Gather(db, front).picks;
    var i :| 0 <= i < |picks| && ProductsOf(picks)[i] == p;
    GatheredProductsExist(db, front);
    assert picks[i] in picks && picks[i].sku == last.sku;
    OfSkuElems(picks, last.sku);
    assert p in OfSku(picks, last.sku);
    PicksMeetDemand(db, front, last.sku);
    DemandedSku(front, last.sku);
  }

  lemma AskedBeforeOverlaps(db: Db, front: seq<Line>, last: Line) returns (p: Product)
    requires Gather(db, front).Picks? && Gather(db, front).missing == [] && |FreeOf(db, last.sku)| >= last.qty > 0
    requires AskedBefore(front, last.sku)
    ensures p in Query(db, last.sku, last.qty) && p in ProductsOf(Gather(db, front).picks)
  {
    var i :| 0 <= i < |front| && front[i].sku == last.sku && front[i].qty > 0;
    LinePicks(db, front, i);
    NoMissing(db, front, front[i]);
    var other := Query(db, last.sku, front[i].qty);
    p := FreeOf(db, last.sku)[0];
    assert other[0] == p && Query(db, last.sku, last.qty)[0] == p;
  }

  lemma NoMissing(db: Db, lines: seq<Line>, l: Line)
    requires Gather(db, lines).Picks? && Gather(db, lines).missing == [] && l in lines
    ensures l.qty <= |FreeOf(db, l.sku)|
  {
  }

  lemma {:induction false} PickedTwiceIff(db: Db, lines: seq<Line>)
    requires WellOrdered(db) && Gather(db, lines).Picks? && Gather(db, lines).missing == []
    ensures !Distinct(ProductsOf(Gather(db, lines).picks)) <==> SameSkuTwice(lines)
    decreases |lines|
  {
    if lines != [] {
      var front, last := lines[..|lines| - 1], lines[|lines| - 1];
      GatherLast(db, lines);
      PickedTwiceIff(db, front);
      LastOverlapsIff(db, front, last);
      DistinctConcat(ProductsOf(Gather(db, front).picks), Query(db, last.sku, last.qty));
      SameSkuTwiceSnoc(front, last);
      assert lines == front + [last];
    }
  }

  lemma LastOverlapsIff(db: Db, front: seq<Line>, last: Line)
    requires Gather(db, front).Picks? && Gather(db, front).missing == [] && |FreeOf(db, last.sku)| >= last.qty
    ensures Overlap(Query(db, last.sku, last.qty), ProductsOf(Gather(db, front).picks)) <==> last.qty > 0 && AskedBefore(front, last.sku)
  {
    var found, before := Query(db, last.sku, last.qty), ProductsOf(Gather(db, front).picks);
    if Overlap(found, before) {
      var p :| p in found && p in before;
      OverlapIsAskedBefore(db, front, last, p);
    } else if last.qty > 0 && AskedBefore(front, last.sku) {
      var p := AskedBeforeOverlaps(db, front, last);
    }
  }

  predicate Overlap(a: seq<Product>, b: seq<Product>) {
    exists p :: p in a && p in b
  }

  lemma DistinctConcat(a: seq<Product>, b: seq<Product>)
    ensures Distinct(a + b) <==> Distinct(a) && Distinct(b) && !Overlap(b, a)
  {
    var c := a + b;
    assert forall i :: 0 <= i < |a| ==> a[i] == c[i];
    assert forall j :: 0 <= j < |b| ==> b[j] == c[|a| + j];
    if Distinct(a) && Distinct(b) && !Overlap(b, a) {
      assert forall i, j :: 0 <= i < |a| && 0 <= j < |b| ==> a[i] in a && b[j] in b && a[i] != b[j];
    } else if Overlap(b, a) {
      var p :| p in b && p in a;
      var i, j :| 0 <= i < |a| && 0 <= j < |b| && a[i] == p == b[j];
      assert c[i] == c[|a| + j];
    } else if !Distinct(a) {
      var i, j :| 0 <= i < j < |a| && a[i] == a[j];
      assert c[i] == c[j];
    } else {
      var i, j :| 0 <= i < j < |b| && b[i] == b[j];
      assert c[|a| + i] == c[|a| + j];
    }
  }

  lemma SameSkuTwiceSnoc(front: seq<Line>, last: Line)
    ensures SameSkuTwice(front + [last]) <==>
            SameSkuTwice(front) || (last.qty > 0 && AskedBefore(front, last.sku))
  {
    var lines := front + [last];
    if SameSkuTwice(front) {
      var i, j :| 0 <= i < j < |front| && front[i].sku == front[j].sku && front[i].qty > 0 && front[j].qty > 0;
      assert lines[i] == front[i] && lines[j] == front[j];
    }
    if last.qty > 0 && AskedBefore(front, last.sku) {
      var i :| 0 <= i < |front| && front[i].sku == last.sku && front[i].qty > 0;
      assert lines[i] == front[i] && lines[|front|] == last;
    }
    if SameSkuTwice(lines) {
      var i, j :| 0 <= i < j < |lines| && lines[i].sku == lines[j].sku && lines[i].qty > 0 && lines[j].qty > 0;
      assert lines[i] == front[i];
      assert j < |front| ==> lines[j] == front[j];
    }
  }

  // With enough stock for every line, the guard of UpdateProductAllocated fires exactly when two
  // lines ask for the same SKU; order_lines rules that out with a unique key on (order, SKU).
  lemma GuardFiresIff(db: Db, order: Order, destination: Destination, lines: seq<Line>, sectionOf: Bin -> Section)
    requires WellOrdered(db) && Gather(db, lines).Picks? && Gather(db, lines).missing == []
    ensures AllocateOrder(db, order, destination, lines, sectionOf) == Failed(PRODUCT_NOT_STORED) <==> SameSkuTwice(lines)
  {
    GatheredProductsExist(db, lines);
    AssignAllResult(db, ProductsOf(Gather(db, lines).picks), order);
    PickedTwiceIff(db, lines);
  }

  // Of each SKU the order takes what one query for it finds.
  lemma {:induction false} LineTakesItsQuery(db: Db, lines: seq<Line>, l: Line)
    requires Gather(db, lines).Picks? && Gather(db, lines).missing == []
    requires !SameSkuTwice(lines) && l in lines && l.qty > 0
    ensures OfSku(Gather(db, lines).picks, l.sku) == Query(db, l.sku, l.qty)
    decreases |lines|
  {
    var front, last := lines[..|lines| - 1], lines[|lines| - 1];
    var found := Query(db, last.sku, last.qty);
    GatherLast(db, lines);
    assert lines == front + [last];
    SameSkuTwiceSnoc(front, last);
    OfSkuAppend(Gather(db, front).picks, PicksOf(db, found, last.sku), l.sku);
    OfSkuOfPicks(db, found, last.sku, l.sku);
    if l in front && (l != last || last.sku != l.sku) {
      LineTakesItsQuery(db, front, l);
      var i :| 0 <= i < |front| && front[i] == l;
    } else {
      DemandedSku(front, l.sku);
      PicksMeetDemand(db, front, l.sku);
      assert OfSku(Gather(db, front).picks, l.sku) == [];
    }
  }

  // First in, first out: the products picked for a line are free stock in the order in which it arrived, as
  // many as the line asks for, and all free stock of the SKU that is left arrived later.
  lemma TakesOldest(db: Db, lines: seq<Line>, l: Line)
    requires WellOrdered(db) && Gather(db, lines).Picks? && Gather(db, lines).missing == []
    requires !SameSkuTwice(lines) && l in lines && l.qty > 0
    ensures var taken := OfSku(Gather(db, lines).picks, l.sku);
            && |taken| == l.qty && Elems(taken) <= FreeSet(db, l.sku)
            && (forall i, j :: 0 <= i < j < |taken| ==> Precedes(db.arrival, taken[i], taken[j]))
            && (forall p, q :: p in taken && q in FreeSet(db, l.sku) - Elems(taken) ==> Precedes(db.arrival, p, q))
  {
    LineTakesItsQuery(db, lines, l);
    QueryIsFifo(db, l.sku, l.qty);
    NoMissing(db, lines, l);
  }

  // A picked product was found for one of the lines.
  lemma {:induction false} PickedForLine(db: Db, lines: seq<Line>, p: Product) returns (l: Line)
    requires Gather(db, lines).Picks? && Gather(db, lines).missing == [] && p in ProductsOf(Gather(db, lines).picks)
    ensures l in lines && p in Query(db, l.sku, l.qty)
    ensures forall q :: q in Query(db, l.sku, l.qty) ==> q in ProductsOf(Gather(db, lines).picks)
    decreases |lines|
  {
    var front, last := lines[..|lines| - 1], lines[|lines| - 1];
    GatherLast(db, lines);
    if p in ProductsOf(Gather(db, front).picks) {
      l := PickedForLine(db, front, p);
    } else {
      l := last;
    }
    var i :| 0 <= i < |lines| && lines[i] == l;
    LinePicks(db, lines, i);
  }

  // Seen on the rows: of two products of one SKU that were free before, the one the order got arrived
  // before the one it left.
  lemma OrderTakesOldest(db: Db, order: Order, destination: Destination, sectionOf: Bin -> Section, p: Product, q: Product)
    requires WellOrdered(db) && AllocateOrder(db, order, destination, LinesOf(db, order), sectionOf).Done?
    requires p in db.products && q in db.products && db.products[p].sku == db.products[q].sku
    requires db.products[p].order == None && db.products[q].order == None && db.products[q].status == STORED
    requires var d := AllocateOrder(db, order, destination, LinesOf(db, order), sectionOf).db;
             p in d.products && q in d.products && d.products[p].order.Some? && d.products[q].order == None
    ensures Precedes(db.arrival, p, q)
  {
    var lines := LinesOf(db, order);
    var taken := OrderGetsItsQuantities(db, order, destination, lines, sectionOf);
    assert p in taken && q !in taken;
    var l := PickedForLine(db, lines, p);
    QueryIsFifo(db, l.sku, l.qty);
  }

  // Some line finds enough stock, but not all of it in a bin.
  ghost predicate WithoutBin(db: Db, lines: seq<Line>) {
    exists i :: 0 <= i < |lines| && LineWithoutBin(db, lines[i])
  }

  ghost predicate LineWithoutBin(db: Db, l: Line) {
    l.qty <= |FreeSet(db, l.sku)| && exists p :: p in Query(db, l.sku, l.qty) && db.products[p].bin == None
  }

  lemma {:induction false} BrokenIff(db: Db, lines: seq<Line>)
    requires WellOrdered(db)
    ensures Gather(db, lines).Broken? <==> WithoutBin(db, lines)
    ensures Gather(db, lines).Broken? ==> Gather(db, lines) == Broken(PRODUCT_WITHOUT_BIN)
    decreases |lines|
  {
    if lines != [] {
      var front, last := lines[..|lines| - 1], lines[|lines| - 1];
      BrokenIff(db, front);
      FreeCount(db, last.sku);
      assert forall i :: 0 <= i < |front| ==> front[i] == lines[i];
      assert WithoutBin(db, lines) <==> WithoutBin(db, front) || LineWithoutBin(db, last) by {
        if LineWithoutBin(db, last) {
          assert LineWithoutBin(db, lines[|front|]);
        }
      }
    }
  }

  // How an order fares: short exactly when some line asks for more than is free, then with what is missing
  // of each such line; failed by a product without a bin, a SKU asked for twice, or an order that is no longer
  // NEW; otherwise done.
  lemma OrderFares(db: Db, order: Order, destination: Destination, lines: seq<Line>, sectionOf: Bin -> Section)
    requires WellOrdered(db)
    ensures var r, short := AllocateOrder(db, order, destination, lines, sectionOf), (exists l :: l in lines && |FreeSet(db, l.sku)| < l.qty);
            && (r == Failed(PRODUCT_WITHOUT_BIN) <==> WithoutBin(db, lines))
            && (r.Short? <==> !WithoutBin(db, lines) && short)
            && (r.Short? ==> forall m :: m in r.missing <==> exists l :: l in lines && l.sku == m.sku && l.qty == |FreeSet(db, l.sku)| + m.qty && m.qty > 0)
            && (r == Failed(PRODUCT_NOT_STORED) <==> !WithoutBin(db, lines) && !short && SameSkuTwice(lines))
            && (r.Done? <==> !WithoutBin(db, lines) && !short && !SameSkuTwice(lines) && order in db.orders && db.orders[order].status == NEW)
            && (r.Done? ==> r.count == |ProductsOf(Gather(db, lines).picks)|)
  {
    BrokenIff(db, lines);
    if !WithoutBin(db, lines) {
      MissingIffShort(db, lines);
      GatheredProductsExist(db, lines);
      if Gather(db, lines).missing == [] {
        GuardFiresIff(db, order, destination, lines, sectionOf);
        AssignAllResult(db, ProductsOf(Gather(db, lines).picks), order);
        PickedTwiceIff(db, lines);
      }
    }
  }

  lemma MissingIffShort(db: Db, lines: seq<Line>)
    requires WellOrdered(db) && Gather(db, lines).Picks?
    ensures var missing := Gather(db, lines).missing;
            && (missing != [] <==> exists l :: l in lines && |FreeSet(db, l.sku)| < l.qty)
            && forall m :: m in missing <==> exists l :: l in lines && l.sku == m.sku && l.qty == |FreeSet(db, l.sku)| + m.qty && m.qty > 0
  {
    var missing := Gather(db, lines).missing;
    forall m
      ensures m in missing <==> exists l :: l in lines && l.sku == m.sku && l.qty == |FreeSet(db, l.sku)| + m.qty && m.qty > 0
    {
      MissingIsExact(db, lines, m);
      forall l | l in lines
        ensures FallsShort(db, l, m) <==> l.sku == m.sku && l.qty == |FreeSet(db, l.sku)| + m.qty && m.qty > 0
      {
        FreeCount(db, l.sku);
      }
    }
    if missing != [] {
      assert missing[0] in missing;
    }
    if l :| l in lines && |FreeSet(db, l.sku)| < l.qty {
      var m := Missing(l.sku, l.qty - |FreeSet(db, l.sku)|);
      assert m in missing;
    }
  }

  // --------------------------------------------------------------------- a whole call

  function HeldBy(db: Db, o: Order, sku: Sku): set<Product> {
    set p | p in db.products && db.products[p].order == Some(o) && db.products[p].sku == sku
  }

  // The order has exactly what its lines ask for.
  ghost predicate Fulfilled(db: Db, o: Order) {
    o in db.orders && db.orders[o].status == ORDER_ALLOCATED && forall sku :: |HeldBy(db, o, sku)| == Demand(db.orders[o].lines, sku)
  }

  ghost predicate Waiting(db: Db, o: Order) {
    o in db.orders && db.orders[o].status == NEW && forall p :: p in db.products ==> db.products[p].order != Some(o)
  }

  // Stock is conserved: a product keeps its row, or went from free stock to one order of the call.
  ghost predicate Moved(db: Db, d: Db, orders: seq<Order>) {
    && d.products.Keys == db.products.Keys
    && forall p :: p in db.products ==>
         || d.products[p] == db.products[p]
         || (IsFree(db, p, db.products[p].sku) && exists o :: o in orders && d.products[p] == db.products[p].(status := ALLOCATED, order := Some(o)))
  }

  ghost predicate OthersKeep(db: Db, d: Db, orders: seq<Order>) {
    && d.orders.Keys == db.orders.Keys
    && (forall o :: o in db.orders ==> d.orders[o].lines == db.orders[o].lines)
    && (forall o :: o in db.orders && o !in orders ==> d.orders[o] == db.orders[o])
  }

  ghost predicate AllOrNothing(d: Db, orders: seq<Order>, insufficient: seq<Insufficient>) {
    forall o :: o in orders ==> if exists i :: i in insufficient && i.order == o then Waiting(d, o) else Fulfilled(d, o)
  }

  lemma WaitsStill(db: Db, d: Db, orders: seq<Order>, o: Order)
    requires Waiting(db, o) && o !in orders && Moved(db, d, orders) && OthersKeep(db, d, orders)
    ensures Waiting(d, o)
  {
  }

  // What one more allocated order does to the orders before it.
  lemma OneMore(d: Db, d': Db, x: Order, lines: seq<Line>, taken: set<Product>)
    requires Waiting(d, x) && lines == d.orders[x].lines && Allocates(d, x, lines, d', taken)
    requires d'.orders == d.orders[x := d.orders[x].(status := ORDER_ALLOCATED)]
    ensures Fulfilled(d', x)
    ensures forall o :: o != x && Fulfilled(d, o) ==> Fulfilled(d', o)
    ensures forall o :: o != x && Waiting(d, o) ==> Waiting(d', o)
  {
    forall sku
      ensures HeldBy(d', x, sku) == FreeSet(d, sku) * taken
    {
      HeldAfter(d, d', x, lines, taken, sku);
    }
    forall o, sku | o != x
      ensures HeldBy(d', o, sku) == HeldBy(d, o, sku)
    {
      HeldByOthers(d, d', x, lines, taken, o, sku);
    }
    assert forall p :: p in d'.products ==> d'.products[p] == AssignedRow(d, p, taken, x);
  }

  lemma HeldAfter(d: Db, d': Db, x: Order, lines: seq<Line>, taken: set<Product>, sku: Sku)
    requires Waiting(d, x) && Allocates(d, x, lines, d', taken)
    ensures HeldBy(d', x, sku) == FreeSet(d, sku) * taken
  {
  }

  lemma HeldByOthers(d: Db, d': Db, x: Order, lines: seq<Line>, taken: set<Product>, o: Order, sku: Sku)
    requires o != x && Allocates(d, x, lines, d', taken)
    ensures HeldBy(d', o, sku) == HeldBy(d, o, sku)
  {
  }

  lemma MovedFurther(db: Db, d: Db, d': Db, orders: seq<Order>, x: Order, lines: seq<Line>, taken: set<Product>)
    requires Moved(db, d, orders) && Allocates(d, x, lines, d', taken)
    ensures Moved(db, d', orders + [x])
  {
  }

  ghost predicate Sound(db: Db, orders: seq<Order>, d: Db, n: nat, insufficient: seq<Insufficient>) {
    && WellOrdered(d) && TasksMatch(d)
    && Moved(db, d, orders) && OthersKeep(db, d, orders) && AllOrNothing(d, orders, insufficient)
    && n + |insufficient| == |orders|
    && (forall i :: i in insufficient ==> i.order in orders && i.missing != [])
  }

  lemma SoundWithOneMore(db: Db, front: seq<Order>, d: Db, n: nat, insufficient: seq<Insufficient>, x: Order, d': Db, taken: set<Product>)
    requires Sound(db, front, d, n, insufficient) && x !in front && Waiting(db, x)
    requires Allocates(d, x, LinesOf(d, x), d', taken) && d'.orders == d.orders[x := d.orders[x].(status := ORDER_ALLOCATED)]
    requires TasksAdded(d, d', x, taken)
    ensures Sound(db, front + [x], d', n + 1, insufficient)
  {
    var lines := LinesOf(d, x);
    WaitsStill(db, d, front, x);
    StaysWellOrdered(d, x, lines, d', taken);
    TasksFollow(d, d', x, lines, taken);
    OneMore(d, d', x, lines, taken);
    MovedFurther(db, d, d', front, x, lines, taken);
    assert forall o :: o in front + [x] <==> o in front || o == x;
  }

  // Over a whole call, whatever the mix of satisfiable and short orders: stock is conserved, no
  // product goes to two orders, every order is served in full or not at all, the counts add up, and
  // every product allocated has exactly one task, still pending.
  lemma {:induction false} AllocationIsSound(db: Db, orders: seq<Order>, destination: Destination, sectionOf: Bin -> Section)
    requires WellOrdered(db) && TasksMatch(db) && Distinct(orders) && forall o :: o in orders ==> Waiting(db, o)
    requires AllocateAll(db, orders, destination, sectionOf).Going?
    ensures var g := AllocateAll(db, orders, destination, sectionOf); Sound(db, orders, g.db, g.orders, g.insufficient)
    decreases |orders|
  {
    if orders != [] {
      var front, x := orders[..|orders| - 1], orders[|orders| - 1];
      AllocationIsSound(db, front, destination, sectionOf);
      var g := AllocateAll(db, front, destination, sectionOf);
      assert orders == front + [x];
      SoundStep(db, front, g, x, destination, sectionOf);
    }
  }

  // And over a whole call, whichever orders it served: what was taken of a SKU arrived before what is
  // left of it.
  lemma {:induction false} CallTakesOldest(db: Db, orders: seq<Order>, destination: Destination, sectionOf: Bin -> Section, p: Product, q: Product)
    requires WellOrdered(db) && TasksMatch(db) && Distinct(orders) && forall o :: o in orders ==> Waiting(db, o)
    requires AllocateAll(db, orders, destination, sectionOf).Going?
    requires p in db.products && q in db.products && db.products[p].sku == db.products[q].sku
    requires db.products[p].order == None && db.products[q].order == None && db.products[q].status == STORED
    requires var d := AllocateAll(db, orders, destination, sectionOf).db;
             p in d.products && q in d.products && d.products[p].order.Some? && d.products[q].order == None
    ensures Precedes(db.arrival, p, q)
    decreases |orders|
  {
    if orders != [] {
      var front, x := orders[..|orders| - 1], orders[|orders| - 1];
      var g := AllocateAll(db, front, destination, sectionOf);
      AllocationIsSound(db, front, destination, sectionOf);
      StepAssigns(g.db, x, destination, sectionOf);
      FrontKeepsArrival(db, front, destination, sectionOf);
      if g.db.products[p].order.Some? {
        CallTakesOldest(db, front, destination, sectionOf, p, q);
      } else {
        OrderTakesOldest(g.db, x, destination, sectionOf, p, q);
      }
    }
  }

  lemma StepAssigns(db: Db, x: Order, destination: Destination, sectionOf: Bin -> Section)
    ensures var r := AllocateOrder(db, x, destination, LinesOf(db, x), sectionOf);
            r.Done? ==> r.db.arrival == db.arrival && r.db.products.Keys == db.products.Keys
                        && forall p :: p in db.products && r.db.products[p].order == None ==> r.db.products[p] == db.products[p]
  {
    if AllocateOrder(db, x, destination, LinesOf(db, x), sectionOf).Done? {
      var taken := OrderGetsItsQuantities(db, x, destination, LinesOf(db, x), sectionOf);
    }
  }

  lemma {:induction false} FrontKeepsArrival(db: Db, orders: seq<Order>, destination: Destination, sectionOf: Bin -> Section)
    ensures var g := AllocateAll(db, orders, destination, sectionOf);
            g.Going? ==> g.db.arrival == db.arrival && g.db.products.Keys == db.products.Keys
    decreases |orders|
  {
    if orders != [] {
      var front := orders[..|orders| - 1];
      FrontKeepsArrival(db, front, destination, sectionOf);
      var g := AllocateAll(db, front, destination, sectionOf);
      if g.Going? {
        StepAssigns(g.db, orders[|orders| - 1], destination, sectionOf);
      }
    }
  }

  lemma SoundStep(db: Db, front: seq<Order>, g: Batch, x: Order, destination: Destination, sectionOf: Bin -> Section)
    requires g.Going? && Sound(db, front, g.db, g.orders, g.insufficient) && x !in front && Waiting(db, x)
    ensures match AllocateOrder(g.db, x, destination, LinesOf(g.db, x), sectionOf)
            case Failed(_) => true
            case Short(missing) => Sound(db, front + [x], g.db, g.orders, g.insufficient + [Insufficient(x, missing)])
            case Done(d, _) => Sound(db, front + [x], d, g.orders + 1, g.insufficient)
  {
    var r := AllocateOrder(g.db, x, destination, LinesOf(g.db, x), sectionOf);
    if r.Done? {
      var taken := OrderGetsItsQuantities(g.db, x, destination, LinesOf(g.db, x), sectionOf);
      OrderAddsTasks(g.db, x, destination, LinesOf(g.db, x), sectionOf);
      SoundWithOneMore(db, front, g.db, g.orders, g.insufficient, x, r.db, taken);
    } else if r.Short? {
      ShortChangesNothing(db, g, front, x, r.missing);
    }
  }

  lemma TasksFollow(d: Db, d': Db, x: Order, lines: seq<Line>, taken: set<Product>)
    requires TasksMatch(d) && Allocates(d, x, lines, d', taken) && TasksAdded(d, d', x, taken)
    ensures TasksMatch(d')
  {
    var added: seq<Task> :| d'.tasks == d.tasks + added && NewTasks(d, added, x, taken);
    AllHaveTasks(d, d', x, lines, taken, added);
    AllTasksFit(d, d', x, lines, taken, added);
    forall i, j | 0 <= i < j < |d'.tasks|
      ensures d'.tasks[i].product != d'.tasks[j].product
    {
      assert i >= |d.tasks| ==> d'.tasks[i] == added[i - |d.tasks|];
      assert j >= |d.tasks| ==> d'.tasks[j] == added[j - |d.tasks|];
    }
  }

  lemma AllHaveTasks(d: Db, d': Db, x: Order, lines: seq<Line>, taken: set<Product>, added: seq<Task>)
    requires TasksMatch(d) && Allocates(d, x, lines, d', taken) && d'.tasks == d.tasks + added && NewTasks(d, added, x, taken)
    ensures forall p :: p in d'.products && Stage(d'.products[p].status) >= 2 ==> HasTask(d', p)
  {
    forall p | p in d'.products && Stage(d'.products[p].status) >= 2
      ensures HasTask(d', p)
    {
      if p in taken {
        var i :| 0 <= i < |added| && added[i].product == p;
        assert d'.tasks[|d.tasks| + i].product == p;
      } else {
        assert d'.products[p] == AssignedRow(d, p, taken, x);
        assert HasTask(d, p);
        var i :| 0 <= i < |d.tasks| && d.tasks[i].product == p;
        assert d'.tasks[i].product == p;
      }
    }
  }

  lemma AllTasksFit(d: Db, d': Db, x: Order, lines: seq<Line>, taken: set<Product>, added: seq<Task>)
    requires TasksMatch(d) && Allocates(d, x, lines, d', taken) && d'.tasks == d.tasks + added && NewTasks(d, added, x, taken)
    ensures forall i :: 0 <= i < |d'.tasks| ==>
              && d'.tasks[i].product in d'.products && TaskFits(d'.products[d'.tasks[i].product], d'.tasks[i])
              && (i < |d.tasks| <==> d'.tasks[i].product !in taken)
  {
  }

  lemma ShortChangesNothing(db: Db, g: Batch, front: seq<Order>, x: Order, missing: seq<Missing>)
    requires g.Going? && Sound(db, front, g.db, g.orders, g.insufficient) && x !in front && Waiting(db, x) && missing != []
    ensures Sound(db, front + [x], g.db, g.orders, g.insufficient + [Insufficient(x, missing)])
  {
    var more := g.insufficient + [Insufficient(x, missing)];
    WaitsStill(db, g.db, front, x);
    assert Insufficient(x, missing) in more;
    assert forall o :: o in front ==> ((exists i :: i in more && i.order == o) <==> (exists i :: i in g.insufficient && i.order == o));
    assert forall o :: o in front + [x] <==> o in front || o == x;
  }
}
