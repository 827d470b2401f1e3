// Allocating stock to the NEW orders of a shop, with the shortage cache of one call
// (wms/internal/assembly/service.go, wms/internal/assembly/repository.go).
module Allocation {
  import opened Basics
  import opened WarehouseTables

  const BATCH_LIMIT := 500

  // ------------------------------------------------------------------------- free stock

  predicate IsFree(db: Db, p: Product, sku: Sku) {
    p in db.products && db.products[p].sku == sku && db.products[p].status == STORED && db.products[p].order == None
  }

  function FreeAmong(db: Db, ps: seq<Product>, sku: Sku): (free: seq<Product>)
    ensures forall p :: p in free <==> p in ps && IsFree(db, p, sku)
    ensures Distinct(ps) ==> Distinct(free)
  {
    if ps == [] then []
    else
      var rest := FreeAmong(db, ps[1..], sku);
      assert forall p :: p in ps <==> p == ps[0] || p in ps[1..];
      if IsFree(db, ps[0], sku) then [ps[0]] + rest else rest
  }

  // What the FIFO query returns without its LIMIT.
  function FreeOf(db: Db, sku: Sku): seq<Product> {
    FreeAmong(db, db.arrival, sku)
  }

  // ORDER BY created_at, product_id LIMIT n
  function Query(db: Db, sku: Sku, limit: nat): (found: seq<Product>)
    ensures found <= FreeOf(db, sku)
    ensures |found| == if |FreeOf(db, sku)| < limit then |FreeOf(db, sku)| else limit
    ensures forall p :: p in found ==> IsFree(db, p, sku)
  {
    var free := FreeOf(db, sku);
    if |free| < limit then free else free[..limit]
  }

  // The stock of a SKU that stands in a bin and belongs to nobody.
  function FreeSet(db: Db, sku: Sku): set<Product> {
    set p | p in db.products && db.products[p].sku == sku && db.products[p].status == STORED && db.products[p].order == None
  }

  // The list of the free products keeps the order of ps.
  lemma {:induction false} FreeInOrder(db: Db, ps: seq<Product>, sku: Sku, i: nat, j: nat)
    requires i < j < |FreeAmong(db, ps, sku)|
    ensures Precedes(ps, FreeAmong(db, ps, sku)[i], FreeAmong(db, ps, sku)[j])
    decreases |ps|
  {
    var free, rest := FreeAmong(db, ps, sku), FreeAmong(db, ps[1..], sku);
    if !IsFree(db, ps[0], sku) {
      FreeInOrder(db, ps[1..], sku, i, j);
      PrecedesLater(ps, free[i], free[j]);
    } else if i > 0 {
      FreeInOrder(db, ps[1..], sku, i - 1, j - 1);
      PrecedesLater(ps, free[i], free[j]);
    } else {
      assert free[j] == rest[j - 1] && rest[j - 1] in ps[1..];
      var k :| 1 <= k < |ps| && ps[k] == free[j];
    }
  }

  lemma PrecedesLater(ps: seq<Product>, x: Product, y: Product)
    requires ps != [] && Precedes(ps[1..], x, y)
    ensures Precedes(ps, x, y)
  {
    var i, j :| 0 <= i < j < |ps[1..]| && ps[1..][i] == x && ps[1..][j] == y;
    assert ps[i + 1] == x && ps[j + 1] == y;
  }

  // First in, first out: the query finds free products of the SKU in the order in which they arrived, as
  // many as asked for or all there are, and whatever it leaves arrived after all it found.
  lemma QueryIsFifo(db: Db, sku: Sku, limit: nat)
    requires WellOrdered(db)
    ensures var found := Query(db, sku, limit);
            && Elems(found) <= FreeSet(db, sku) && |found| == (if |FreeSet(db, sku)| < limit then |FreeSet(db, sku)| else limit)
            && (forall i, j :: 0 <= i < j < |found| ==> Precedes(db.arrival, found[i], found[j]))
            && (forall p, q :: p in found && q in FreeSet(db, sku) && q !in found ==> Precedes(db.arrival, p, q))
  {
    var found, free := Query(db, sku, limit), FreeOf(db, sku);
    FreeCount(db, sku);
    forall i, j | 0 <= i < j < |found|
      ensures Precedes(db.arrival, found[i], found[j])
    {
      FreeInOrder(db, db.arrival, sku, i, j);
    }
    forall p, q | p in found && q in FreeSet(db, sku) && q !in found
      ensures Precedes(db.arrival, p, q)
    {
      var i :| 0 <= i < |found| && found[i] == p;
      assert q in Elems(free);
      var j :| 0 <= j < |free| && free[j] == q;
      assert found == free[..|found|];
      FreeInOrder(db, db.arrival, sku, i, j);
    }
  }

  lemma FreeCount(db: Db, sku: Sku)
    requires WellOrdered(db)
    ensures Elems(FreeOf(db, sku)) == FreeSet(db, sku) && |FreeOf(db, sku)| == |FreeSet(db, sku)|
  {
    DistinctCardinality(FreeOf(db, sku));
  }

  // ---------------------------------------------------- the reference: always ask the table

  datatype Pick = Pick(product: Product, bin: Bin, sku: Sku)

  datatype Missing = Missing(sku: Sku, qty: nat)

  datatype Error = INVALID_INPUT | PRODUCT_WITHOUT_BIN | PRODUCT_NOT_STORED | ORDER_NOT_NEW

  datatype Gathered = Picks(picks: seq<Pick>, missing: seq<Missing>) | Broken(error: Error)

  function PicksOf(db: Db, ps: seq<Product>, sku: Sku): (picks: seq<Pick>)
    requires forall p :: p in ps ==> p in db.products && db.products[p].bin.Some?
    ensures |picks| == |ps| && forall i :: 0 <= i < |ps| ==> picks[i] == Pick(ps[i], db.products[ps[i]].bin.value, sku)
  {
    seq(|ps|, i requires 0 <= i < |ps| => Pick(ps[i], db.products[ps[i]].bin.value, sku))
  }

  function GatherLine(db: Db, g: Gathered, line: Line): Gathered
    requires g.Picks?
  {
    var found := Query(db, line.sku, line.qty);
    if |found| < line.qty then Picks(g.picks, g.missing + [Missing(line.sku, line.qty - |found|)])
    else if exists p :: p in found && db.products[p].bin == None then Broken(PRODUCT_WITHOUT_BIN)
    else Picks(g.picks + PicksOf(db, found, line.sku), g.missing)
  }

  function Gather(db: Db, lines: seq<Line>): Gathered {
    if lines == [] then Picks([], [])
    else
      var g := Gather(db, lines[..|lines| - 1]);
      if g.Broken? then g else GatherLine(db, g, lines[|lines| - 1])
  }

  function ProductsOf(picks: seq<Pick>): (ps: seq<Product>)
    ensures |ps| == |picks| && forall i :: 0 <= i < |picks| ==> ps[i] == picks[i].product
  {
    seq(|picks|, i requires 0 <= i < |picks| => picks[i].product)
  }

  function Assigned(db: Db, p: Product, order: Order): Db
    requires p in db.products
  {
    db.(products := db.products[p := db.products[p].(status := ALLOCATED, order := Some(order))])
  }

  // The UPDATEs one after another; None when a STORED guard fires.
  function AssignAll(db: Db, ps: seq<Product>, order: Order): Option<Db>
    requires forall p :: p in ps ==> p in db.products
  {
    if ps == [] then Some(db)
    else
      match AssignAll(db, ps[..|ps| - 1], order)
      case None => None
      case Some(d) =>
        var p := ps[|ps| - 1];
        if p in d.products && d.products[p].status == STORED then Some(Assigned(d, p, order)) else None
  }

  function TaskOf(k: Pick, order: Order, destination: Destination, section: Section): Task {
    Task(order, k.product, k.sku, k.bin, section, destination, false, None, None)
  }

  function TasksOf(picks: seq<Pick>, order: Order, destination: Destination, sectionOf: Bin -> Section): (ts: seq<Task>)
    ensures |ts| == |picks| && forall i :: 0 <= i < |picks| ==> ts[i] == TaskOf(picks[i], order, destination, sectionOf(picks[i].bin))
  {
    seq(|picks|, i requires 0 <= i < |picks| => TaskOf(picks[i], order, destination, sectionOf(picks[i].bin)))
  }

  datatype Outcome = Done(db: Db, count: nat) | Short(missing: seq<Missing>) | Failed(error: Error)

  lemma {:induction false} GatheredProductsExist(db: Db, lines: seq<Line>)
    requires Gather(db, lines).Picks?
    ensures forall k :: k in Gather(db, lines).picks ==> IsFree(db, k.product, k.sku) && db.products[k.product].bin == Some(k.bin)
    ensures forall p :: p in ProductsOf(Gather(db, lines).picks) ==> p in db.products && db.products[p].status == STORED
    decreases |lines|
  {
    if lines != [] {
      GatheredProductsExist(db, lines[..|lines| - 1]);
    }
  }

  function Settled(db: Db, order: Order): Db
    requires order in db.orders
  {
    db.(orders := db.orders[order := db.orders[order].(status := ORDER_ALLOCATED)])
  }

  // One order: all of its lines, or nothing and what is missing.
  function AllocateOrder(db: Db, order: Order, destination: Destination, lines: seq<Line>, sectionOf: Bin -> Section): Outcome {
    match Gather(db, lines)
    case Broken(e) => Failed(e)
    case Picks(picks, missing) =>
      GatheredProductsExist(db, lines);
      if missing != [] then Short(missing)
      else
        match AssignAll(db, ProductsOf(picks), order)
        case None => Failed(PRODUCT_NOT_STORED)
        case Some(d) =>
          if order !in d.orders || d.orders[order].status != NEW then Failed(ORDER_NOT_NEW)
          else Done(Settled(d.(tasks := d.tasks + TasksOf(picks, order, destination, sectionOf)), order), |picks|)
  }

  datatype Insufficient = Insufficient(order: Order, missing: seq<Missing>)

  datatype Batch = Going(db: Db, orders: nat, products: nat, insufficient: seq<Insufficient>) | Aborted(error: Error)

  function LinesOf(db: Db, order: Order): seq<Line> {
    if order in db.orders then db.orders[order].lines else []
  }

  function BatchStep(g: Batch, o: Order, destination: Destination, sectionOf: Bin -> Section): Batch
    requires g.Going?
  {
    match AllocateOrder(g.db, o, destination, LinesOf(g.db, o), sectionOf)
    case Failed(e) => Aborted(e)
    case Short(missing) => Going(g.db, g.orders, g.products, g.insufficient + [Insufficient(o, missing)])
    case Done(d, count) => Going(d, g.orders + 1, g.products + count, g.insufficient)
  }

  // Order after order; an error aborts the whole call.
  function AllocateAll(db: Db, orders: seq<Order>, destination: Destination, sectionOf: Bin -> Section): Batch {
    if orders == [] then Going(db, 0, 0, [])
    else
      var g := AllocateAll(db, orders[..|orders| - 1], destination, sectionOf);
      if g.Aborted? then g else BatchStep(g, orders[|orders| - 1], destination, sectionOf)
  }

  // --------------------------------------------------------------- assigning the products

  function AssignedRow(db: Db, p: Product, ps: set<Product>, order: Order): ProductRow
    requires p in db.products
  {
    if p in ps then db.products[p].(status := ALLOCATED, order := Some(order)) else db.products[p]
  }

  // A STORED guard fires exactly when a product was picked twice.
  lemma {:induction false} AssignAllResult(db: Db, ps: seq<Product>, order: Order)
    requires forall p :: p in ps ==> p in db.products && db.products[p].status == STORED
    ensures AssignAll(db, ps, order).Some? <==> Distinct(ps)
    ensures AssignAll(db, ps, order).Some? ==>
              AssignAll(db, ps, order).value == db.(products := map p | p in db.products :: AssignedRow(db, p, Elems(ps), order))
    decreases |ps|
  {
    if ps == [] {
      assert db.products == map p | p in db.products :: AssignedRow(db, p, {}, order);
    } else {
      var front, last := ps[..|ps| - 1], ps[|ps| - 1];
      AssignAllResult(db, front, order);
      assert ps == front + [last];
      assert Distinct(ps) <==> Distinct(front) && last !in front;
      assert Elems(ps) == Elems(front) + {last};
    }
  }

  // The products picked for one SKU, in order.
  function OfSku(picks: seq<Pick>, sku: Sku): seq<Product> {
    if picks == [] then []
    else
      var k := picks[|picks| - 1];
      OfSku(picks[..|picks| - 1], sku) + if k.sku == sku then [k.product] else []
  }

  lemma {:induction false} OfSkuAppend(a: seq<Pick>, b: seq<Pick>, sku: Sku)
    ensures OfSku(a + b, sku) == OfSku(a, sku) + OfSku(b, sku)
    decreases |b|
  {
    if b == [] {
      assert a + b == a;
    } else {
      OfSkuAppend(a, b[..|b| - 1], sku);
      assert (a + b)[..|a + b| - 1] == a + b[..|b| - 1];
    }
  }

  lemma {:induction false} OfSkuOfPicks(db: Db, ps: seq<Product>, sku: Sku, other: Sku)
    requires forall p :: p in ps ==> p in db.products && db.products[p].bin.Some?
    ensures OfSku(PicksOf(db, ps, sku), other) == if sku == other then ps else []
    decreases |ps|
  {
    if ps != [] {
      OfSkuOfPicks(db, ps[..|ps| - 1], sku, other);
      assert PicksOf(db, ps, sku)[..|ps| - 1] == PicksOf(db, ps[..|ps| - 1], sku);
      assert ps == ps[..|ps| - 1] + [ps[|ps| - 1]];
    }
  }

  function Demand(lines: seq<Line>, sku: Sku): nat {
    if lines == [] then 0
    else Demand(lines[..|lines| - 1], sku) + if lines[|lines| - 1].sku == sku then lines[|lines| - 1].qty else 0
  }

  // Without shortage the picks of a SKU are as many as the lines ask for.
  lemma {:induction false} PicksMeetDemand(db: Db, lines: seq<Line>, sku: Sku)
    requires Gather(db, lines).Picks? && Gather(db, lines).missing == []
    ensures |OfSku(Gather(db, lines).picks, sku)| == Demand(lines, sku)
    decreases |lines|
  {
    if lines != [] {
      var front, line := lines[..|lines| - 1], lines[|lines| - 1];
      PicksMeetDemand(db, front, sku);
      var found := Query(db, line.sku, line.qty);
      OfSkuAppend(Gather(db, front).picks, PicksOf(db, found, line.sku), sku);
      OfSkuOfPicks(db, found, line.sku, sku);
    }
  }

  lemma {:induction false} OfSkuElems(picks: seq<Pick>, sku: Sku)
    ensures forall p :: p in OfSku(picks, sku) <==> exists k :: k in picks && k.sku == sku && k.product == p
    ensures Distinct(ProductsOf(picks)) ==> Distinct(OfSku(picks, sku))
    decreases |picks|
  {
    if picks != [] {
      var front, k := picks[..|picks| - 1], picks[|picks| - 1];
      OfSkuElems(front, sku);
      assert picks == front + [k];
      assert ProductsOf(picks) == ProductsOf(front) + [k.product];
      forall p | p in OfSku(front, sku)
        ensures p in ProductsOf(front)
      {
        var j: Pick :| j in front && j.product == p;
        var i :| 0 <= i < |front| && front[i] == j;
        assert ProductsOf(front)[i] == p;
      }
      assert Distinct(ProductsOf(picks)) ==> k.product !in ProductsOf(front) && Distinct(ProductsOf(front));
    }
  }

  // ------------------------------------------------------- the reference allocator's effect

  ghost predicate Allocates(db: Db, order: Order, lines: seq<Line>, db': Db, taken: set<Product>) {
    && db'.arrival == db.arrival && db'.queue == db.queue && db'.orders.Keys == db.orders.Keys
    && db'.products == (map p | p in db.products :: AssignedRow(db, p, taken, order))
    && (forall p :: p in taken ==> p in db.products && IsFree(db, p, db.products[p].sku))
    && (forall sku :: |FreeSet(db, sku) * taken| == Demand(lines, sku))
  }

  // One fresh task for each product taken.
  ghost predicate NewTasks(db: Db, added: seq<Task>, order: Order, taken: set<Product>) {
    && (forall i :: 0 <= i < |added| ==>
          && added[i].product in taken && added[i].order == order && IsFree(db, added[i].product, added[i].sku)
          && !added[i].done && added[i].action == None)
    && (forall i, j :: 0 <= i < j < |added| ==> added[i].product != added[j].product)
    && (forall p :: p in taken ==> exists i :: 0 <= i < |added| && added[i].product == p)
  }

  ghost predicate TasksAdded(db: Db, db': Db, order: Order, taken: set<Product>) {
    exists added :: db'.tasks == db.tasks + added && NewTasks(db, added, order, taken)
  }

  // An allocated order takes exactly what its lines ask for of every SKU, out of free stock.
  lemma OrderGetsItsQuantities(db: Db, order: Order, destination: Destination, lines: seq<Line>, sectionOf: Bin -> Section)
    returns (taken: set<Product>)
    requires AllocateOrder(db, order, destination, lines, sectionOf).Done?
    ensures var r := AllocateOrder(db, order, destination, lines, sectionOf);
            && Allocates(db, order, lines, r.db, taken) && r.count == |taken|
            && order in db.orders && db.orders[order].status == NEW
            && r.db.orders == db.orders[order := db.orders[order].(status := ORDER_ALLOCATED)]
            && taken == Elems(ProductsOf(Gather(db, lines).picks))
  {
    var picks := Gather(db, lines).picks;
    var ps := ProductsOf(picks);
    taken := Elems(ps);
    GatheredProductsExist(db, lines);
    AssignAllResult(db, ps, order);
    DistinctCardinality(ps);
    TakenAreFree(db, lines);
    forall sku
      ensures |FreeSet(db, sku) * taken| == Demand(lines, sku)
    {
      TakenOfSku(db, lines, sku);
    }
  }

  // And every product taken gets one task.
  lemma OrderAddsTasks(db: Db, order: Order, destination: Destination, lines: seq<Line>, sectionOf: Bin -> Section)
    requires AllocateOrder(db, order, destination, lines, sectionOf).Done?
    ensures TasksAdded(db, AllocateOrder(db, order, destination, lines, sectionOf).db, order, Elems(ProductsOf(Gather(db, lines).picks)))
  {
    DoneMeans(db, order, destination, lines, sectionOf);
    OneTaskPerPick(db, order, destination, lines, sectionOf);
  }

  lemma DoneMeans(db: Db, order: Order, destination: Destination, lines: seq<Line>, sectionOf: Bin -> Section)
    requires AllocateOrder(db, order, destination, lines, sectionOf).Done?
    ensures Gather(db, lines).Picks? && Distinct(ProductsOf(Gather(db, lines).picks))
    ensures AllocateOrder(db, order, destination, lines, sectionOf).db.tasks == db.tasks + TasksOf(Gather(db, lines).picks, order, destination, sectionOf)
  {
    GatheredProductsExist(db, lines);
    AssignAllResult(db, ProductsOf(Gather(db, lines).picks), order);
  }

  lemma TakenAreFree(db: Db, lines: seq<Line>)
    requires Gather(db, lines).Picks?
    ensures forall p :: p in ProductsOf(Gather(db, lines).picks) ==> p in db.products && IsFree(db, p, db.products[p].sku)
  {
    GatheredProductsExist(db, lines);
    var picks := Gather(db, lines).picks;
    forall p | p in ProductsOf(picks)
      ensures p in db.products && IsFree(db, p, db.products[p].sku)
    {
      var i :| 0 <= i < |picks| && ProductsOf(picks)[i] == p;
      assert picks[i] in picks;
    }
  }

  lemma TakenOfSku(db: Db, lines: seq<Line>, sku: Sku)
    requires Gather(db, lines).Picks? && Gather(db, lines).missing == [] && Distinct(ProductsOf(Gather(db, lines).picks))
    ensures |FreeSet(db, sku) * Elems(ProductsOf(Gather(db, lines).picks))| == Demand(lines, sku)
  {
    var picks := Gather(db, lines).picks;
    GatheredProductsExist(db, lines);
    PicksMeetDemand(db, lines, sku);
    OfSkuElems(picks, sku);
    DistinctCardinality(OfSku(picks, sku));
    forall p
      ensures p in FreeSet(db, sku) * Elems(ProductsOf(picks)) <==> p in OfSku(picks, sku)
    {
      if p in FreeSet(db, sku) && p in ProductsOf(picks) {
        var i :| 0 <= i < |picks| && ProductsOf(picks)[i] == p;
        assert picks[i] in picks && picks[i].sku == sku;
      }
      if p in OfSku(picks, sku) {
        var k :| k in picks && k.sku == sku && k.product == p;
        var i :| 0 <= i < |picks| && picks[i] == k;
        assert ProductsOf(picks)[i] == p;
      }
    }
    assert FreeSet(db, sku) * Elems(ProductsOf(picks)) == Elems(OfSku(picks, sku));
  }

  lemma OneTaskPerPick(db: Db, order: Order, destination: Destination, lines: seq<Line>, sectionOf: Bin -> Section)
    requires Gather(db, lines).Picks? && Distinct(ProductsOf(Gather(db, lines).picks))
    ensures NewTasks(db, TasksOf(Gather(db, lines).picks, order, destination, sectionOf), order, Elems(ProductsOf(Gather(db, lines).picks)))
  {
    var picks := Gather(db, lines).picks;
    var added := TasksOf(picks, order, destination, sectionOf);
    GatheredProductsExist(db, lines);
    forall i | 0 <= i < |added|
      ensures added[i].product == ProductsOf(picks)[i] && picks[i] in picks && IsFree(db, added[i].product, added[i].sku)
    {
      assert picks[i] in picks;
    }
    forall p | p in ProductsOf(picks)
      ensures exists i :: 0 <= i < |added| && added[i].product == p
    {
      var i :| 0 <= i < |picks| && ProductsOf(picks)[i] == p;
      assert added[i].product == p;
    }
  }

  // What a task says: the picked product with its SKU and bin, the bin's section, for this order and shop,
  // not yet picked by anybody.
  lemma TasksSayWhere(db: Db, order: Order, destination: Destination, lines: seq<Line>, sectionOf: Bin -> Section)
    requires AllocateOrder(db, order, destination, lines, sectionOf).Done?
    ensures var d := AllocateOrder(db, order, destination, lines, sectionOf).db;
            && db.tasks <= d.tasks
            && forall i :: |db.tasks| <= i < |d.tasks| ==>
                 var t := d.tasks[i];
                 && t.product in db.products && t.product in d.products && db.products[t.product].bin.Some?
                 && t == Task(order, t.product, db.products[t.product].sku, db.products[t.product].bin.value,
                              sectionOf(db.products[t.product].bin.value), destination, false, None, None)
                 && d.products[t.product].order == Some(order) && d.products[t.product].status == ALLOCATED
  {
    DoneMeans(db, order, destination, lines, sectionOf);
    GatheredProductsExist(db, lines);
    var taken := OrderGetsItsQuantities(db, order, destination, lines, sectionOf);
    var picks, d := Gather(db, lines).picks, AllocateOrder(db, order, destination, lines, sectionOf).db;
    forall i | |db.tasks| <= i < |d.tasks|
      ensures d.tasks[i] == TaskOf(picks[i - |db.tasks|], order, destination, sectionOf(picks[i - |db.tasks|].bin))
      ensures picks[i - |db.tasks|] in picks && d.tasks[i].product in taken
    {
      var k := i - |db.tasks|;
      assert ProductsOf(picks)[k] == picks[k].product;
    }
  }

  lemma FreeSetAfter(db: Db, order: Order, lines: seq<Line>, db': Db, taken: set<Product>, sku: Sku)
    requires Allocates(db, order, lines, db', taken)
    ensures FreeSet(db', sku) == FreeSet(db, sku) - taken
  {
  }

  // The free stock of every SKU shrinks by exactly the demand.
  lemma StockShrinksByDemand(db: Db, order: Order, lines: seq<Line>, db': Db, taken: set<Product>, sku: Sku)
    requires WellOrdered(db) && WellOrdered(db') && Allocates(db, order, lines, db', taken)
    ensures |FreeOf(db', sku)| == |FreeOf(db, sku)| - Demand(lines, sku)
  {
    FreeCount(db, sku);
    FreeCount(db', sku);
    FreeSetAfter(db, order, lines, db', taken, sku);
    assert FreeSet(db, sku) == FreeSet(db', sku) + FreeSet(db, sku) * taken;
  }

  lemma StaysWellOrdered(db: Db, order: Order, lines: seq<Line>, db': Db, taken: set<Product>)
    requires WellOrdered(db) && Allocates(db, order, lines, db', taken)
    ensures WellOrdered(db')
  {
  }
}
