// The allocator as it runs: one transaction, a shortage cache and a section cache, rows updated step
// by step (wms/internal/assembly/service.go, wms/internal/assembly/repository.go).
module AllocationService {
  import opened Basics
  import opened WarehouseTables
  import opened Allocation
  import opened AllocationResults

  // The statements on the rows. sectionOf stands for the bins table.
  // held: rows another transaction has locked.
  predicate IsNew(db: Db, o: Order, destination: Destination, held: set<Order>) {
    o in db.orders && db.orders[o].status == NEW && db.orders[o].destination == destination && o !in held
  }

  function NewOrders(db: Db, queue: seq<Order>, destination: Destination, held: set<Order>): seq<Order> {
    if queue == [] then []
    else
      var o := queue[|queue| - 1];
      NewOrders(db, queue[..|queue| - 1], destination, held) + if IsNew(db, o, destination, held) then [o] else []
  }

  lemma {:induction false} NewOrdersPrefix(db: Db, queue: seq<Order>, i: nat, destination: Destination, held: set<Order>)
    requires i <= |queue|
    ensures NewOrders(db, queue[..i], destination, held) <= NewOrders(db, queue, destination, held)
    decreases |queue| - i
  {
    if i < |queue| {
      NewOrdersPrefix(db, queue, i + 1, destination, held);
      assert queue[..i + 1][..i] == queue[..i];
    } else {
      assert queue[..i] == queue;
    }
  }

  lemma {:induction false} NewOrdersMembers(db: Db, queue: seq<Order>, destination: Destination, held: set<Order>)
    requires Distinct(queue)
    ensures Distinct(NewOrders(db, queue, destination, held))
    ensures forall o :: o in NewOrders(db, queue, destination, held) <==> o in queue && IsNew(db, o, destination, held)
    decreases |queue|
  {
    if queue != [] {
      var front, last := queue[..|queue| - 1], queue[|queue| - 1];
      NewOrdersMembers(db, front, destination, held);
      assert queue == front + [last] && last !in front;
    }
  }

  lemma {:induction false} NewInOrder(db: Db, queue: seq<Order>, destination: Destination, held: set<Order>, i: nat, j: nat)
    requires i < j < |NewOrders(db, queue, destination, held)|
    ensures Precedes(queue, NewOrders(db, queue, destination, held)[i], NewOrders(db, queue, destination, held)[j])
    decreases |queue|
  {
    var front, found := queue[..|queue| - 1], NewOrders(db, queue[..|queue| - 1], destination, held);
    if j < |found| {
      NewInOrder(db, front, destination, held, i, j);
      var a, b :| 0 <= a < b < |front| && front[a] == found[i] && front[b] == found[j];
      assert queue[a] == found[i] && queue[b] == found[j];
    } else {
      NewAreQueued(db, front, destination, held);
      assert found[i] in found;
      var a :| 0 <= a < |front| && front[a] == found[i];
      assert queue[a] == found[i] && queue[|queue| - 1] == NewOrders(db, queue, destination, held)[j];
    }
  }

  lemma {:induction false} NewAreQueued(db: Db, queue: seq<Order>, destination: Destination, held: set<Order>)
    ensures forall o :: o in NewOrders(db, queue, destination, held) ==> o in queue
    decreases |queue|
  {
    if queue != [] {
      NewAreQueued(db, queue[..|queue| - 1], destination, held);
    }
  }

  // The oldest limit NEW orders of the shop that nobody holds, oldest first: any other one came later.
  ghost predicate OldestNew(db: Db, orders: seq<Order>, destination: Destination, held: set<Order>, limit: nat) {
    && |orders| <= limit && Distinct(orders)
    && (forall o :: o in orders ==> o in db.orders && db.orders[o].status == NEW && db.orders[o].destination == destination && o !in held)
    && (forall i, j :: 0 <= i < j < |orders| ==> Precedes(db.queue, orders[i], orders[j]))
    && (forall x :: x in db.orders && db.orders[x].status == NEW && db.orders[x].destination == destination && x !in held && x !in orders ==>
          |orders| == limit && forall o :: o in orders ==> Precedes(db.queue, o, x))
  }

  lemma PrefixIsOldest(db: Db, orders: seq<Order>, destination: Destination, held: set<Order>, limit: nat)
    requires WellOrdered(db)
    requires var all := NewOrders(db, db.queue, destination, held); orders == if |all| < limit then all else all[..limit]
    ensures OldestNew(db, orders, destination, held, limit)
  {
    var all := NewOrders(db, db.queue, destination, held);
    NewOrdersMembers(db, db.queue, destination, held);
    forall i, j | 0 <= i < j < |all|
      ensures Precedes(db.queue, all[i], all[j])
    {
      NewInOrder(db, db.queue, destination, held, i, j);
    }
    forall x | x in db.orders && IsNew(db, x, destination, held) && x !in orders
      ensures |orders| == limit && forall o :: o in orders ==> Precedes(db.queue, o, x)
    {
      assert x in all;
      var j :| 0 <= j < |all| && all[j] == x;
      assert orders <= all;
    }
  }

  class Repository {
    var db: Db
    const sectionOf: Bin -> Section

    constructor (rows: Db, sections: Bin -> Section)
      ensures db == rows && sectionOf == sections
    {
      db := rows;
      sectionOf := sections;
    }

    // ORDER BY created_at LIMIT limit, SKIP LOCKED: the oldest NEW orders of the shop nobody else holds.
    method GetOrdersByDestinationForUpdate(destination: Destination, limit: nat, held: set<Order>) returns (orders: seq<Order>)
      requires WellOrdered(db)
      ensures var all := NewOrders(db, db.queue, destination, held); orders == if |all| < limit then all else all[..limit]
      ensures OldestNew(db, orders, destination, held, limit)
    {
      orders := [];
      var i := 0;
      while i < |db.queue| && |orders| < limit
        invariant 0 <= i <= |db.queue| && |orders| <= limit && orders == NewOrders(db, db.queue[..i], destination, held)
      {
        var o := db.queue[i];
        assert db.queue[..i + 1] == db.queue[..i] + [o];
        if IsNew(db, o, destination, held) {
          orders := orders + [o];
        }
        i := i + 1;
      }
      assert i == |db.queue| ==> db.queue[..i] == db.queue;
      NewOrdersPrefix(db, db.queue, i, destination, held);
      PrefixIsOldest(db, orders, destination, held, limit);
    }

    method GetAllocateProductsForSKU(sku: Sku, limit: nat) returns (found: seq<Product>)
      ensures found == Query(db, sku, limit)
    {
      found := Query(db, sku, limit);
    }

    // ok is false when the guard leaves no row to update.
    method UpdateProductAllocated(product: Product, order: Order) returns (ok: bool)
      modifies this
      ensures ok <==> product in old(db).products && old(db).products[product].status == STORED
      ensures db == if ok then Assigned(old(db), product, order) else old(db)
    {
      ok := product in db.products && db.products[product].status == STORED;
      if ok {
        db := db.(products := db.products[product := db.products[product].(status := ALLOCATED, order := Some(order))]);
      }
    }

    method GetBinSectionByID(bin: Bin) returns (section: Section)
      ensures section == sectionOf(bin)
    {
      section := sectionOf(bin);
    }

    method BatchInsertAssemblyTasks(tasks: seq<Task>)
      modifies this
      ensures db == old(db).(tasks := old(db).tasks + tasks)
    {
      db := db.(tasks := db.tasks + tasks);
    }

    method UpdateOrderStatus(order: Order) returns (ok: bool)
      modifies this
      ensures ok <==> order in old(db).orders && old(db).orders[order].status == NEW
      ensures db == if ok then Settled(old(db), order) else old(db)
    {
      ok := order in db.orders && db.orders[order].status == NEW;
      if ok {
        db := db.(orders := db.orders[order := db.orders[order].(status := ORDER_ALLOCATED)]);
      }
    }
  }

  class AllocateCache {
    var short: map<Sku, nat>
    var sections: map<Bin, Section>

    constructor ()
      ensures short == map[] && sections == map[]
    {
      short, sections := map[], map[];
    }
  }

  // A cached shortage is the current free stock; a cached section the bin's own.
  ghost predicate CacheAgrees(short: map<Sku, nat>, sections: map<Bin, Section>, db: Db, sectionOf: Bin -> Section) {
    && (forall sku :: sku in short ==> short[sku] == |FreeOf(db, sku)|)
    && (forall b :: b in sections ==> sections[b] == sectionOf(b))
  }

  datatype OrderResult = AllocatedCount(count: nat) | Insufficiency(missing: seq<Missing>) | OrderError(error: Error)

  ghost predicate Reports(r: OrderResult, reference: Outcome) {
    match reference
    case Done(_, count) => r == AllocatedCount(count)
    case Short(missing) => r == Insufficiency(missing)
    case Failed(error) => r == OrderError(error)
  }

  class Service {
    method PicksWithBins(repo: Repository, products: seq<Product>, sku: Sku) returns (picks: seq<Pick>, ok: bool)
      requires forall p :: p in products ==> p in repo.db.products
      ensures ok <==> forall p :: p in products ==> repo.db.products[p].bin.Some?
      ensures ok ==> picks == PicksOf(repo.db, products, sku)
    {
      picks := [];
      var j := 0;
      while j < |products|
        invariant 0 <= j <= |products| && |picks| == j
        invariant forall n :: 0 <= n < j ==> repo.db.products[products[n]].bin.Some?
                                             && picks[n] == Pick(products[n], repo.db.products[products[n]].bin.value, sku)
      {
        var p := products[j];
        if repo.db.products[p].bin == None {
          return picks, false;
        }
        picks := picks + [Pick(p, repo.db.products[p].bin.value, sku)];
        j := j + 1;
      }
      ok := true;
    }

    // One line: a SKU known to be short is not asked for again.
    method GatherNext(repo: Repository, cache: AllocateCache, g: Gathered, line: Line) returns (next: Gathered)
      requires g.Picks? && CacheAgrees(cache.short, cache.sections, repo.db, repo.sectionOf)
      modifies cache
      ensures next == GatherLine(repo.db, g, line)
      ensures CacheAgrees(cache.short, cache.sections, repo.db, repo.sectionOf)
    {
      if line.sku in cache.short && line.qty > cache.short[line.sku] {
        return Picks(g.picks, g.missing + [Missing(line.sku, line.qty - cache.short[line.sku])]);
      }
      var products := repo.GetAllocateProductsForSKU(line.sku, line.qty);
      if |products| < line.qty {
        cache.short := cache.short[line.sku := |products|];
        return Picks(g.picks, g.missing + [Missing(line.sku, line.qty - |products|)]);
      }
      var picks, ok := PicksWithBins(repo, products, line.sku);
      if !ok {
        return Broken(PRODUCT_WITHOUT_BIN);
      }
      next := Picks(g.picks + picks, g.missing);
    }

    // The gathering loop.
    method GatherLines(repo: Repository, cache: AllocateCache, lines: seq<Line>) returns (g: Gathered)
      requires CacheAgrees(cache.short, cache.sections, repo.db, repo.sectionOf)
      modifies cache
      ensures g == Gather(repo.db, lines)
      ensures CacheAgrees(cache.short, cache.sections, repo.db, repo.sectionOf)
    {
      var gathered: seq<Pick>, insufficient: seq<Missing> := [], [];
      var i := 0;
      while i < |lines|
        invariant 0 <= i <= |lines|
        invariant Gather(repo.db, lines[..i]) == Picks(gathered, insufficient)
        invariant CacheAgrees(cache.short, cache.sections, repo.db, repo.sectionOf)
      {
        assert lines[..i + 1][..i] == lines[..i];
        var next := GatherNext(repo, cache, Picks(gathered, insufficient), lines[i]);
        i := i + 1;
        if next.Broken? {
          GatherStaysBroken(repo.db, lines, i);
          return next;
        }
        gathered, insufficient := next.picks, next.missing;
      }
      assert lines[..i] == lines;
      g := Picks(gathered, insufficient);
    }

    method SectionOf(repo: Repository, cache: AllocateCache, bin: Bin) returns (section: Section)
      requires forall b :: b in cache.sections ==> cache.sections[b] == repo.sectionOf(b)
      modifies cache`sections
      ensures section == repo.sectionOf(bin)
      ensures forall b :: b in cache.sections ==> cache.sections[b] == repo.sectionOf(b)
    {
      if bin in cache.sections {
        return cache.sections[bin];
      }
      section := repo.GetBinSectionByID(bin);
      cache.sections := cache.sections[bin := section];
    }

    // The updates of one order, each product followed by the section of its bin. done is how far they got.
    method AssignProducts(repo: Repository, cache: AllocateCache, picks: seq<Pick>, order: Order, destination: Destination)
      returns (tasks: seq<Task>, ok: bool)
      requires forall p :: p in ProductsOf(picks) ==> p in repo.db.products
      requires forall b :: b in cache.sections ==> cache.sections[b] == repo.sectionOf(b)
      modifies repo, cache`sections
      ensures forall b :: b in cache.sections ==> cache.sections[b] == repo.sectionOf(b)
      ensures var reference := AssignAll(old(repo.db), ProductsOf(picks), order);
              if ok then reference == Some(repo.db) && tasks == TasksOf(picks, order, destination, repo.sectionOf) else reference == None
    {
      tasks := [];
      var i := 0;
      while i < |picks|
        invariant 0 <= i <= |picks| && |tasks| == i
        invariant AssignAll(old(repo.db), ProductsOf(picks[..i]), order) == Some(repo.db)
        invariant forall n :: 0 <= n < i ==> tasks[n] == TaskOf(picks[n], order, destination, repo.sectionOf(picks[n].bin))
        invariant forall b :: b in cache.sections ==> cache.sections[b] == repo.sectionOf(b)
      {
        var k := picks[i];
        assert ProductsOf(picks[..i + 1])[..i] == ProductsOf(picks[..i]);
        assert ProductsOf(picks)[i] == k.product;
        AssignPrefix(old(repo.db), ProductsOf(picks), order, i + 1);
        assert ProductsOf(picks)[..i + 1] == ProductsOf(picks[..i + 1]);
        var updated := repo.UpdateProductAllocated(k.product, order);
        if !updated {
          return tasks, false;
        }
        var section := SectionOf(repo, cache, k.bin);
        tasks := tasks + [TaskOf(k, order, destination, section)];
        i := i + 1;
      }
      assert picks[..i] == picks;
      assert tasks == TasksOf(picks, order, destination, repo.sectionOf);
      ok := true;
    }

    // The stock the earlier shortages were measured against has shrunk.
    method SpendFromCache(cache: AllocateCache, lines: seq<Line>, ghost free: map<Sku, nat>)
      requires forall sku :: sku in cache.short ==> sku in free && free[sku] == cache.short[sku] && Demand(lines, sku) <= free[sku]
      modifies cache`short
      ensures cache.short.Keys == old(cache.short).Keys
      ensures forall sku :: sku in cache.short ==> cache.short[sku] == free[sku] - Demand(lines, sku)
    {
      var i := 0;
      while i < |lines|
        invariant 0 <= i <= |lines| && cache.short.Keys == old(cache.short).Keys
        invariant forall sku :: sku in cache.short ==> cache.short[sku] == free[sku] - Demand(lines[..i], sku)
      {
        var line := lines[i];
        assert lines[..i + 1][..i] == lines[..i];
        if line.sku in cache.short {
          DemandOfPrefix(lines, i + 1, line.sku);
          var avail := cache.short[line.sku] - line.qty;
          if avail < 0 {
            avail := 0;
          }
          cache.short := cache.short[line.sku := avail];
        }
        i := i + 1;
      }
      assert lines[..i] == lines;
    }

    method AllocateOrderTx(repo: Repository, cache: AllocateCache, order: Order, destination: Destination, lines: seq<Line>)
      returns (r: OrderResult)
      requires WellOrdered(repo.db) && CacheAgrees(cache.short, cache.sections, repo.db, repo.sectionOf)
      modifies repo, cache
      ensures var reference := AllocateOrder(old(repo.db), order, destination, lines, repo.sectionOf);
              && Reports(r, reference)
              && (reference.Done? ==> repo.db == reference.db)
              && (reference.Short? ==> repo.db == old(repo.db))
      ensures !r.OrderError? ==> WellOrdered(repo.db) && CacheAgrees(cache.short, cache.sections, repo.db, repo.sectionOf)
    {
      ghost var before := repo.db;
      var g := GatherLines(repo, cache, lines);
      if g.Broken? {
        return OrderError(g.error);
      }
      GatheredProductsExist(before, lines);
      if g.missing != [] {
        return Insufficiency(g.missing);
      }
      var tasks, ok := AssignProducts(repo, cache, g.picks, order, destination);
      if !ok {
        return OrderError(PRODUCT_NOT_STORED);
      }
      repo.BatchInsertAssemblyTasks(tasks);
      ok := repo.UpdateOrderStatus(order);
      if !ok {
        return OrderError(ORDER_NOT_NEW);
      }
      ghost var free := FreeNow(before, lines, repo.db, order, destination, repo.sectionOf, cache.short);
      SpendFromCache(cache, lines, free);
      r := AllocatedCount(|g.picks|);
    }

    // One order as a step of the batch.
    method AllocateNext(repo: Repository, cache: AllocateCache, o: Order, destination: Destination, lines: seq<Line>, ghost g: Batch)
      returns (result: OrderResult)
      requires g.Going? && g.db == repo.db && lines == LinesOf(repo.db, o)
      requires WellOrdered(repo.db) && CacheAgrees(cache.short, cache.sections, repo.db, repo.sectionOf)
      modifies repo, cache
      ensures match result
              case OrderError(e) => BatchStep(g, o, destination, repo.sectionOf) == Aborted(e)
              case Insufficiency(missing) =>
                BatchStep(g, o, destination, repo.sectionOf) == Going(repo.db, g.orders, g.products, g.insufficient + [Insufficient(o, missing)])
              case AllocatedCount(count) =>
                BatchStep(g, o, destination, repo.sectionOf) == Going(repo.db, g.orders + 1, g.products + count, g.insufficient)
      ensures !result.OrderError? ==>
                && WellOrdered(repo.db) && CacheAgrees(cache.short, cache.sections, repo.db, repo.sectionOf)
                && SameLines(repo.db, old(repo.db))
    {
      ghost var before := repo.db;
      result := AllocateOrderTx(repo, cache, o, destination, lines);
      LinesStay(before, o, destination, repo.sectionOf);
    }

    // The order at i of the queue, with the counters of the orders before it.
    method AllocateAt(repo: Repository, cache: AllocateCache, begun: Db, queue: seq<Order>, i: nat, destination: Destination,
                      orders: nat, products: nat, insufficient: seq<Insufficient>)
      returns (error: Option<Error>, orders': nat, products': nat, insufficient': seq<Insufficient>)
      requires i < |queue| && WellOrdered(repo.db) && CacheAgrees(cache.short, cache.sections, repo.db, repo.sectionOf) && SameLines(repo.db, begun)
      requires SoFar(begun, queue, i, destination, repo.sectionOf, Going(repo.db, orders, products, insufficient))
      modifies repo, cache
      ensures error.Some? ==> AllocateAll(begun, queue, destination, repo.sectionOf) == Aborted(error.value)
      ensures error == None ==>
                && SoFar(begun, queue, i + 1, destination, repo.sectionOf, Going(repo.db, orders', products', insufficient'))
                && WellOrdered(repo.db) && CacheAgrees(cache.short, cache.sections, repo.db, repo.sectionOf) && SameLines(repo.db, begun)
    {
      ghost var before := repo.db;
      error, orders', products', insufficient' := None, orders, products, insufficient;
      AllocateAllSnoc(begun, queue, i, destination, repo.sectionOf);
      var result := AllocateNext(repo, cache, queue[i], destination, LinesOf(begun, queue[i]), Going(repo.db, orders, products, insufficient));
      match result {
        case OrderError(e) => error := Some(e);
        case Insufficiency(missing) => insufficient' := insufficient + [Insufficient(queue[i], missing)];
        case AllocatedCount(count) => orders', products' := orders + 1, products + count;
      }
      if error == None {
        SameLinesChain(repo.db, before, begun);
      }
    }

    // Order after order, with one cache.
    method ServeQueue(repo: Repository, cache: AllocateCache, begun: Db, queue: seq<Order>, destination: Destination) returns (r: Response)
      requires WellOrdered(repo.db) && repo.db == begun && CacheAgrees(cache.short, cache.sections, repo.db, repo.sectionOf)
      requires SoFar(begun, queue, 0, destination, repo.sectionOf, Going(begun, 0, 0, []))
      modifies repo, cache
      ensures if r.Refused? then AllocateAll(begun, queue, destination, repo.sectionOf) == Aborted(r.error)
              else SoFar(begun, queue, |queue|, destination, repo.sectionOf, Going(repo.db, r.orders, r.products, r.insufficient))
    {
      var orders: nat, products: nat, insufficient: seq<Insufficient> := 0, 0, [];
      var i := 0;
      while i < |queue|
        invariant 0 <= i <= |queue| && WellOrdered(repo.db)
        invariant SoFar(begun, queue, i, destination, repo.sectionOf, Going(repo.db, orders, products, insufficient))
        invariant CacheAgrees(cache.short, cache.sections, repo.db, repo.sectionOf)
        invariant SameLines(repo.db, begun)
      {
        var error;
        error, orders, products, insufficient := AllocateAt(repo, cache, begun, queue, i, destination, orders, products, insufficient);
        if error.Some? {
          return Refused(error.value);
        }
        i := i + 1;
      }
      r := Allocated(orders, products, insufficient);
    }

    method AllocateQueue(repo: Repository, queue: seq<Order>, destination: Destination) returns (r: Response)
      requires WellOrdered(repo.db)
      modifies repo
      ensures match AllocateAll(old(repo.db), queue, destination, repo.sectionOf)
              case Going(db, n, m, insufficient) => repo.db == db && r == Allocated(n, m, insufficient)
              case Aborted(error) => r == Refused(error)
    {
      var begun := repo.db;
      var cache := new AllocateCache();
      NothingYet(begun, queue, destination, repo.sectionOf);
      r := ServeQueue(repo, cache, begun, queue, destination);
      if r.Allocated? {
        WholeQueue(begun, queue, destination, repo.sectionOf, Going(repo.db, r.orders, r.products, r.insufficient));
      }
    }

    // One transaction over at most BATCH_LIMIT orders: the rows and the answer are those of the
    // allocator that asks the table every time, and an error leaves every row as it was.
    method Allocate(repo: Repository, destination: Destination, held: set<Order>) returns (r: Response, ghost orders: seq<Order>)
      requires WellOrdered(repo.db)
      modifies repo
      ensures destination != NO_DESTINATION ==> OldestNew(old(repo.db), orders, destination, held, 500)
      ensures destination == NO_DESTINATION ==> r == Refused(INVALID_INPUT) && repo.db == old(repo.db) && orders == []
      ensures destination != NO_DESTINATION ==>
                match AllocateAll(old(repo.db), orders, destination, repo.sectionOf)
                case Going(db, n, m, insufficient) => repo.db == db && r == Allocated(n, m, insufficient)
                case Aborted(error) => repo.db == old(repo.db) && r == Refused(error)
    {
      orders := [];
      if destination == NO_DESTINATION {
        return Refused(INVALID_INPUT), [];
      }
      var begun := repo.db;
      var queue := repo.GetOrdersByDestinationForUpdate(destination, BATCH_LIMIT, held);
      orders := queue;
      r := AllocateQueue(repo, queue, destination);
      if r.Refused? {
        repo.db := begun;
      }
    }
  }

  // uuid.Nil
  const NO_DESTINATION: Destination := 0

  datatype Response = Allocated(orders: nat, products: nat, insufficient: seq<Insufficient>) | Refused(error: Error)

  ghost predicate SameLines(d: Db, db: Db) {
    forall o :: LinesOf(d, o) == LinesOf(db, o)
  }

  // What the first i orders of the queue come to.
  ghost predicate SoFar(begun: Db, queue: seq<Order>, i: int, destination: Destination, sectionOf: Bin -> Section, g: Batch) {
    0 <= i <= |queue| && AllocateAll(begun, queue[..i], destination, sectionOf) == g
  }

  lemma NothingYet(begun: Db, queue: seq<Order>, destination: Destination, sectionOf: Bin -> Section)
    ensures SoFar(begun, queue, 0, destination, sectionOf, Going(begun, 0, 0, []))
  {
  }

  lemma WholeQueue(begun: Db, queue: seq<Order>, destination: Destination, sectionOf: Bin -> Section, g: Batch)
    requires SoFar(begun, queue, |queue|, destination, sectionOf, g)
    ensures AllocateAll(begun, queue, destination, sectionOf) == g
  {
    assert queue[..|queue|] == queue;
  }

  lemma SameLinesChain(c: Db, b: Db, a: Db)
    requires SameLines(c, b) && SameLines(b, a)
    ensures SameLines(c, a)
  {
  }

  lemma LinesStay(db: Db, order: Order, destination: Destination, sectionOf: Bin -> Section)
    ensures var r := AllocateOrder(db, order, destination, LinesOf(db, order), sectionOf);
            r.Done? ==> forall o :: LinesOf(r.db, o) == LinesOf(db, o)
  {
    if AllocateOrder(db, order, destination, LinesOf(db, order), sectionOf).Done? {
      var taken := OrderGetsItsQuantities(db, order, destination, LinesOf(db, order), sectionOf);
    }
  }

  lemma AllocateAllSnoc(db: Db, queue: seq<Order>, i: nat, destination: Destination, sectionOf: Bin -> Section)
    requires i < |queue| && AllocateAll(db, queue[..i], destination, sectionOf).Going?
    ensures var next := BatchStep(AllocateAll(db, queue[..i], destination, sectionOf), queue[i], destination, sectionOf);
            && AllocateAll(db, queue[..i + 1], destination, sectionOf) == next
            && (next.Aborted? ==> AllocateAll(db, queue, destination, sectionOf) == next)
  {
    assert queue[..i + 1][..i] == queue[..i];
    if AllocateAll(db, queue[..i + 1], destination, sectionOf).Aborted? {
      AbortsForGood(db, queue, i + 1, destination, sectionOf);
    }
  }

  lemma {:induction false} AbortsForGood(db: Db, queue: seq<Order>, i: nat, destination: Destination, sectionOf: Bin -> Section)
    requires i <= |queue| && AllocateAll(db, queue[..i], destination, sectionOf).Aborted?
    ensures AllocateAll(db, queue, destination, sectionOf) == AllocateAll(db, queue[..i], destination, sectionOf)
    decreases |queue|
  {
    if i < |queue| {
      assert queue[..|queue| - 1][..i] == queue[..i];
      AbortsForGood(db, queue[..|queue| - 1], i, destination, sectionOf);
    } else {
      assert queue[..i] == queue;
    }
  }

  lemma {:induction false} DemandOfPrefix(lines: seq<Line>, i: nat, sku: Sku)
    requires 0 < i <= |lines|
    ensures Demand(lines[..i], sku) <= Demand(lines, sku)
    ensures Demand(lines[..i], sku) == Demand(lines[..i - 1], sku) + if lines[i - 1].sku == sku then lines[i - 1].qty else 0
    decreases |lines|
  {
    assert lines[..i][..i - 1] == lines[..i - 1];
    if i < |lines| {
      var front := lines[..|lines| - 1];
      assert front[..i] == lines[..i];
      DemandOfPrefix(front, i, sku);
    } else {
      assert lines[..i] == lines;
    }
  }

  // Free stock of the cached SKUs before the order, and how much of it is left after.
  lemma FreeNow(before: Db, lines: seq<Line>, after: Db, order: Order, destination: Destination, sectionOf: Bin -> Section, short: map<Sku, nat>)
    returns (free: map<Sku, nat>)
    requires WellOrdered(before) && AllocateOrder(before, order, destination, lines, sectionOf).Done?
    requires after == AllocateOrder(before, order, destination, lines, sectionOf).db
    requires forall sku :: sku in short ==> short[sku] == |FreeOf(before, sku)|
    ensures WellOrdered(after)
    ensures free == short
    ensures forall sku :: sku in short ==> Demand(lines, sku) <= free[sku] && |FreeOf(after, sku)| == free[sku] - Demand(lines, sku)
  {
    free := short;
    var taken := OrderGetsItsQuantities(before, order, destination, lines, sectionOf);
    StaysWellOrdered(before, order, lines, after, taken);
    forall sku | sku in short
      ensures Demand(lines, sku) <= free[sku] && |FreeOf(after, sku)| == free[sku] - Demand(lines, sku)
    {
      StockShrinksByDemand(before, order, lines, after, taken, sku);
    }
  }

  // A guard that fires on a prefix fires on the whole list.
  lemma {:induction false} AssignPrefix(db: Db, ps: seq<Product>, order: Order, i: nat)
    requires i <= |ps| && forall p :: p in ps ==> p in db.products
    ensures forall p :: p in ps[..i] ==> p in db.products
    ensures AssignAll(db, ps[..i], order) == None ==> AssignAll(db, ps, order) == None
    decreases |ps|
  {
    if i < |ps| {
      assert ps[..|ps| - 1][..i] == ps[..i];
      AssignPrefix(db, ps[..|ps| - 1], order, i);
    } else {
      assert ps[..i] == ps;
    }
  }

  // An error in the middle ends the call whatever lines follow.
  lemma {:induction false} GatherStaysBroken(db: Db, lines: seq<Line>, i: nat)
    requires i <= |lines| && Gather(db, lines[..i]).Broken?
    ensures Gather(db, lines) == Gather(db, lines[..i])
    decreases |lines|
  {
    if i < |lines| {
      assert lines[..|lines| - 1][..i] == lines[..i];
      GatherStaysBroken(db, lines[..|lines| - 1], i);
    } else {
      assert lines[..i] == lines;
    }
  }
}
