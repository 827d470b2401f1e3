// The transactions as they run: staleness checks under row locks in front of unguarded bulk updates.
module ProductFlowService {
  import opened Basics
  import opened WarehouseTables
  import opened Allocation
  import opened ProductFlow
  import opened SortedLists

  datatype Answer = OK | DRAFT_STALE | CARGOPLACE_NOT_CLOSED | PRODUCT_NOT_RECEIVED | NO_TASK_FOR_PRODUCT | PRODUCT_NOT_ALLOCATED

  // The count check: as many rows found as items signed, all rows among the items.
  lemma CountCheckIff(found: set<Product>, items: seq<Product>)
    requires found <= Elems(items)
    ensures |found| == |items| <==> Distinct(items) && found == Elems(items)
  {
    DistinctCardinality(items);
    if |found| == |items| {
      SubsetOfSameSize(found, Elems(items));
    }
  }

  // A set of the same size as the basket that contains the basket is the basket.
  lemma BasketCheckIff(basket: seq<Product>, items: seq<Product>)
    requires Distinct(basket)
    ensures |basket| == |Elems(items)| && (forall p :: p in basket ==> p in items) <==> Elems(basket) == Elems(items)
  {
    DistinctCardinality(basket);
    if |basket| == |Elems(items)| && forall p :: p in basket ==> p in items {
      SubsetOfSameSize(Elems(basket), Elems(items));
    }
    if Elems(basket) == Elems(items) {
      forall p | p in basket
        ensures p in items
      {
        assert p in Elems(basket);
      }
    }
  }

  // What stands in a locked product's way, in the order in which it is looked at.
  function Obstacle(site: Site, db: Db, p: Product): (r: Answer)
    requires p in db.products
    ensures r == OK <==> Placeable(site, db, p)
    ensures r == CARGOPLACE_NOT_CLOSED <==>
              && db.products[p].status == RECEIVED && db.products[p].bin.Some? && site.isBuffer(db.products[p].bin.value) && !site.isClosed(site.cargoOf(p))
    ensures r in {OK, DRAFT_STALE, CARGOPLACE_NOT_CLOSED}
  {
    if db.products[p].bin == None || !site.isBuffer(db.products[p].bin.value) || db.products[p].status != RECEIVED then DRAFT_STALE
    else if !site.isClosed(site.cargoOf(p)) then CARGOPLACE_NOT_CLOSED
    else OK
  }

  ghost predicate IsFirstObstacle(site: Site, db: Db, ps: seq<Product>, r: Answer) {
    exists i :: 0 <= i < |ps| && ps[i] in db.products && r == Obstacle(site, db, ps[i]) != OK
                && forall j :: 0 <= j < i ==> Placeable(site, db, ps[j])
  }

  function ById(p: Product): nat {
    p
  }

  lemma SortedIds(items: seq<Product>)
    ensures var sorted := SortBy(items, ById);
            && AscendingBy(sorted, ById) && Elems(sorted) == Elems(items) && (Distinct(sorted) <==> Distinct(items))
            && forall p :: p in sorted <==> p in items
  {
    var sorted := SortBy(items, ById);
    SortBySorts(items, ById);
    SameMembers(sorted, items);
    DistinctCardinality(sorted);
    DistinctCardinality(items);
  }

  // The orders among these that end up shipped in full, or in part.
  function Finished(db: Db, orders: seq<Order>, complete: bool): set<Order> {
    set o | o in orders && Advances(db, o) && AllShipped(db, o) == complete
  }

  // A row of which nothing but the status may have changed.
  predicate OnlyStatus(was: OrderRow, row: OrderRow) {
    row == was.(status := row.status)
  }

  ghost predicate EveryProduct(db: Db, o: Order, status: ProductStatus) {
    forall p :: p in db.products && db.products[p].order == Some(o) ==> db.products[p].status == status
  }

  ghost predicate NoProduct(db: Db, o: Order, status: ProductStatus) {
    forall p :: p in db.products && db.products[p].order == Some(o) ==> db.products[p].status != status
  }

  // The candidates of the first statement of UpdateOrdersShippedConditional.
  predicate Undecided(status: OrderStatus) {
    status in {ORDER_ALLOCATED, ORDER_ASSEMBLED, PARTIALLY_SHIPPED}
  }

  // Receiving: the cargoplace's sorted content against the signed items, place by place.
  method CompositionIsStale(sortedProducts: seq<Product>, items: seq<Product>) returns (stale: bool)
    ensures stale <==> sortedProducts != items
  {
    stale := |sortedProducts| != |items|;
    var i := 0;
    while !stale && i < |items|
      invariant 0 <= i <= |items|
      invariant !stale ==> |sortedProducts| == |items| && sortedProducts[..i] == items[..i]
      invariant stale ==> sortedProducts != items
    {
      stale := sortedProducts[i] != items[i];
      i := i + 1;
    }
  }

  class Transactions {
    var db: Db
    const site: Site

    constructor (rows: Db, place: Site)
      ensures db == rows && site == place
    {
      db, site := rows, place;
    }

    // -------------------------------------------------------------------------- placing

    method GetProductsByIDForUpdate(sorted: seq<Product>) returns (ok: bool)
      ensures ok <==> forall p :: p in sorted ==> p in db.products
    {
      var i := 0;
      while i < |sorted|
        invariant 0 <= i <= |sorted| && forall j :: 0 <= j < i ==> sorted[j] in db.products
      {
        if sorted[i] !in db.products {
          return false;
        }
        i := i + 1;
      }
      ok := true;
    }

    // What keeps the locked products from being placed, if anything. Bins and cargoplaces that passed
    // once are not looked up again.
    method CheckPlaceable(locked: seq<Product>) returns (r: Answer)
      requires forall p :: p in locked ==> p in db.products
      ensures r == OK <==> forall p :: p in locked ==> Placeable(site, db, p)
      ensures r != OK ==> IsFirstObstacle(site, db, locked, r)
    {
      var verifiedBuffers: set<Bin>, checkedCargoplaces: set<Cargo> := {}, {};
      var i := 0;
      while i < |locked|
        invariant 0 <= i <= |locked| && forall j :: 0 <= j < i ==> Obstacle(site, db, locked[j]) == OK
        invariant (forall b :: b in verifiedBuffers ==> site.isBuffer(b)) && forall c :: c in checkedCargoplaces ==> site.isClosed(c)
      {
        var row, cargo := db.products[locked[i]], site.cargoOf(locked[i]);
        assert locked[i] in locked;
        if row.bin == None {
          return DRAFT_STALE;
        }
        if row.bin.value !in verifiedBuffers {
          if !site.isBuffer(row.bin.value) {
            return DRAFT_STALE;
          }
          verifiedBuffers := verifiedBuffers + {row.bin.value};
        }
        if row.status != RECEIVED {
          return DRAFT_STALE;
        }
        if cargo !in checkedCargoplaces {
          if !site.isClosed(cargo) {
            return CARGOPLACE_NOT_CLOSED;
          }
          checkedCargoplaces := checkedCargoplaces + {cargo};
        }
        i := i + 1;
      }
      r := OK;
    }

    method UpdateProductStorage(product: Product, bin: Bin) returns (ok: bool)
      modifies `db
      ensures ok <==> product in old(db).products && old(db).products[product].status == RECEIVED
      ensures db == if ok then BulkMoved(old(db), {product}, STORED, Some(bin)) else old(db)
    {
      ok := product in db.products && db.products[product].status == RECEIVED;
      if ok {
        db := BulkMoved(db, {product}, STORED, Some(bin));
      }
    }

    // The guarded updates, one by one; a product that occurs twice is no longer RECEIVED the second time.
    method PlaceEach(items: seq<Product>, storageBin: Bin) returns (ok: bool)
      requires forall p :: p in items ==> p in db.products && db.products[p].status == RECEIVED
      modifies `db
      ensures ok <==> Distinct(items)
      ensures ok ==> db == BulkMoved(old(db), Elems(items), STORED, Some(storageBin))
    {
      ghost var begun := db;
      var i := 0;
      while i < |items|
        invariant 0 <= i <= |items| && Distinct(items[..i])
        invariant db == BulkMoved(begun, Elems(items[..i]), STORED, Some(storageBin))
      {
        ghost var prior := db;
        assert items[..i + 1] == items[..i] + [items[i]];
        assert items[i] in items;
        assert prior.products[items[i]].status == RECEIVED <==> items[i] !in items[..i];
        ok := UpdateProductStorage(items[i], storageBin);
        if !ok {
          assert exists j :: 0 <= j < i && items[j] == items[i];
          return;
        }
        assert Elems(items[..i + 1]) == Elems(items[..i]) + {items[i]};
        i := i + 1;
      }
      assert items[..i] == items;
      ok := true;
    }

    // The products are locked in the order of their ids, checked, and only then moved.
    method SubmitPlaceToStorageBin(items: seq<Product>, storageBin: Bin) returns (r: Answer)
      modifies `db
      ensures r == OK <==> PlaceOk(site, old(db), items)
      ensures db == Perform(site, old(db), PlaceItems(items, storageBin))
      ensures r == PRODUCT_NOT_RECEIVED <==> !Distinct(items) && forall p :: p in items ==> Placeable(site, old(db), p)
      ensures r in {DRAFT_STALE, CARGOPLACE_NOT_CLOSED} ==>
                if forall p :: p in items ==> p in old(db).products then IsFirstObstacle(site, old(db), SortBy(items, ById), r) else r == DRAFT_STALE
      ensures r in {OK, DRAFT_STALE, CARGOPLACE_NOT_CLOSED, PRODUCT_NOT_RECEIVED}
    {
      var begun := db;
      var sorted := SortBy(items, ById);
      SortedIds(items);
      var found := GetProductsByIDForUpdate(sorted);
      if !found {
        return DRAFT_STALE;
      }
      r := CheckPlaceable(sorted);
      if r != OK {
        return;
      }
      var ok := PlaceEach(sorted, storageBin);
      if !ok {
        db := begun;
        r := PRODUCT_NOT_RECEIVED;
      }
    }

    // -------------------------------------------------------------------------- picking

    method Pick(operator: Operator, product: Product) returns (r: Answer)
      requires TasksMatch(db)
      modifies `db
      ensures r == OK <==> PickOk(old(db), product)
      ensures r == NO_TASK_FOR_PRODUCT <==> !exists i :: PendingFor(old(db), i, product)
      ensures r in {OK, NO_TASK_FOR_PRODUCT, PRODUCT_NOT_ALLOCATED}
      ensures db == Perform(site, old(db), PickItem(operator, product))
    {
      var i := 0;
      while i < |db.tasks| && !PendingFor(db, i, product)
        invariant 0 <= i <= |db.tasks| && db == old(db)
        invariant forall j :: 0 <= j < i ==> !PendingFor(db, j, product)
      {
        i := i + 1;
      }
      if i == |db.tasks| {
        return NO_TASK_FOR_PRODUCT;
      }
      if product !in db.products || db.products[product].status != ALLOCATED {
        return PRODUCT_NOT_ALLOCATED;
      }
      assert forall j :: PendingFor(db, j, product) <==> j == i;
      var done := db.tasks[i].(done := true, operator := Some(operator));
      db := BulkMoved(db, {product}, ASSEMBLED, None).(tasks := db.tasks[i := done]);
      assert db.tasks == Picked(old(db), product, operator).tasks;
      r := OK;
    }

    // ------------------------------------------------------------------------ unloading

    // The join yields a row per task; duplicates of a product are dropped as they come.
    method OperatorBasket(operator: Operator, destination: Destination) returns (basket: seq<Product>)
      ensures Distinct(basket) && Elems(basket) == Basket(db, operator, destination)
    {
      basket := [];
      var seen: set<Product> := {};
      var i := 0;
      while i < |db.tasks|
        invariant 0 <= i <= |db.tasks| && Distinct(basket) && Elems(basket) == seen
        invariant seen == set j | 0 <= j < i && InBasket(db, db.tasks[j], operator, destination) :: db.tasks[j].product
      {
        var t := db.tasks[i];
        ghost var before := seen;
        if InBasket(db, t, operator, destination) && t.product !in seen {
          assert t.product !in basket;
          seen := seen + {t.product};
          basket := basket + [t.product];
        }
        i := i + 1;
      }
    }

    method StampTaskUnload(part: Part, operator: Operator, destination: Destination)
      modifies `db
      ensures |db.tasks| == |old(db).tasks| && db == old(db).(tasks := db.tasks)
      ensures forall i :: 0 <= i < |db.tasks| ==>
                var t := old(db).tasks[i];
                db.tasks[i] == if Stamps(t, part.items, operator, destination) then t.(action := Some(part.action)) else t
    {
      var tasks := db.tasks;
      db := db.(tasks := seq(|tasks|, i requires 0 <= i < |tasks| =>
        if Stamps(tasks[i], part.items, operator, destination) then tasks[i].(action := Some(part.action)) else tasks[i]));
    }

    method SubmitUnloadToShippingBuffer(operator: Operator, destination: Destination, parts: seq<Part>, bufferBin: Bin) returns (r: Answer)
      modifies `db
      ensures r == (if UnloadOk(old(db), operator, destination, parts) then OK else DRAFT_STALE)
      ensures db == Perform(site, old(db), UnloadBasket(operator, destination, parts, bufferBin))
    {
      var items := ItemsOf(parts);
      var basket := OperatorBasket(operator, destination);
      BasketCheckIff(basket, items);
      var signedItems := Elems(items);
      if |basket| != |signedItems| {
        return DRAFT_STALE;
      }
      var i := 0;
      while i < |basket|
        invariant 0 <= i <= |basket| && forall j :: 0 <= j < i ==> basket[j] in signedItems
      {
        if basket[i] !in signedItems {
          return DRAFT_STALE;
        }
        i := i + 1;
      }
      var orderIDs := DistinctOrders(basket);
      db := BulkMoved(db, signedItems, READY_TO_SHIP, Some(bufferBin));
      StampParts(parts, operator, destination);
      var promoted := UpdateOrdersToAssembled(orderIDs);
      r := OK;
    }

    // One statement: of the named orders, those ALLOCATED with every product in the shipping buffer become
    // ASSEMBLED; their number is returned.
    method UpdateOrdersToAssembled(orderIDs: seq<Order>) returns (n: nat)
      modifies `db
      ensures db == Promoted(old(db), Elems(orderIDs))
      ensures forall o :: o in old(db).orders ==> o in db.orders && OnlyStatus(old(db).orders[o], db.orders[o])
      ensures forall o :: o in old(db).orders ==>
                (db.orders[o].status == ORDER_ASSEMBLED <==>
                 || old(db).orders[o].status == ORDER_ASSEMBLED
                 || (o in orderIDs && old(db).orders[o].status == ORDER_ALLOCATED && EveryProduct(old(db), o, READY_TO_SHIP)))
      ensures forall o :: o in old(db).orders && db.orders[o].status != ORDER_ASSEMBLED ==> db.orders[o] == old(db).orders[o]
      ensures n == |set o | o in db.orders && db.orders[o] != old(db).orders[o]|
    {
      if |orderIDs| == 0 {
        assert Promoted(db, {}).orders == db.orders;
        assert (set o | o in db.orders && db.orders[o] != db.orders[o]) == {};
        return 0;
      }
      var affected := set o | o in orderIDs && o in db.orders && db.orders[o].status == ORDER_ALLOCATED && AllReady(db, o);
      ghost var before := db;
      db := db.(orders := map o | o in db.orders :: if o in affected then db.orders[o].(status := ORDER_ASSEMBLED) else db.orders[o]);
      assert db.orders == Promoted(before, Elems(orderIDs)).orders;
      assert affected == set o | o in db.orders && db.orders[o] != before.orders[o];
      n := |affected|;
    }

    method StampParts(parts: seq<Part>, operator: Operator, destination: Destination)
      modifies `db
      ensures db == old(db).(tasks := AllStamped(old(db).tasks, parts, operator, destination))
    {
      ghost var before := db;
      var k := 0;
      while k < |parts|
        invariant 0 <= k <= |parts| && |db.tasks| == |before.tasks| && db == before.(tasks := db.tasks)
        invariant forall i :: 0 <= i < |db.tasks| ==> db.tasks[i] == Stamped(before.tasks[i], parts[..k], operator, destination)
      {
        assert parts[..k + 1][..k] == parts[..k];
        StampTaskUnload(parts[k], operator, destination);
        k := k + 1;
      }
      assert parts[..k] == parts;
      assert db.tasks == AllStamped(before.tasks, parts, operator, destination);
    }

    // ------------------------------------------------------------------------- shipping

    method LockProductsForShip(bin: Bin, items: seq<Product>) returns (products: seq<Product>)
      requires WellOrdered(db)
      ensures Distinct(products) && Elems(products) == InBufferBin(db, bin, items)
    {
      products := [];
      var i := 0;
      while i < |db.arrival|
        invariant 0 <= i <= |db.arrival| && Distinct(products)
        invariant forall p :: p in products <==> p in db.arrival[..i] && p in InBufferBin(db, bin, items)
      {
        var p := db.arrival[i];
        assert p !in db.arrival[..i];
        assert db.arrival[..i + 1] == db.arrival[..i] + [p];
        if p in InBufferBin(db, bin, items) {
          products := products + [p];
        }
        i := i + 1;
      }
      assert db.arrival[..i] == db.arrival;
    }

    // ok is false when fewer rows were updated than ids given.
    method BatchUpdateProductsShipped(ids: seq<Product>) returns (ok: bool)
      modifies `db
      ensures db == BulkMoved(old(db), Elems(ids), SHIPPED, None)
      ensures ok <==> |Elems(ids) * old(db).products.Keys| == |ids|
    {
      var affected := set p | p in db.products && p in ids;
      assert affected == Elems(ids) * db.products.Keys;
      db := BulkMoved(db, Elems(ids), SHIPPED, None);
      ok := |affected| == |ids|;
    }

    // Statement 1: the rows that may still change, locked.
    method LockUndecided(orderIDs: seq<Order>) returns (locked: seq<Order>)
      requires Distinct(orderIDs)
      ensures Distinct(locked) && forall o :: o in locked <==> o in orderIDs && o in db.orders && Undecided(db.orders[o].status)
    {
      locked := [];
      var i := 0;
      while i < |orderIDs|
        invariant 0 <= i <= |orderIDs| && Distinct(locked)
        invariant forall o :: o in locked <==> o in orderIDs[..i] && o in db.orders && Undecided(db.orders[o].status)
      {
        var o := orderIDs[i];
        assert o !in orderIDs[..i] && orderIDs[..i + 1] == orderIDs[..i] + [o];
        if o in db.orders && Undecided(db.orders[o].status) {
          locked := locked + [o];
        }
        i := i + 1;
      }
      assert orderIDs[..i] == orderIDs;
    }

    // Statement 2, row by row as it returns them; no status is asked for any more.
    method DecideLocked(locked: seq<Order>) returns (completed: nat, partially: nat)
      requires Distinct(locked) && forall o :: o in locked ==> o in db.orders && Undecided(db.orders[o].status)
      modifies `db
      ensures db == ShippedOrders(old(db), Elems(locked))
      ensures completed == |Finished(old(db), locked, true)| && partially == |Finished(old(db), locked, false)|
    {
      var before := db;
      completed, partially := 0, 0;
      assert Finished(before, [], true) == {} == Finished(before, [], false);
      assert db.orders == ShippedOrders(before, Elems(locked[..0])).orders;
      var i := 0;
      while i < |locked|
        invariant 0 <= i <= |locked| && db == ShippedOrders(before, Elems(locked[..i]))
        invariant completed == |Finished(before, locked[..i], true)| && partially == |Finished(before, locked[..i], false)|
      {
        var o := locked[i];
        assert o !in locked[..i] && locked[..i + 1] == locked[..i] + [o];
        FinishedGrows(before, locked[..i], o);
        ShippedGrows(before, locked[..i], o);
        if SomeShipped(before, o) {
          var complete := AllShipped(before, o);
          db := db.(orders := db.orders[o := db.orders[o].(status := if complete then ORDER_SHIPPED else PARTIALLY_SHIPPED)]);
          if complete {
            completed := completed + 1;
          } else {
            partially := partially + 1;
          }
        }
        i := i + 1;
      }
      assert locked[..i] == locked;
    }

    // Of the named orders, those not yet decided with a product SHIPPED: SHIPPED when every product is,
    // PARTIALLY_SHIPPED otherwise; the counts say how many rows came out either way.
    method UpdateOrdersShippedConditional(orderIDs: seq<Order>) returns (completed: nat, partially: nat)
      requires Distinct(orderIDs)
      modifies `db
      ensures db == ShippedOrders(old(db), Elems(orderIDs))
      ensures forall o :: o in old(db).orders ==> o in db.orders && OnlyStatus(old(db).orders[o], db.orders[o])
      ensures forall o :: o in old(db).orders ==>
                if o in orderIDs && Undecided(old(db).orders[o].status) && !NoProduct(old(db), o, SHIPPED) then
                  && db.orders[o].status in {ORDER_SHIPPED, PARTIALLY_SHIPPED}
                  && (db.orders[o].status == ORDER_SHIPPED <==> EveryProduct(old(db), o, SHIPPED))
                else db.orders[o] == old(db).orders[o]
      ensures completed == |Finished(old(db), orderIDs, true)|
      ensures partially == |Finished(old(db), orderIDs, false)|
    {
      var locked := LockUndecided(orderIDs);
      UndecidedDecide(db, orderIDs, locked);
      if |locked| == 0 {
        assert ShippedOrders(db, {}).orders == db.orders;
        return 0, 0;
      }
      completed, partially := DecideLocked(locked);
    }

    method SubmitShip(items: seq<Product>, bin: Bin) returns (r: Answer)
      requires WellOrdered(db)
      modifies `db
      ensures r == (if ShipOk(old(db), bin, items) then OK else DRAFT_STALE)
      ensures db == Perform(site, old(db), ShipItems(items, bin))
    {
      var products := LockProductsForShip(bin, items);
      DistinctCardinality(products);
      ShipCountIff(db, bin, items);
      if |products| != |items| {
        return DRAFT_STALE;
      }
      assert forall p :: p in items ==> p in Elems(items);
      MarkShipped(items);
      r := OK;
    }

    // The row count check of the bulk update never fires behind the staleness check.
    method MarkShipped(items: seq<Product>)
      requires Distinct(items) && forall p :: p in items ==> p in db.products
      modifies `db
      ensures db == Shipped(old(db), items)
    {
      var orderIDs := DistinctOrders(items);
      ghost var before := db;
      var ok := BatchUpdateProductsShipped(items);
      assert Elems(items) * before.products.Keys == Elems(items);
      DistinctCardinality(items);
      assert ok;
      var completed, partially := UpdateOrdersShippedConditional(orderIDs);
    }

    method DistinctOrders(items: seq<Product>) returns (orderIDs: seq<Order>)
      ensures Distinct(orderIDs) && Elems(orderIDs) == OrdersOf(db, Elems(items))
    {
      orderIDs := [];
      var i := 0;
      while i < |items|
        invariant 0 <= i <= |items| && Distinct(orderIDs) && Elems(orderIDs) == OrdersOf(db, Elems(items[..i]))
      {
        var p := items[i];
        assert items[..i + 1] == items[..i] + [p];
        OrdersOfOneMore(db, items[..i], p);
        if p in db.products && db.products[p].order.Some? && db.products[p].order.value !in orderIDs {
          orderIDs := orderIDs + [db.products[p].order.value];
        }
        i := i + 1;
      }
      assert items[..i] == items;
    }
  }

  lemma OrdersOfOneMore(db: Db, items: seq<Product>, p: Product)
    ensures OrdersOf(db, Elems(items + [p])) ==
            OrdersOf(db, Elems(items)) + if p in db.products && db.products[p].order.Some? then {db.products[p].order.value} else {}
  {
  }

  lemma ShipCountIff(db: Db, bin: Bin, items: seq<Product>)
    ensures |InBufferBin(db, bin, items)| == |items| <==> ShipOk(db, bin, items)
  {
    if items != [] {
      CountCheckIff(InBufferBin(db, bin, items), items);
    } else {
      assert Elems(items) == {};
    }
  }

  lemma ShippedGrows(db: Db, seen: seq<Order>, o: Order)
    requires o in db.orders && Undecided(db.orders[o].status) && o !in seen
    ensures var d := ShippedOrders(db, Elems(seen));
            && d.products == db.products && o in d.orders && d.orders[o] == db.orders[o]
            && ShippedOrders(db, Elems(seen + [o])) ==
               if SomeShipped(db, o) then d.(orders := d.orders[o := d.orders[o].(status := if AllShipped(db, o) then ORDER_SHIPPED else PARTIALLY_SHIPPED)])
               else d
  {
    var d := ShippedOrders(db, Elems(seen));
    assert ShippedOrders(db, Elems(seen + [o])).orders ==
           if SomeShipped(db, o) then d.orders[o := d.orders[o].(status := if AllShipped(db, o) then ORDER_SHIPPED else PARTIALLY_SHIPPED)] else d.orders;
  }

  // Leaving out what the lock does not return changes nothing.
  lemma UndecidedDecide(db: Db, orderIDs: seq<Order>, locked: seq<Order>)
    requires forall o :: o in locked <==> o in orderIDs && o in db.orders && Undecided(db.orders[o].status)
    ensures ShippedOrders(db, Elems(locked)) == ShippedOrders(db, Elems(orderIDs))
    ensures forall complete :: Finished(db, locked, complete) == Finished(db, orderIDs, complete)
    ensures locked == [] ==> Elems(locked) == {} && forall complete :: |Finished(db, orderIDs, complete)| == 0
  {
    assert ShippedOrders(db, Elems(locked)).orders == ShippedOrders(db, Elems(orderIDs)).orders;
    forall complete
      ensures Finished(db, locked, complete) == Finished(db, orderIDs, complete)
    {
    }
    if locked == [] {
      forall complete
        ensures Finished(db, orderIDs, complete) == {}
      {
      }
    }
  }

  lemma FinishedGrows(db: Db, seen: seq<Order>, o: Order)
    requires o !in seen
    ensures forall complete :: |Finished(db, seen + [o], complete)| == |Finished(db, seen, complete)| + if Advances(db, o) && AllShipped(db, o) == complete then 1 else 0
  {
    forall complete
      ensures |Finished(db, seen + [o], complete)| == |Finished(db, seen, complete)| + if Advances(db, o) && AllShipped(db, o) == complete then 1 else 0
    {
      assert Finished(db, seen + [o], complete) ==
             Finished(db, seen, complete) + if Advances(db, o) && AllShipped(db, o) == complete then {o} else {};
    }
  }
}
