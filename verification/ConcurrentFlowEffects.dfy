// What each kind of transaction leaves behind when it commits: sane rows, one stage forward, nothing
// changed but rows it holds, and the same rows as if it had run alone at that moment; a promotion of
// orders, decided on a snapshot, excepted.
module ConcurrentFlowEffects {
  import opened Basics
  import opened WarehouseTables
  import opened Allocation
  import opened ProductFlow
  import opened ConcurrentFlow
  import opened ConcurrentFlowSteps

  // Shipped products stay, ready ones do not fall back, orders keep their products.
  ghost predicate ShipmentsKept(db: Db, d: Db) {
    && d.products.Keys == db.products.Keys
    && forall p :: p in db.products ==>
         && d.products[p].order == db.products[p].order
         && (d.products[p].status == SHIPPED <==> db.products[p].status == SHIPPED)
         && (db.products[p].status == READY_TO_SHIP ==> d.products[p].status == READY_TO_SHIP)
  }

  lemma OrderStaysRight(db: Db, d: Db, o: Order)
    requires ShipmentsKept(db, d) && o in db.orders && o in d.orders && d.orders[o] == db.orders[o] && OrderRight(db, o)
    ensures OrderRight(d, o)
  {
    ShippedAlike(db, d, o);
  }

  lemma ShippedAlike(db: Db, d: Db, o: Order)
    requires ShipmentsKept(db, d)
    ensures SomeShipped(d, o) == SomeShipped(db, o) && AllShipped(d, o) == AllShipped(db, o)
    ensures AllReady(db, o) ==> AllReady(d, o)
  {
  }

  // -------------------------------------------------------------------------- placing

  lemma PlaceEffect(site: Site, db: Db, x: Txn)
    requires x.Placing? && Finished(x) && Sane(db) && PlaceChecked(site, db, x)
    ensures Effect(db, x) == Perform(site, db, PlaceItems(x.items, x.bin))
    ensures Sane(Effect(db, x)) && StepsForward(db, Effect(db, x)) && Later(db, Effect(db, x)) && Frame(db, Effect(db, x), x)
  {
    PlaceKeepsInv(site, db, x.items, x.bin);
    PlacedRows(site, db, x);
    SameOrdersRight(db, Effect(db, x));
  }

  lemma PlacedRows(site: Site, db: Db, x: Txn)
    requires x.Placing? && Finished(x) && PlaceChecked(site, db, x)
    ensures ShipmentsKept(db, Effect(db, x)) && Later(db, Effect(db, x)) && Frame(db, Effect(db, x), x)
  {
    assert forall p :: p in Elems(x.items) ==> p in x.items && db.products[p].status == RECEIVED;
  }

  // -------------------------------------------------------------------------- picking

  lemma PickEffect(site: Site, db: Db, x: Txn)
    requires x.Picking? && Finished(x) && Sane(db) && PickOkSoFar(db, x)
    ensures Effect(db, x) == Perform(site, db, PickItem(x.operator, x.product))
    ensures Sane(Effect(db, x)) && StepsForward(db, Effect(db, x)) && Later(db, Effect(db, x)) && Frame(db, Effect(db, x), x)
  {
    PickedAlone(db, x);
    PickKeepsInv(db, x.product, x.operator);
    PickedRows(db, x);
    SameOrdersRight(db, Effect(db, x));
  }

  lemma SameOrdersRight(db: Db, d: Db)
    requires OrdersRight(db) && ShipmentsKept(db, d) && d.orders == db.orders
    ensures OrdersRight(d)
  {
    forall o | o in d.orders
      ensures OrderRight(d, o)
    {
      OrderStaysRight(db, d, o);
    }
  }

  // The locked task is the product's only pending one.
  lemma PickedAlone(db: Db, x: Txn)
    requires x.Picking? && Finished(x) && TasksMatch(db) && PickOkSoFar(db, x)
    ensures PickOk(db, x.product) && Effect(db, x) == Picked(db, x.product, x.operator)
  {
    assert forall j :: PendingFor(db, j, x.product) <==> j == x.picking.i;
    assert Effect(db, x).tasks == Picked(db, x.product, x.operator).tasks;
  }

  lemma PickedRows(db: Db, x: Txn)
    requires x.Picking? && Finished(x) && PickOkSoFar(db, x)
    ensures ShipmentsKept(db, Effect(db, x)) && Later(db, Effect(db, x)) && Frame(db, Effect(db, x), x)
  {
  }

  // ------------------------------------------------------------------------ allocating

  lemma AllotEffect(db: Db, x: Txn)
    requires x.Allotting? && Sane(db) && AllotOk(db, x)
    ensures Sane(Effect(db, x)) && StepsForward(db, Effect(db, x)) && Later(db, Effect(db, x)) && Frame(db, Effect(db, x), x)
  {
    AllottedRows(db, x);
    AllottedTasks(db, x);
    AllottedOrders(db, x);
  }

  lemma AllottedRows(db: Db, x: Txn)
    requires x.Allotting? && AllotOk(db, x)
    ensures StepsForward(db, Effect(db, x)) && Later(db, Effect(db, x)) && Frame(db, Effect(db, x), x)
  {
  }

  lemma AllottedTasks(db: Db, x: Txn)
    requires x.Allotting? && TasksMatch(db) && AllotOk(db, x)
    ensures TasksMatch(Effect(db, x))
  {
    var d := Effect(db, x);
    forall i | 0 <= i < |d.tasks|
      ensures d.tasks[i].product in d.products && TaskFits(d.products[d.tasks[i].product], d.tasks[i])
      ensures i < |db.tasks| <==> d.tasks[i].product !in x.given
    {
      if i < |db.tasks| {
        assert d.tasks[i] == db.tasks[i] && TaskFits(db.products[db.tasks[i].product], db.tasks[i]);
      } else {
        assert TaskOk(db, x.given, x.added[i - |db.tasks|]);
      }
    }
    AllottedDistinct(db, x);
    forall p | p in d.products && Stage(d.products[p].status) >= 2
      ensures HasTask(d, p)
    {
      AllottedHasTask(db, x, p);
    }
  }

  lemma AllottedDistinct(db: Db, x: Txn)
    requires x.Allotting? && AllotOk(db, x)
    requires forall i, j :: 0 <= i < j < |db.tasks| ==> db.tasks[i].product != db.tasks[j].product
    requires forall i :: 0 <= i < |db.tasks| ==> db.tasks[i].product !in x.given
    ensures forall i, j :: 0 <= i < j < |db.tasks + x.added| ==> (db.tasks + x.added)[i].product != (db.tasks + x.added)[j].product
  {
    forall i, j | 0 <= i < j < |db.tasks + x.added|
      ensures (db.tasks + x.added)[i].product != (db.tasks + x.added)[j].product
    {
      if |db.tasks| <= j {
        assert TaskOk(db, x.given, x.added[j - |db.tasks|]);
      }
    }
  }

  lemma AllottedHasTask(db: Db, x: Txn, p: Product)
    requires x.Allotting? && AllotOk(db, x) && p in db.products
    requires p !in x.given ==> HasTask(db, p)
    ensures HasTask(Effect(db, x), p)
  {
    var d := Effect(db, x);
    if p in x.given {
      var i :| 0 <= i < |x.added| && x.added[i].product == p;
      assert d.tasks[|db.tasks| + i].product == p;
    } else {
      var i :| 0 <= i < |db.tasks| && db.tasks[i].product == p;
      assert d.tasks[i].product == p;
    }
  }

  lemma AllottedOrders(db: Db, x: Txn)
    requires x.Allotting? && Sane(db) && AllotOk(db, x)
    ensures WellOrdered(Effect(db, x)) && NewOrdersEmpty(Effect(db, x)) && OrdersRight(Effect(db, x))
  {
    var d := Effect(db, x);
    assert d.products.Keys == db.products.Keys && d.orders.Keys == db.orders.Keys;
    forall p | p in d.products && d.products[p].order.Some?
      ensures d.products[p].order.value in d.orders && d.orders[d.products[p].order.value].status != NEW
    {
    }
    forall o | o in d.orders
      ensures OrderRight(d, o)
    {
      AllottedOrderRight(db, x, o);
    }
  }

  lemma AllottedOrderRight(db: Db, x: Txn, o: Order)
    requires x.Allotting? && Sane(db) && AllotOk(db, x) && o in db.orders
    ensures OrderRight(Effect(db, x), o)
  {
    var d := Effect(db, x);
    assert OrderRight(db, o);
    if o in x.allotted {
      assert forall p :: p in db.products ==> db.products[p].order != Some(o);
      assert !SomeShipped(d, o);
    } else {
      assert forall p :: p in db.products ==> (d.products[p].order == Some(o) <==> db.products[p].order == Some(o));
      assert forall p :: p in db.products && db.products[p].order == Some(o) ==> d.products[p] == db.products[p];
      assert SomeShipped(d, o) == SomeShipped(db, o) && AllShipped(d, o) == AllShipped(db, o) && AllReady(d, o) == AllReady(db, o);
    }
  }

  // -------------------------------------------------------------------------- shipping

  lemma ShipEffect(site: Site, db: Db, x: Txn)
    requires x.Shipping? && Finished(x) && Sane(db) && ShipOkSoFar(db, x)
    ensures Effect(db, x) == Perform(site, db, ShipItems(x.items, x.bin))
    ensures Sane(Effect(db, x)) && StepsForward(db, Effect(db, x)) && Later(db, Effect(db, x)) && Frame(db, Effect(db, x), x)
  {
    ShippedAlone(db, x);
    ShippedRows(db, x);
    ShippedOrdersRight(db, x);
    if x.items != [] {
      ShipKeepsInv(db, x.items, x.bin);
    } else {
      NothingShipped(db, x);
    }
  }

  lemma ShippedFits(db: Db, x: Txn)
    requires x.Shipping? && Finished(x) && ShipOkSoFar(db, x)
    ensures Distinct(x.items) && Elems(x.items) == x.got && x.got <= InBufferBin(db, x.bin, x.items)
    ensures x.items != [] ==> ShipOk(db, x.bin, x.items)
  {
  }

  lemma NothingShipped(db: Db, x: Txn)
    requires x.Shipping? && Finished(x) && ShipOkSoFar(db, x) && x.items == []
    ensures Effect(db, x) == db && ProductFlow.Shipped(db, x.items) == db
  {
    assert Elems(x.items) == {} && OrdersOf(db, x.got) == {} == OrdersOf(db, Elems(x.items));
    assert BulkMoved(db, {}, SHIPPED, None).products == db.products;
    assert Effect(db, x).orders == db.orders;
    assert ShippedOrders(BulkMoved(db, {}, SHIPPED, None), {}).orders == db.orders;
  }

  // The decisions are those of a ship that runs alone at this moment.
  lemma ShippedAlone(db: Db, x: Txn)
    requires x.Shipping? && Finished(x) && Sane(db) && ShipOkSoFar(db, x)
    ensures Effect(db, x) == ProductFlow.Shipped(db, x.items)
    ensures x.items != [] ==> ShipOk(db, x.bin, x.items)
  {
    ShippedFits(db, x);
    ItemsOrdersAreCandidates(db, x);
    var d, e := Effect(db, x), ProductFlow.Shipped(db, x.items);
    forall o | o in db.orders
      ensures d.orders[o] == e.orders[o]
    {
      assert ShipView(db, x).orders == db.orders;
    }
    assert d.orders == e.orders;
  }

  lemma ShippedRows(db: Db, x: Txn)
    requires x.Shipping? && Finished(x) && Sane(db) && ShipOkSoFar(db, x)
    ensures StepsForward(db, Effect(db, x)) && Later(db, Effect(db, x)) && Frame(db, Effect(db, x), x)
  {
    ItemsOrdersAreCandidates(db, x);
    ShippedProducts(db, x);
    ShippedOrderStages(db, x);
    FrameOfShip(db, Effect(db, x), x);
  }

  lemma FrameOfShip(db: Db, d: Db, x: Txn)
    requires x.Shipping? && x.shipping.OrdersDecided? && StepsForward(db, d) && d.tasks == db.tasks && d.orders.Keys == db.orders.Keys
    requires forall p :: p in db.products ==> d.products[p].order == db.products[p].order
    requires forall p :: p in db.products && p !in x.got ==> d.products[p] == db.products[p]
    requires forall p :: p in x.got && p in db.products && db.products[p].order.Some? ==> db.products[p].order.value in x.shipping.locked
    requires forall o :: o in db.orders ==>
               && (o !in x.shipping.locked ==> d.orders[o] == db.orders[o])
               && OrderStage(db.orders[o].status) <= OrderStage(d.orders[o].status)
    ensures Later(db, d) && Frame(db, d, x)
  {
  }

  lemma ShippedProducts(db: Db, x: Txn)
    requires x.Shipping? && Finished(x) && ShipOkSoFar(db, x)
    ensures var d := Effect(db, x);
            && StepsForward(db, d) && d.tasks == db.tasks && d.orders.Keys == db.orders.Keys
            && (forall p :: p in db.products ==> d.products[p].order == db.products[p].order)
            && (forall p :: p in db.products && p !in x.got ==> d.products[p] == db.products[p])
            && (forall p :: p in x.got && p in db.products && db.products[p].order.Some? ==> db.products[p].order.value in x.shipping.locked)
  {
    ShippedFits(db, x);
    BulkStepsForward(db, Elems(x.items), SHIPPED, None);
    assert Effect(db, x).products == BulkMoved(db, Elems(x.items), SHIPPED, None).products;
    forall p | p in x.got && p in db.products && db.products[p].order.Some?
      ensures db.products[p].order.value in x.shipping.locked
    {
      assert db.products[p].order.value in OrdersOf(db, x.got);
    }
  }

  lemma ShippedOrderStages(db: Db, x: Txn)
    requires x.Shipping? && Finished(x) && ShipOkSoFar(db, x) && forall o :: o in x.shipping.locked ==> IsCandidate(db, o)
    ensures var d := Effect(db, x);
            forall o :: o in db.orders ==>
              && (o !in x.shipping.locked ==> d.orders[o] == db.orders[o])
              && OrderStage(db.orders[o].status) <= OrderStage(d.orders[o].status)
  {
    forall o | o in db.orders && o in x.shipping.decided
      ensures o in x.shipping.locked && OrderStage(db.orders[o].status) <= OrderStage(x.shipping.decided[o])
    {
      assert IsCandidate(db, o);
    }
  }

  lemma ShippedOrdersRight(db: Db, x: Txn)
    requires x.Shipping? && Finished(x) && Sane(db) && ShipOkSoFar(db, x)
    ensures OrdersRight(Effect(db, x))
  {
    var d := Effect(db, x);
    ShippedFits(db, x);
    assert d.products == ShipView(db, x).products;
    forall o | o in d.orders
      ensures OrderRight(d, o)
    {
      ShippedOrderRight(db, x, o);
    }
  }

  lemma ShippedOrderRight(db: Db, x: Txn, o: Order)
    requires x.Shipping? && Finished(x) && Sane(db) && ShipOkSoFar(db, x) && o in db.orders
    ensures OrderRight(Effect(db, x), o)
  {
    var d, v := Effect(db, x), ShipView(db, x);
    ShippedFits(db, x);
    assert OrderRight(db, o);
    assert SomeShipped(d, o) == SomeShipped(v, o) && AllShipped(d, o) == AllShipped(v, o);
    if o in OrdersOf(db, x.got) {
      var p :| p in x.got && p in db.products && db.products[p].order == Some(o);
      assert v.products[p].status == SHIPPED && SomeShipped(v, o);
    } else {
      assert forall p :: p in db.products && db.products[p].order == Some(o) ==> d.products[p] == db.products[p];
      assert forall p :: p in db.products ==> d.products[p].order == db.products[p].order;
      assert SomeShipped(d, o) == SomeShipped(db, o) && AllShipped(d, o) == AllShipped(db, o) && AllReady(d, o) == AllReady(db, o);
    }
  }

  // ------------------------------------------------------------------------- unloading

  lemma UnloadEffect(db: Db, x: Txn)
    requires x.Unloading? && Finished(x) && Sane(db) && UnloadOkSoFar(db, x)
    ensures Covered(db, x.operator, x.destination, x.parts)
    ensures Effect(db, x) == Unloaded(db, x.operator, x.destination, x.parts, x.bin).(orders := Effect(db, x).orders)
    ensures Sane(Effect(db, x)) && StepsForward(db, Effect(db, x)) && Later(db, Effect(db, x)) && Frame(db, Effect(db, x), x)
  {
    SignedInBasket(db, x);
    StampedTasks(db, x);
    UnloadedSerially(db, x);
    UnloadedFrame(db, x);
    UnloadedOrdersRight(db, x);
    UnloadedInv(db, x);
  }

  lemma UnloadedSerially(db: Db, x: Txn)
    requires x.Unloading? && Finished(x) && UnloadOkSoFar(db, x)
    requires Effect(db, x).tasks == AllStamped(db.tasks, x.parts, x.operator, x.destination)
    ensures Effect(db, x) == Unloaded(db, x.operator, x.destination, x.parts, x.bin).(orders := Effect(db, x).orders)
    ensures StepsForward(db, Effect(db, x))
  {
    UnloadedProducts(db, x);
    UnloadedOrders(db, x);
  }

  lemma UnloadedInv(db: Db, x: Txn)
    requires x.Unloading? && Finished(x) && ProductFlow.Inv(db) && UnloadOkSoFar(db, x) && Covered(db, x.operator, x.destination, x.parts)
    requires Effect(db, x) == Unloaded(db, x.operator, x.destination, x.parts, x.bin).(orders := Effect(db, x).orders)
    ensures ProductFlow.Inv(Effect(db, x))
  {
    UnloadKeepsTasks(db, x.operator, x.destination, x.parts, x.bin);
    SameRowsMatch(Unloaded(db, x.operator, x.destination, x.parts, x.bin), Effect(db, x));
    UnloadedOrdersKept(db, x);
  }

  lemma UnloadedOrdersKept(db: Db, x: Txn)
    requires x.Unloading? && Finished(x) && WellOrdered(db) && NewOrdersEmpty(db) && UnloadOkSoFar(db, x)
    ensures WellOrdered(Effect(db, x)) && NewOrdersEmpty(Effect(db, x))
  {
    UnloadedProducts(db, x);
    UnloadedOrders(db, x);
    OrdersKept(db, Effect(db, x));
  }

  lemma SameRowsMatch(e: Db, d: Db)
    requires TasksMatch(e) && d.products == e.products && d.tasks == e.tasks
    ensures TasksMatch(d)
  {
    forall p | p in d.products && Stage(d.products[p].status) >= 2
      ensures HasTask(d, p)
    {
      assert HasTask(e, p);
    }
  }

  lemma SignedInBasket(db: Db, x: Txn)
    requires x.Unloading? && BasketOk(db, x) && BasketIsSigned(x)
    ensures Covered(db, x.operator, x.destination, x.parts)
    ensures forall p :: p in Elems(ItemsOf(x.parts)) ==> p in db.products && db.products[p].status == ASSEMBLED
  {
    forall p | p in Elems(ItemsOf(x.parts))
      ensures p in Basket(db, x.operator, x.destination)
    {
      assert p in ConcurrentFlow.ProductsOf(x.basket);
      var r :| r in x.basket && r.1 == p;
      assert InBasket(db, db.tasks[r.0], x.operator, x.destination);
    }
    CoveredIsAssembled(db, x.operator, x.destination, x.parts);
  }

  lemma SignedTaskIsLocked(db: Db, x: Txn, j: nat)
    requires x.Unloading? && TasksMatch(db) && BasketOk(db, x) && BasketIsSigned(x)
    requires j < |db.tasks| && db.tasks[j].product in ItemsOf(x.parts)
    ensures j in ConcurrentFlow.TasksOf(x.basket)
  {
    assert db.tasks[j].product in ConcurrentFlow.ProductsOf(x.basket);
    var r :| r in x.basket && r.1 == db.tasks[j].product;
    assert r.0 == j;
  }

  // Only the stamped tasks would be stamped anyway.
  lemma StampedTasks(db: Db, x: Txn)
    requires x.Unloading? && Finished(x) && TasksMatch(db) && UnloadOkSoFar(db, x)
    ensures Effect(db, x).tasks == AllStamped(db.tasks, x.parts, x.operator, x.destination)
  {
    forall j: nat | j < |db.tasks|
      ensures Effect(db, x).tasks[j] == Stamped(db.tasks[j], x.parts, x.operator, x.destination)
    {
      StampedKeeps(db.tasks[j], x.parts, x.operator, x.destination);
      if db.tasks[j].product in ItemsOf(x.parts) {
        SignedTaskIsLocked(db, x, j);
      }
    }
  }

  lemma UnloadedOrders(db: Db, x: Txn)
    requires x.Unloading? && Finished(x) && PromotionOk(db, x)
    ensures var d := Effect(db, x);
            && d.orders.Keys == db.orders.Keys && d.arrival == db.arrival && d.queue == db.queue
            && forall o :: o in db.orders ==>
                 if o in x.unloading.locked then db.orders[o].status == ORDER_ALLOCATED && d.orders[o] == db.orders[o].(status := ORDER_ASSEMBLED)
                 else d.orders[o] == db.orders[o]
  {
  }

  lemma UnloadedProducts(db: Db, x: Txn)
    requires x.Unloading? && Finished(x) && BasketOk(db, x) && BasketIsSigned(x)
    ensures var d := Effect(db, x);
            && ShipmentsKept(db, d) && StepsForward(db, d)
            && d.products == Unloaded(db, x.operator, x.destination, x.parts, x.bin).products
            && (forall p :: p in db.products && p !in Elems(ItemsOf(x.parts)) ==> d.products[p] == db.products[p])
            && (forall p :: p in db.products && p in Elems(ItemsOf(x.parts)) ==> d.products[p].status == READY_TO_SHIP)
  {
    SignedInBasket(db, x);
    BulkStepsForward(db, Elems(ItemsOf(x.parts)), READY_TO_SHIP, Some(x.bin));
    BulkKeepsShipments(db, Elems(ItemsOf(x.parts)), x.bin);
    assert Effect(db, x).products == BulkMoved(db, Elems(ItemsOf(x.parts)), READY_TO_SHIP, Some(x.bin)).products;
  }

  lemma BulkKeepsShipments(db: Db, items: set<Product>, bin: Bin)
    requires forall p :: p in items ==> p in db.products && db.products[p].status == ASSEMBLED
    ensures ShipmentsKept(db, BulkMoved(db, items, READY_TO_SHIP, Some(bin)))
  {
  }

  lemma UnloadedFrame(db: Db, x: Txn)
    requires x.Unloading? && Finished(x) && UnloadOkSoFar(db, x)
    requires Effect(db, x).tasks == AllStamped(db.tasks, x.parts, x.operator, x.destination)
    ensures Later(db, Effect(db, x)) && Frame(db, Effect(db, x), x)
  {
    var d := Effect(db, x);
    UnloadedOrders(db, x);
    UnloadedProducts(db, x);
    forall i | 0 <= i < |db.tasks|
      ensures d.tasks[i].product == db.tasks[i].product
    {
      StampedKeeps(db.tasks[i], x.parts, x.operator, x.destination);
    }
    FrameOf(db, d, x);
  }

  lemma FrameOf(db: Db, d: Db, x: Txn)
    requires x.Unloading? && x.unloading.Promoting? && ShipmentsKept(db, d) && StepsForward(db, d) && |d.tasks| == |db.tasks|
    requires forall i :: 0 <= i < |db.tasks| ==> d.tasks[i].product == db.tasks[i].product
    requires forall i :: 0 <= i < |db.tasks| && i !in x.unloading.stamped ==> d.tasks[i] == db.tasks[i]
    requires forall p :: p in db.products && p !in Elems(ItemsOf(x.parts)) ==> d.products[p] == db.products[p]
    requires d.orders.Keys == db.orders.Keys
    requires forall o :: o in db.orders ==>
               if o in x.unloading.locked then db.orders[o].status == ORDER_ALLOCATED && d.orders[o] == db.orders[o].(status := ORDER_ASSEMBLED)
               else d.orders[o] == db.orders[o]
    ensures Later(db, d) && Frame(db, d, x)
  {
  }

  lemma UnloadedOrdersRight(db: Db, x: Txn)
    requires x.Unloading? && Finished(x) && Sane(db) && UnloadOkSoFar(db, x)
    ensures OrdersRight(Effect(db, x))
  {
    var d := Effect(db, x);
    UnloadedProducts(db, x);
    UnloadedOrders(db, x);
    forall o | o in d.orders
      ensures OrderRight(d, o)
    {
      if o in x.unloading.locked {
        PromotedIsReady(db, x, o);
        ShippedAlike(db, d, o);
        assert OrderRight(db, o);
      } else {
        OrderStaysRight(db, d, o);
      }
    }
  }

  // What the snapshot showed ready is ready still, and no product has joined the order since.
  lemma PromotedIsReady(db: Db, x: Txn, o: Order)
    requires x.Unloading? && Finished(x) && Sane(db) && UnloadOkSoFar(db, x) && o in x.unloading.locked
    ensures AllReady(Effect(db, x), o)
  {
    var d := Effect(db, x);
    UnloadedProducts(db, x);
    forall p | p in d.products && d.products[p].order == Some(o)
      ensures d.products[p].status == READY_TO_SHIP
    {
      if p !in Elems(ItemsOf(x.parts)) {
        OthersAreReady(db, x, o, p);
      }
    }
  }

  lemma OthersAreReady(db: Db, x: Txn, o: Order, p: Product)
    requires x.Unloading? && x.unloading.Promoting? && OrdersRight(db) && PromotionOk(db, x) && o in x.unloading.locked
    requires p in db.products && db.products[p].order == Some(o) && p !in Elems(ItemsOf(x.parts))
    ensures db.products[p].status == READY_TO_SHIP
  {
    SnapshotHasProduct(db, x, o, p);
    SnapshotShowsReady(x, o, p);
    assert OrderRight(db, o) && IsAllocated(db, o);
    NothingShippedOf(db, o, p);
  }

  lemma SnapshotShowsReady(x: Txn, o: Order, p: Product)
    requires x.Unloading? && x.unloading.Promoting? && o in Promotable(x.unloading.seen, x)
    requires p in x.unloading.seen.products && x.unloading.seen.products[p].order == Some(o) && p !in Elems(ItemsOf(x.parts))
    ensures x.unloading.seen.products[p].status == READY_TO_SHIP
  {
    assert UnloadView(x.unloading.seen, x).products[p] == x.unloading.seen.products[p];
  }

  lemma NothingShippedOf(db: Db, o: Order, p: Product)
    requires IsAllocated(db, o) && OrderRight(db, o) && p in db.products && db.products[p].order == Some(o)
    ensures db.products[p].status != SHIPPED
  {
  }

  lemma SnapshotHasProduct(db: Db, x: Txn, o: Order, p: Product)
    requires x.Unloading? && x.unloading.Promoting? && PromotionOk(db, x) && o in Promotable(x.unloading.seen, x)
    requires p in db.products && db.products[p].order == Some(o)
    ensures p in x.unloading.seen.products && x.unloading.seen.products[p].order == Some(o)
    ensures Stage(x.unloading.seen.products[p].status) <= Stage(db.products[p].status)
  {
  }
}
