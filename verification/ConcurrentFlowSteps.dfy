// What every state of every interleaving keeps: locks are exclusive, what a transaction has locked and
// checked still stands, and each commit takes sane rows to sane rows.
module ConcurrentFlowSteps {
  import opened Basics
  import opened WarehouseTables
  import opened Allocation
  import opened ProductFlow
  import opened ConcurrentFlow

  // --------------------------------------------------------------- how rows move in time

  function OrderStage(status: OrderStatus): nat {
    match status
    case NEW => 0
    case ORDER_ALLOCATED => 1
    case ORDER_ASSEMBLED => 2
    case PARTIALLY_SHIPPED => 3
    case ORDER_SHIPPED => 4
  }

  predicate GivenToNew(a: Db, order: Option<Order>) {
    order.Some? && order.value in a.orders ==> a.orders[order.value].status == NEW
  }

  // Statuses only rise, orders of products stay, and only a NEW order gets products.
  ghost predicate Later(a: Db, b: Db) {
    && b.products.Keys == a.products.Keys && b.orders.Keys == a.orders.Keys && |a.tasks| <= |b.tasks|
    && (forall i :: 0 <= i < |a.tasks| ==> b.tasks[i].product == a.tasks[i].product)
    && (forall p :: p in a.products ==>
          && Stage(a.products[p].status) <= Stage(b.products[p].status)
          && (a.products[p].order.Some? ==> b.products[p].order == a.products[p].order)
          && (a.products[p].order == None ==> GivenToNew(a, b.products[p].order)))
    && (forall o :: o in a.orders ==> OrderStage(a.orders[o].status) <= OrderStage(b.orders[o].status))
  }

  lemma LaterChains(a: Db, b: Db, c: Db)
    requires Later(a, b) && Later(b, c)
    ensures Later(a, c)
  {
  }

  // Nothing but held rows changes, a product is shipped or given to an order only with the order held.
  ghost predicate Frame(a: Db, b: Db, x: Txn) {
    && b.products.Keys == a.products.Keys && b.orders.Keys == a.orders.Keys && |a.tasks| <= |b.tasks|
    && (forall p :: p in a.products && p !in ProductsHeld(x) ==> b.products[p] == a.products[p])
    && (forall i :: 0 <= i < |a.tasks| && i !in TasksHeld(x) ==> b.tasks[i] == a.tasks[i])
    && (forall o :: o in a.orders && o !in OrdersHeld(x) ==> b.orders[o] == a.orders[o])
    && (forall p :: p in a.products && b.products[p].order != a.products[p].order ==>
          a.products[p].order == None && b.products[p].order.Some? && b.products[p].order.value in OrdersHeld(x))
    && (forall p :: p in a.products && (b.products[p].status == SHIPPED) != (a.products[p].status == SHIPPED) ==>
          b.products[p].order.Some? ==> b.products[p].order.value in OrdersHeld(x))
  }

  // The same, seen by a transaction that holds other rows.
  ghost predicate RowsKept(a: Db, b: Db, y: Txn) {
    && Later(a, b)
    && (forall p :: p in ProductsHeld(y) && p in a.products ==> b.products[p] == a.products[p])
    && (forall i :: i in TasksHeld(y) && 0 <= i < |a.tasks| ==> b.tasks[i] == a.tasks[i])
    && (forall o :: o in OrdersHeld(y) && o in a.orders ==> b.orders[o] == a.orders[o])
    && (forall o, p :: o in OrdersHeld(y) && p in a.products ==>
          && (b.products[p].order == Some(o) <==> a.products[p].order == Some(o))
          && (a.products[p].order == Some(o) ==> (b.products[p].status == SHIPPED <==> a.products[p].status == SHIPPED)))
  }

  predicate Apart(x: Txn, y: Txn) {
    ProductsHeld(x) !! ProductsHeld(y) && TasksHeld(x) !! TasksHeld(y) && OrdersHeld(x) !! OrdersHeld(y)
  }

  lemma FrameKeepsOthers(a: Db, b: Db, x: Txn, y: Txn)
    requires Frame(a, b, x) && Later(a, b) && Apart(x, y)
    ensures RowsKept(a, b, y)
  {
    forall o, p | o in OrdersHeld(y) && p in a.products
      ensures b.products[p].order == Some(o) <==> a.products[p].order == Some(o)
      ensures a.products[p].order == Some(o) ==> (b.products[p].status == SHIPPED <==> a.products[p].status == SHIPPED)
    {
      assert o !in OrdersHeld(x);
    }
  }

  // ----------------------------------------------- what a transaction has made sure of

  predicate TaskOk(db: Db, given: map<Product, Order>, t: Task) {
    && t.product in given && t.order == given[t.product]
    && t.product in db.products && t.sku == db.products[t.product].sku && !t.done && t.action == None
  }

  ghost predicate NewTasks(db: Db, given: map<Product, Order>, added: seq<Task>) {
    && (forall i :: 0 <= i < |added| ==> TaskOk(db, given, added[i]))
    && (forall i, j :: 0 <= i < j < |added| ==> added[i].product != added[j].product)
    && (forall p :: p in given ==> exists i :: 0 <= i < |added| && added[i].product == p)
  }

  ghost predicate AllotOk(db: Db, x: Txn)
    requires x.Allotting?
  {
    && (forall o :: o in x.orders ==> o in db.orders && db.orders[o].status == NEW)
    && (forall p :: p in x.stock ==> Unassigned(db, p))
    && x.given.Keys <= x.stock && x.allotted <= x.orders
    && (forall p :: p in x.given ==> x.given[p] in x.allotted)
    && NewTasks(db, x.given, x.added)
  }

  ghost predicate PlaceChecked(site: Site, db: Db, x: Txn)
    requires x.Placing?
  {
    x.checked ==> x.held == Elems(x.items) && PlaceOk(site, db, x.items)
  }

  ghost predicate PickOkSoFar(db: Db, x: Txn)
    requires x.Picking?
  {
    match x.picking
    case LookingForTask(_) => true
    case TaskLocked(i) => PendingFor(db, i, x.product)
    case ProductLocked(i) => PendingFor(db, i, x.product) && x.product in db.products && db.products[x.product].status == ALLOCATED
  }

  ghost predicate BasketOk(db: Db, x: Txn)
    requires x.Unloading?
  {
    forall r :: r in x.basket ==> r.0 < |db.tasks| && db.tasks[r.0].product == r.1 && InBasket(db, db.tasks[r.0], x.operator, x.destination)
  }

  // The rows locked are the rows signed.
  predicate BasketIsSigned(x: Txn)
    requires x.Unloading?
  {
    ConcurrentFlow.ProductsOf(x.basket) == Elems(ItemsOf(x.parts))
  }

  ghost predicate PromotionOk(db: Db, x: Txn)
    requires x.Unloading? && x.unloading.Promoting?
  {
    && SnapshotOk(db, Elems(ItemsOf(x.parts)), x.unloading.seen)
    && ListOk(db, Promotable(x.unloading.seen, x), x.unloading.todo, x.unloading.locked)
  }

  ghost predicate SnapshotOk(db: Db, items: set<Product>, seen: Db) {
    && Sane(seen) && Later(seen, db)
    && (forall p :: p in items ==> p in seen.products && p in db.products && seen.products[p] == db.products[p])
  }

  // Listed orders: to be locked, locked and still ALLOCATED, or further on when their turn came.
  ghost predicate ListOk(db: Db, listed: set<Order>, todo: set<Order>, locked: set<Order>) {
    && todo <= listed && locked <= listed
    && (forall o :: o in locked ==> IsAllocated(db, o))
    && (forall o :: o in listed && o !in todo && o !in locked ==> o in db.orders && OrderStage(db.orders[o].status) > 1)
  }

  ghost predicate UnloadOkSoFar(db: Db, x: Txn)
    requires x.Unloading?
  {
    && BasketOk(db, x)
    && (!x.unloading.LockingBasket? ==> BasketIsSigned(x))
    && (x.unloading.TasksStamped? || x.unloading.Promoting? ==> x.unloading.stamped == ConcurrentFlow.TasksOf(x.basket))
    && (x.unloading.Promoting? ==> PromotionOk(db, x))
  }

  ghost predicate ShipOkSoFar(db: Db, x: Txn)
    requires x.Shipping?
  {
    && (forall p :: p in x.got ==> p in InBufferBin(db, x.bin, x.items))
    && (!x.shipping.LockingItems? ==> x.got == Elems(x.items) && Distinct(x.items))
    && (x.shipping.LockingOrders? ==> x.shipping.todo + x.shipping.locked == OrdersOf(db, x.got))
    && (x.shipping.OrdersDecided? ==>
          x.shipping.locked == OrdersOf(db, x.got) && x.shipping.decided == Decisions(ShipView(db, x), x.shipping.locked))
  }

  ghost predicate TxnOk(site: Site, db: Db, x: Txn) {
    match x
    case Placing(_, _, _, _) => PlaceChecked(site, db, x)
    case Allotting(_, _, _, _, _) => AllotOk(db, x)
    case Picking(_, _, _) => PickOkSoFar(db, x)
    case Unloading(_, _, _, _, _, _) => UnloadOkSoFar(db, x)
    case Shipping(_, _, _, _) => ShipOkSoFar(db, x)
  }

  ghost predicate LocksApart(s: State) {
    forall t, u :: t in s.open && u in s.open && t != u ==> Apart(s.open[t], s.open[u])
  }

  ghost predicate StateOk(site: Site, s: State) {
    && Sane(s.db) && LocksApart(s)
    && forall t :: t in s.open ==> TxnOk(site, s.db, s.open[t])
  }

  // ------------------------------------------------------- others leave all that standing

  lemma PlaceStands(site: Site, a: Db, b: Db, y: Txn)
    requires y.Placing? && PlaceChecked(site, a, y) && RowsKept(a, b, y)
    ensures PlaceChecked(site, b, y)
  {
  }

  lemma AllotStands(a: Db, b: Db, y: Txn)
    requires y.Allotting? && AllotOk(a, y) && RowsKept(a, b, y)
    ensures AllotOk(b, y)
  {
  }

  lemma PickStands(a: Db, b: Db, y: Txn)
    requires y.Picking? && PickOkSoFar(a, y) && RowsKept(a, b, y)
    ensures PickOkSoFar(b, y)
  {
  }

  lemma BasketStands(a: Db, b: Db, y: Txn)
    requires y.Unloading? && BasketOk(a, y) && RowsKept(a, b, y)
    ensures BasketOk(b, y)
  {
    forall r | r in y.basket
      ensures r.0 < |b.tasks| && b.tasks[r.0].product == r.1 && InBasket(b, b.tasks[r.0], y.operator, y.destination)
    {
      assert r.0 in ConcurrentFlow.TasksOf(y.basket) && r.1 in ConcurrentFlow.ProductsOf(y.basket);
    }
  }

  lemma PromotionStands(a: Db, b: Db, y: Txn)
    requires y.Unloading? && y.unloading.Promoting? && PromotionOk(a, y) && RowsKept(a, b, y)
    ensures PromotionOk(b, y)
  {
    SnapshotStands(a, b, Elems(ItemsOf(y.parts)), y.unloading.seen);
    ListStands(a, b, Promotable(y.unloading.seen, y), y.unloading.todo, y.unloading.locked);
  }

  lemma SnapshotStands(a: Db, b: Db, items: set<Product>, seen: Db)
    requires SnapshotOk(a, items, seen) && Later(a, b) && forall p :: p in items && p in a.products ==> b.products[p] == a.products[p]
    ensures SnapshotOk(b, items, seen)
  {
    LaterChains(seen, a, b);
  }

  lemma ListStands(a: Db, b: Db, listed: set<Order>, todo: set<Order>, locked: set<Order>)
    requires ListOk(a, listed, todo, locked) && Later(a, b) && forall o :: o in locked && o in a.orders ==> b.orders[o] == a.orders[o]
    ensures ListOk(b, listed, todo, locked)
  {
  }

  lemma ShipStands(a: Db, b: Db, y: Txn)
    requires y.Shipping? && ShipOkSoFar(a, y) && RowsKept(a, b, y)
    ensures ShipOkSoFar(b, y)
  {
    GotStands(a, b, y);
    if y.shipping.OrdersDecided? {
      DecisionsStand(a, b, y);
    }
  }

  lemma GotStands(a: Db, b: Db, y: Txn)
    requires y.Shipping? && RowsKept(a, b, y) && forall p :: p in y.got ==> p in InBufferBin(a, y.bin, y.items)
    ensures forall p :: p in y.got ==> p in InBufferBin(b, y.bin, y.items)
    ensures OrdersOf(b, y.got) == OrdersOf(a, y.got)
  {
    assert forall p :: p in y.got ==> p in ProductsHeld(y) && p in a.products && b.products[p] == a.products[p];
  }

  lemma DecisionsStand(a: Db, b: Db, y: Txn)
    requires y.Shipping? && y.shipping.OrdersDecided? && RowsKept(a, b, y)
    ensures Decisions(ShipView(b, y), y.shipping.locked) == Decisions(ShipView(a, y), y.shipping.locked)
  {
    forall o | o in y.shipping.locked
      ensures SomeShipped(ShipView(b, y), o) == SomeShipped(ShipView(a, y), o)
      ensures AllShipped(ShipView(b, y), o) == AllShipped(ShipView(a, y), o)
    {
      ViewsAgree(a, b, y, o);
    }
  }

  lemma ViewsAgree(a: Db, b: Db, y: Txn, o: Order)
    requires y.Shipping? && RowsKept(a, b, y) && o in OrdersHeld(y)
    ensures SomeShipped(ShipView(b, y), o) == SomeShipped(ShipView(a, y), o)
    ensures AllShipped(ShipView(b, y), o) == AllShipped(ShipView(a, y), o)
  {
    var v, w := ShipView(a, y), ShipView(b, y);
    assert forall p :: p in a.products ==> (w.products[p].order == Some(o) <==> v.products[p].order == Some(o));
    assert forall p :: p in a.products && v.products[p].order == Some(o) ==> (w.products[p].status == SHIPPED <==> v.products[p].status == SHIPPED);
    if SomeShipped(v, o) {
      var p :| p in v.products && v.products[p].order == Some(o) && v.products[p].status == SHIPPED;
      assert w.products[p].order == Some(o) && w.products[p].status == SHIPPED;
    }
    if SomeShipped(w, o) {
      var p :| p in w.products && w.products[p].order == Some(o) && w.products[p].status == SHIPPED;
      assert v.products[p].order == Some(o) && v.products[p].status == SHIPPED;
    }
  }

  lemma TxnStands(site: Site, a: Db, b: Db, y: Txn)
    requires TxnOk(site, a, y) && RowsKept(a, b, y)
    ensures TxnOk(site, b, y)
  {
    match y
    case Placing(_, _, _, _) => PlaceStands(site, a, b, y);
    case Allotting(_, _, _, _, _) => AllotStands(a, b, y);
    case Picking(_, _, _) => PickStands(a, b, y);
    case Unloading(_, _, _, _, _, _) =>
      BasketStands(a, b, y);
      if y.unloading.Promoting? { PromotionStands(a, b, y); }
    case Shipping(_, _, _, _) => ShipStands(a, b, y);
  }

  // ------------------------------------------------------------- one statement at a time

  ghost predicate ApartFromOthers(s: State, t: Tx, x: Txn) {
    forall u :: u in s.open && u != t ==> Apart(x, s.open[u])
  }

  predicate IsStatement(st: Step) {
    !Begins(st) && !st.Commit? && !st.Abort?
  }

  lemma PlaceStep(site: Site, s: State, st: Step)
    requires StateOk(site, s) && Enabled(site, s, st) && IsStatement(st) && s.open[st.t].Placing?
    ensures var x := Stepped(s.db, st, s.open[st.t]); TxnOk(site, s.db, x) && ApartFromOthers(s, st.t, x)
  {
    var x := s.open[st.t];
    assert TxnOk(site, s.db, x);
    assert ApartFromOthers(s, st.t, x);
  }

  lemma PickStep(site: Site, s: State, st: Step)
    requires StateOk(site, s) && Enabled(site, s, st) && IsStatement(st) && s.open[st.t].Picking?
    ensures var x := Stepped(s.db, st, s.open[st.t]); TxnOk(site, s.db, x) && ApartFromOthers(s, st.t, x)
  {
    var x := s.open[st.t];
    assert TxnOk(site, s.db, x);
    assert ApartFromOthers(s, st.t, x);
  }

  lemma AllotStep(site: Site, s: State, st: Step)
    requires StateOk(site, s) && Enabled(site, s, st) && IsStatement(st) && s.open[st.t].Allotting?
    ensures var x := Stepped(s.db, st, s.open[st.t]); TxnOk(site, s.db, x) && ApartFromOthers(s, st.t, x)
  {
    var x := s.open[st.t];
    assert TxnOk(site, s.db, x);
    assert ApartFromOthers(s, st.t, x);
    StaysApart(s, st.t, x, Stepped(s.db, st, x));
    if st.AllotOrder? {
      AllottedOk(s.db, x, st.o, st.picks, st.destination, st.sectionOf);
    }
  }

  lemma AllottedOk(db: Db, x: Txn, o: Order, picks: seq<Pick>, destination: Destination, sectionOf: Bin -> Section)
    requires x.Allotting? && AllotOk(db, x) && o in x.orders && FitsPicks(db, x, picks)
    ensures NewTasks(db, x.given + Assignments(picks, o), x.added + Allocation.TasksOf(picks, o, destination, sectionOf))
    ensures (x.given + Assignments(picks, o)).Keys <= x.stock
    ensures forall p :: p in x.given + Assignments(picks, o) ==> (x.given + Assignments(picks, o))[p] in x.allotted + {o}
  {
    PickedTasks(db, x, o, picks, destination, sectionOf);
    TasksJoin(db, x.given, x.added, Assignments(picks, o), Allocation.TasksOf(picks, o, destination, sectionOf));
  }

  lemma PickedTasks(db: Db, x: Txn, o: Order, picks: seq<Pick>, destination: Destination, sectionOf: Bin -> Section)
    requires x.Allotting? && FitsPicks(db, x, picks)
    ensures NewTasks(db, Assignments(picks, o), Allocation.TasksOf(picks, o, destination, sectionOf))
    ensures Assignments(picks, o).Keys <= x.stock && Assignments(picks, o).Keys !! x.given.Keys
  {
    var given, ts := Assignments(picks, o), Allocation.TasksOf(picks, o, destination, sectionOf);
    assert forall k :: 0 <= k < |picks| ==> Allocation.ProductsOf(picks)[k] == picks[k].product && ts[k].product == picks[k].product;
    forall p | p in given
      ensures exists i :: 0 <= i < |ts| && ts[i].product == p
    {
      var k :| 0 <= k < |picks| && Allocation.ProductsOf(picks)[k] == p;
      assert ts[k].product == p;
    }
  }

  lemma TasksJoin(db: Db, given: map<Product, Order>, added: seq<Task>, more: map<Product, Order>, ts: seq<Task>)
    requires NewTasks(db, given, added) && NewTasks(db, more, ts) && given.Keys !! more.Keys
    ensures NewTasks(db, given + more, added + ts)
  {
    var all := added + ts;
    forall i | 0 <= i < |all|
      ensures TaskOk(db, given + more, all[i])
    {
      assert TaskOk(db, if i < |added| then given else more, all[i]);
    }
    ProductsStayDistinct(db, given, added, more, ts);
    forall p | p in given + more
      ensures exists i :: 0 <= i < |all| && all[i].product == p
    {
      ProductHasTask(given, added, more, ts, p);
    }
  }

  lemma ProductHasTask(given: map<Product, Order>, added: seq<Task>, more: map<Product, Order>, ts: seq<Task>, p: Product)
    requires p in given ==> exists i :: 0 <= i < |added| && added[i].product == p
    requires p in more ==> exists i :: 0 <= i < |ts| && ts[i].product == p
    requires p in given || p in more
    ensures exists i :: 0 <= i < |added + ts| && (added + ts)[i].product == p
  {
    if p in more {
      var k :| 0 <= k < |ts| && ts[k].product == p;
      assert (added + ts)[|added| + k].product == p;
    } else {
      var k :| 0 <= k < |added| && added[k].product == p;
      assert (added + ts)[k].product == p;
    }
  }

  lemma ProductsStayDistinct(db: Db, given: map<Product, Order>, added: seq<Task>, more: map<Product, Order>, ts: seq<Task>)
    requires NewTasks(db, given, added) && NewTasks(db, more, ts) && given.Keys !! more.Keys
    ensures forall i, j :: 0 <= i < j < |added + ts| ==> (added + ts)[i].product != (added + ts)[j].product
  {
    forall i, j | 0 <= i < j < |added + ts|
      ensures (added + ts)[i].product != (added + ts)[j].product
    {
      if j < |added| {
        assert added[i].product != added[j].product;
      } else if i >= |added| {
        assert ts[i - |added|].product != ts[j - |added|].product;
      } else {
        assert TaskOk(db, given, added[i]) && TaskOk(db, more, ts[j - |added|]);
      }
    }
  }

  // ------------------------------------------------------------------------- unloading

  // The tasks the stamp finds are the tasks of the locked basket.
  lemma StampsTheBasket(db: Db, x: Txn)
    requires x.Unloading? && TasksMatch(db) && BasketOk(db, x) && BasketIsSigned(x)
    ensures Stampable(db, ItemsOf(x.parts), x.operator, x.destination) == ConcurrentFlow.TasksOf(x.basket)
  {
    var found := Stampable(db, ItemsOf(x.parts), x.operator, x.destination);
    forall i | i in found
      ensures i in ConcurrentFlow.TasksOf(x.basket)
    {
      assert db.tasks[i].product in ConcurrentFlow.ProductsOf(x.basket);
      var r :| r in x.basket && r.1 == db.tasks[i].product;
      assert r.0 == i;
    }
    forall i | i in ConcurrentFlow.TasksOf(x.basket)
      ensures i in found
    {
      var r :| r in x.basket && r.0 == i;
      assert r.1 in ConcurrentFlow.ProductsOf(x.basket);
    }
  }

  lemma SignedIsLocked(x: Txn)
    requires x.Unloading?
    requires |ConcurrentFlow.ProductsOf(x.basket)| == |Elems(ItemsOf(x.parts))| && ConcurrentFlow.ProductsOf(x.basket) <= Elems(ItemsOf(x.parts))
    ensures BasketIsSigned(x)
  {
    SubsetOfSameSize(ConcurrentFlow.ProductsOf(x.basket), Elems(ItemsOf(x.parts)));
  }

  lemma ListedOk(db: Db, x: Txn, stamped: set<nat>)
    requires x.Unloading? && Sane(db) && BasketOk(db, x) && BasketIsSigned(x)
    ensures PromotionOk(db, x.(unloading := Promoting(stamped, Promotable(db, x), {}, db)))
  {
    var y := x.(unloading := Promoting(stamped, Promotable(db, x), {}, db));
    assert Promotable(db, y) == Promotable(db, x);
    forall p | p in Elems(ItemsOf(x.parts))
      ensures p in db.products
    {
      assert p in ConcurrentFlow.ProductsOf(x.basket);
    }
  }

  lemma PromotedOk(db: Db, x: Txn, o: Order)
    requires x.Unloading? && x.unloading.Promoting? && PromotionOk(db, x) && o in x.unloading.todo
    ensures PromotionOk(db, x.(unloading := x.unloading.(todo := x.unloading.todo - {o},
                                 locked := if IsAllocated(db, o) then x.unloading.locked + {o} else x.unloading.locked)))
  {
    var y := x.(unloading := x.unloading.(todo := x.unloading.todo - {o},
                  locked := if IsAllocated(db, o) then x.unloading.locked + {o} else x.unloading.locked));
    assert UnloadView(x.unloading.seen, y) == UnloadView(x.unloading.seen, x);
    assert Promotable(y.unloading.seen, y) == Promotable(x.unloading.seen, x);
    assert IsAllocated(x.unloading.seen, o);
    ListShrinks(x.unloading.seen, db, Promotable(x.unloading.seen, x), x.unloading.todo, x.unloading.locked, o);
  }

  lemma ListShrinks(seen: Db, db: Db, listed: set<Order>, todo: set<Order>, locked: set<Order>, o: Order)
    requires ListOk(db, listed, todo, locked) && o in todo && IsAllocated(seen, o) && Later(seen, db)
    ensures ListOk(db, listed, todo - {o}, if IsAllocated(db, o) then locked + {o} else locked)
  {
  }

  // A transaction that takes only free rows stays apart from the others.
  lemma StaysApart(s: State, t: Tx, x: Txn, y: Txn)
    requires ApartFromOthers(s, t, x)
    requires forall p :: p in ProductsHeld(y) ==> p in ProductsHeld(x) || ProductFree(s, t, p)
    requires forall i :: i in TasksHeld(y) ==> i in TasksHeld(x) || TaskFree(s, t, i)
    requires forall o :: o in OrdersHeld(y) ==> o in OrdersHeld(x) || OrderFree(s, t, o)
    ensures ApartFromOthers(s, t, y)
  {
  }

  lemma UnloadStep(site: Site, s: State, st: Step)
    requires StateOk(site, s) && Enabled(site, s, st) && IsStatement(st) && s.open[st.t].Unloading?
    ensures var x := Stepped(s.db, st, s.open[st.t]); TxnOk(site, s.db, x) && ApartFromOthers(s, st.t, x)
  {
    var x := s.open[st.t];
    assert TxnOk(site, s.db, x);
    assert ApartFromOthers(s, st.t, x);
    UnloadStays(site, s, st);
    match st
    case LockBasketRow(_, i) => BasketRowOk(s.db, st, x);
    case MoveItems(_) => SignedIsLocked(x);
    case StampTasks(_) => StampsTheBasket(s.db, x);
    case ListPromotable(_) => ListedOk(s.db, x, x.unloading.stamped);
    case LockPromoted(_, o) => PromotedOk(s.db, x, o);
    case _ =>
  }

  lemma BasketRowOk(db: Db, st: Step, x: Txn)
    requires st.LockBasketRow? && x.Unloading? && x.unloading.LockingBasket? && st.i < |db.tasks| && BasketOk(db, x)
    ensures var y := Stepped(db, st, x); y.Unloading? && y.unloading.LockingBasket? && BasketOk(db, y)
  {
  }

  // The rows a statement of an unload takes.
  lemma BasketRowTakes(db: Db, st: Step, x: Txn)
    requires st.LockBasketRow? && x.Unloading? && x.unloading.LockingBasket? && st.i < |db.tasks|
    ensures var y := Stepped(db, st, x);
            && ProductsHeld(y) <= ProductsHeld(x) + {db.tasks[st.i].product} && TasksHeld(y) <= TasksHeld(x) + {st.i} && OrdersHeld(y) == {}
  {
  }

  lemma MoveTakes(db: Db, st: Step, x: Txn)
    requires st.MoveItems? && x.Unloading? && x.unloading.LockingBasket?
    ensures var y := Stepped(db, st, x);
            ProductsHeld(y) == ProductsHeld(x) + Elems(ItemsOf(x.parts)) && TasksHeld(y) == TasksHeld(x) && OrdersHeld(y) == {}
  {
  }

  lemma StampTakes(db: Db, st: Step, x: Txn)
    requires st.StampTasks? && x.Unloading? && x.unloading.ItemsMoved?
    ensures var y := Stepped(db, st, x);
            && ProductsHeld(y) == ProductsHeld(x) && OrdersHeld(y) == {}
            && TasksHeld(y) == TasksHeld(x) + Stampable(db, ItemsOf(x.parts), x.operator, x.destination)
  {
  }

  lemma PromotionTakes(db: Db, st: Step, x: Txn)
    requires x.Unloading? && ((st.ListPromotable? && x.unloading.TasksStamped?) || (st.LockPromoted? && x.unloading.Promoting?))
    ensures var y := Stepped(db, st, x);
            && ProductsHeld(y) == ProductsHeld(x) && TasksHeld(y) == TasksHeld(x)
            && OrdersHeld(y) <= OrdersHeld(x) + if st.LockPromoted? then {st.o} else {}
  {
  }

  lemma UnloadStays(site: Site, s: State, st: Step)
    requires !Begins(st) && IsStatement(st) && st.t in s.open && CanStep(site, s, st, s.open[st.t]) && s.open[st.t].Unloading?
    requires ApartFromOthers(s, st.t, s.open[st.t])
    ensures ApartFromOthers(s, st.t, Stepped(s.db, st, s.open[st.t]))
  {
    var x := s.open[st.t];
    if st.LockBasketRow? {
      BasketRowTakes(s.db, st, x);
    } else if st.MoveItems? {
      MoveTakes(s.db, st, x);
    } else if st.StampTasks? {
      StampTakes(s.db, st, x);
    } else {
      PromotionTakes(s.db, st, x);
    }
    StaysApart(s, st.t, x, Stepped(s.db, st, x));
  }

  // -------------------------------------------------------------------------- shipping

  // A ready product keeps its order open to the statement that locks it.
  lemma ReadyOrderIsCandidate(db: Db, p: Product)
    requires Sane(db) && p in db.products && db.products[p].status == READY_TO_SHIP && db.products[p].order.Some?
    ensures IsCandidate(db, db.products[p].order.value)
  {
    var o := db.products[p].order.value;
    assert o in db.orders && OrderRight(db, o);
  }

  lemma ItemsOrdersAreCandidates(db: Db, x: Txn)
    requires x.Shipping? && Sane(db) && ShipOkSoFar(db, x)
    ensures forall o :: o in OrdersOf(db, x.got) ==> IsCandidate(db, o)
  {
    forall o | o in OrdersOf(db, x.got)
      ensures IsCandidate(db, o)
    {
      var p :| p in x.got && p in db.products && db.products[p].order == Some(o);
      ReadyOrderIsCandidate(db, p);
    }
  }

  lemma MarkedIsSigned(db: Db, x: Txn)
    requires x.Shipping? && ShipOkSoFar(db, x) && |x.got| == |x.items|
    ensures x.got == Elems(x.items) && Distinct(x.items)
  {
    DistinctCardinality(x.items);
    if x.items != [] {
      SubsetOfSameSize(x.got, Elems(x.items));
    }
  }

  lemma ShipStays(site: Site, s: State, st: Step)
    requires !Begins(st) && IsStatement(st) && st.t in s.open && CanStep(site, s, st, s.open[st.t]) && s.open[st.t].Shipping?
    requires ApartFromOthers(s, st.t, s.open[st.t])
    ensures ApartFromOthers(s, st.t, Stepped(s.db, st, s.open[st.t]))
  {
    StaysApart(s, st.t, s.open[st.t], Stepped(s.db, st, s.open[st.t]));
  }

  lemma ShipStepOk(db: Db, st: Step, x: Txn)
    requires x.Shipping? && Sane(db) && ShipOkSoFar(db, x)
    requires match st
             case LockShipped(_, _) => x.shipping.LockingItems?
             case MarkShipped(_) => x.shipping.LockingItems? && |x.got| == |x.items|
             case ListOrders(_) => x.shipping.ItemsShipped?
             case LockOrder(_, o) => x.shipping.LockingOrders? && o in x.shipping.todo
             case DecideOrders(_) => x.shipping.LockingOrders? && x.shipping.todo == {}
             case _ => false
    ensures var y := Stepped(db, st, x); y.Shipping? && ShipOkSoFar(db, y)
  {
    if st.MarkShipped? {
      MarkedIsSigned(db, x);
    } else if st.ListOrders? || st.LockOrder? {
      ItemsOrdersAreCandidates(db, x);
    }
  }

  lemma ShipStep(site: Site, s: State, st: Step)
    requires StateOk(site, s) && Enabled(site, s, st) && IsStatement(st) && s.open[st.t].Shipping?
    ensures var x := Stepped(s.db, st, s.open[st.t]); TxnOk(site, s.db, x) && ApartFromOthers(s, st.t, x)
  {
    var x := s.open[st.t];
    assert TxnOk(site, s.db, x);
    assert ApartFromOthers(s, st.t, x);
    ShipStays(site, s, st);
    ShipStepOk(s.db, st, x);
  }
}
