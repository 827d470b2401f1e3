// A product's way through the warehouse: what each transaction does to the rows running alone, and
// what holds over every sequence of them. ConcurrentFlow interleaves the same transactions.
// (wms/internal/putaway/place_signed.go, wms/internal/assembly/{service,unload_signed,unload_signed_repository}.go,
// wms/internal/shipping/{ship_signed,ship_signed_repository,repository}.go)
module ProductFlow {
  import opened Basics
  import opened WarehouseTables
  import opened Allocation
  import opened AllocationResults

  // The bins table and the cargoplaces' table, as far as placing asks them.
  datatype Site = Site(isBuffer: Bin -> bool, cargoOf: Product -> Cargo, isClosed: Cargo -> bool, sectionOf: Bin -> Section)

  type Cargo = nat

  datatype Part = Part(action: ActionId, items: seq<Product>)

  function ItemsOf(parts: seq<Part>): seq<Product> {
    if parts == [] then [] else ItemsOf(parts[..|parts| - 1]) + parts[|parts| - 1].items
  }

  // UPDATE ... WHERE product_id = ANY(ids): no status guard.
  function BulkMoved(db: Db, ids: set<Product>, status: ProductStatus, bin: Option<Bin>): Db {
    db.(products := map p | p in db.products ::
          if p in ids then db.products[p].(status := status, bin := if bin.Some? then bin else db.products[p].bin) else db.products[p])
  }

  // ------------------------------------------------------------------------- placing

  predicate Placeable(site: Site, db: Db, p: Product) {
    && p in db.products && db.products[p].status == RECEIVED
    && db.products[p].bin.Some? && site.isBuffer(db.products[p].bin.value) && site.isClosed(site.cargoOf(p))
  }

  ghost predicate PlaceOk(site: Site, db: Db, items: seq<Product>) {
    Distinct(items) && forall p :: p in items ==> Placeable(site, db, p)
  }

  // ------------------------------------------------------------------------- picking

  predicate PendingFor(db: Db, i: int, p: Product) {
    0 <= i < |db.tasks| && db.tasks[i].product == p && !db.tasks[i].done
  }

  ghost predicate PickOk(db: Db, p: Product) {
    (exists i :: PendingFor(db, i, p)) && p in db.products && db.products[p].status == ALLOCATED
  }

  function Picked(db: Db, p: Product, operator: Operator): Db {
    BulkMoved(db, {p}, ASSEMBLED, None).(tasks :=
      seq(|db.tasks|, i requires 0 <= i < |db.tasks| =>
        if PendingFor(db, i, p) then db.tasks[i].(done := true, operator := Some(operator)) else db.tasks[i]))
  }

  // ------------------------------------------------------------------------ unloading

  predicate InBasket(db: Db, t: Task, operator: Operator, destination: Destination) {
    && t.done && t.operator == Some(operator) && t.action == None && t.destination == destination
    && t.product in db.products && db.products[t.product].status == ASSEMBLED
  }

  function Basket(db: Db, operator: Operator, destination: Destination): set<Product> {
    set i | 0 <= i < |db.tasks| && InBasket(db, db.tasks[i], operator, destination) :: db.tasks[i].product
  }

  predicate UnloadOk(db: Db, operator: Operator, destination: Destination, parts: seq<Part>) {
    Basket(db, operator, destination) == Elems(ItemsOf(parts))
  }

  // Every signed item is in the basket; the basket may hold more.
  predicate Covered(db: Db, operator: Operator, destination: Destination, parts: seq<Part>) {
    Elems(ItemsOf(parts)) <= Basket(db, operator, destination)
  }

  // StampTaskUnload for one part; a task stamped by an earlier part keeps its action.
  predicate Stamps(t: Task, ids: seq<Product>, operator: Operator, destination: Destination) {
    t.product in ids && t.done && t.operator == Some(operator) && t.destination == destination && t.action == None
  }

  function Stamped(t: Task, parts: seq<Part>, operator: Operator, destination: Destination): Task {
    if parts == [] then t
    else
      var t1 := Stamped(t, parts[..|parts| - 1], operator, destination);
      var part := parts[|parts| - 1];
      if Stamps(t1, part.items, operator, destination) then t1.(action := Some(part.action)) else t1
  }

  function AllStamped(tasks: seq<Task>, parts: seq<Part>, operator: Operator, destination: Destination): (r: seq<Task>)
    ensures |r| == |tasks| && forall i :: 0 <= i < |tasks| ==> r[i] == Stamped(tasks[i], parts, operator, destination)
  {
    seq(|tasks|, i requires 0 <= i < |tasks| => Stamped(tasks[i], parts, operator, destination))
  }

  predicate AllReady(db: Db, o: Order) {
    forall p :: p in db.products && db.products[p].order == Some(o) ==> db.products[p].status == READY_TO_SHIP
  }

  function OrdersOf(db: Db, ids: set<Product>): set<Order> {
    set p | p in ids && p in db.products && db.products[p].order.Some? :: db.products[p].order.value
  }

  function Promoted(db: Db, orders: set<Order>): Db {
    db.(orders := map o | o in db.orders ::
          if o in orders && db.orders[o].status == ORDER_ALLOCATED && AllReady(db, o) then db.orders[o].(status := ORDER_ASSEMBLED) else db.orders[o])
  }

  function Unloaded(db: Db, operator: Operator, destination: Destination, parts: seq<Part>, bufferBin: Bin): Db {
    var items := Elems(ItemsOf(parts));
    var d := BulkMoved(db, items, READY_TO_SHIP, Some(bufferBin)).(tasks := AllStamped(db.tasks, parts, operator, destination));
    Promoted(d, OrdersOf(db, items))
  }

  // ------------------------------------------------------------------------- shipping

  // productsForShip: the whole bin when no product is named.
  function InBufferBin(db: Db, bin: Bin, items: seq<Product>): set<Product> {
    set p | p in db.products && db.products[p].bin == Some(bin) && db.products[p].status == READY_TO_SHIP && (items == [] || p in items)
  }

  ghost predicate ShipOk(db: Db, bin: Bin, items: seq<Product>) {
    Distinct(items) && InBufferBin(db, bin, items) == Elems(items)
  }

  predicate SomeShipped(db: Db, o: Order) {
    exists p :: p in db.products && db.products[p].order == Some(o) && db.products[p].status == SHIPPED
  }

  predicate AllShipped(db: Db, o: Order) {
    forall p :: p in db.products && db.products[p].order == Some(o) ==> db.products[p].status == SHIPPED
  }

  predicate Advances(db: Db, o: Order) {
    o in db.orders && db.orders[o].status in {ORDER_ALLOCATED, ORDER_ASSEMBLED, PARTIALLY_SHIPPED} && SomeShipped(db, o)
  }

  function ShippedOrders(db: Db, orders: set<Order>): Db {
    db.(orders := map o | o in db.orders ::
          if o in orders && Advances(db, o) then db.orders[o].(status := if AllShipped(db, o) then ORDER_SHIPPED else PARTIALLY_SHIPPED)
          else db.orders[o])
  }

  function Shipped(db: Db, items: seq<Product>): Db {
    ShippedOrders(BulkMoved(db, Elems(items), SHIPPED, None), OrdersOf(db, Elems(items)))
  }

  // --------------------------------------------------------------------------- any run

  datatype Transaction =
    | PlaceItems(items: seq<Product>, storageBin: Bin)
    | AllocateOrders(orders: seq<Order>, destination: Destination)
    | PickItem(operator: Operator, product: Product)
    | UnloadBasket(operator: Operator, destination: Destination, parts: seq<Part>, bufferBin: Bin)
    | ShipItems(items: seq<Product>, bin: Bin)

  // What a transaction leaves behind; one that is refused leaves everything as it was.
  ghost function Perform(site: Site, db: Db, t: Transaction): Db {
    match t
    case PlaceItems(items, bin) => if PlaceOk(site, db, items) then BulkMoved(db, Elems(items), STORED, Some(bin)) else db
    case AllocateOrders(orders, destination) =>
      (match AllocateAll(db, orders, destination, site.sectionOf)
       case Going(d, _, _, _) => d
       case Aborted(_) => db)
    case PickItem(operator, p) => if PickOk(db, p) then Picked(db, p, operator) else db
    case UnloadBasket(operator, destination, parts, bin) =>
      if UnloadOk(db, operator, destination, parts) then Unloaded(db, operator, destination, parts, bin) else db
    case ShipItems(items, bin) => if ShipOk(db, bin, items) then Shipped(db, items) else db
  }

  // The query's promise: distinct orders, still NEW.
  ghost predicate Admissible(db: Db, t: Transaction) {
    t.AllocateOrders? ==> Distinct(t.orders) && forall o :: o in t.orders ==> o in db.orders && db.orders[o].status == NEW
  }

  ghost function PerformAll(site: Site, db: Db, ts: seq<Transaction>): Db
    decreases |ts|
  {
    if ts == [] then db else Perform(site, PerformAll(site, db, ts[..|ts| - 1]), ts[|ts| - 1])
  }

  ghost predicate AllAdmissible(site: Site, db: Db, ts: seq<Transaction>) {
    forall k :: 0 <= k < |ts| ==> Admissible(PerformAll(site, db, ts[..k]), ts[k])
  }

  // A status moves one stage or stays; SKU and, once set, order stay.
  ghost predicate StepsForward(db: Db, d: Db) {
    && d.products.Keys == db.products.Keys
    && forall p :: p in db.products ==>
         var r, r' := db.products[p], d.products[p];
         && r'.sku == r.sku && (r.order.Some? ==> r'.order == r.order)
         && (Stage(r'.status) == Stage(r.status) || Stage(r'.status) == Stage(r.status) + 1)
  }

  // A NEW order has no products.
  ghost predicate NewOrdersEmpty(db: Db) {
    forall p :: p in db.products && db.products[p].order.Some? ==>
      db.products[p].order.value in db.orders && db.orders[db.products[p].order.value].status != NEW
  }

  ghost predicate Inv(db: Db) {
    WellOrdered(db) && TasksMatch(db) && NewOrdersEmpty(db)
  }

  // ------------------------------------------------------------ each transaction's effect

  // A bulk update of rows that all stand one stage before.
  lemma BulkStepsForward(db: Db, ids: set<Product>, status: ProductStatus, bin: Option<Bin>)
    requires forall p :: p in ids ==> p in db.products && Stage(db.products[p].status) + 1 == Stage(status)
    ensures StepsForward(db, BulkMoved(db, ids, status, bin))
  {
  }

  lemma PlaceKeepsInv(site: Site, db: Db, items: seq<Product>, bin: Bin)
    requires Inv(db) && PlaceOk(site, db, items)
    ensures var d := BulkMoved(db, Elems(items), STORED, Some(bin)); Inv(d) && StepsForward(db, d)
  {
  }

  lemma AllocateKeepsInv(site: Site, db: Db, orders: seq<Order>, destination: Destination)
    requires Inv(db) && Distinct(orders) && forall o :: o in orders ==> o in db.orders && db.orders[o].status == NEW
    requires AllocateAll(db, orders, destination, site.sectionOf).Going?
    ensures var d := AllocateAll(db, orders, destination, site.sectionOf).db; Inv(d) && StepsForward(db, d)
  {
    assert forall o :: o in orders ==> Waiting(db, o);
    AllocationIsSound(db, orders, destination, site.sectionOf);
    var g := AllocateAll(db, orders, destination, site.sectionOf);
    forall p | p in g.db.products && g.db.products[p].order.Some?
      ensures g.db.products[p].order.value in g.db.orders && g.db.orders[g.db.products[p].order.value].status != NEW
    {
      NewOrdersStayEmpty(db, orders, g, p);
    }
  }

  lemma NewOrdersStayEmpty(db: Db, orders: seq<Order>, g: Batch, p: Product)
    requires Inv(db) && g.Going? && Sound(db, orders, g.db, g.orders, g.insufficient)
    requires forall o :: o in orders ==> o in db.orders && db.orders[o].status == NEW
    requires p in g.db.products && g.db.products[p].order.Some?
    ensures g.db.products[p].order.value in g.db.orders && g.db.orders[g.db.products[p].order.value].status != NEW
  {
  }

  lemma PickKeepsInv(db: Db, p: Product, operator: Operator)
    requires Inv(db) && PickOk(db, p)
    ensures var d := Picked(db, p, operator); Inv(d) && StepsForward(db, d)
  {
    var d := Picked(db, p, operator);
    BulkStepsForward(db, {p}, ASSEMBLED, None);
    assert d.products.Keys == db.products.Keys;
    PickedTasksFit(db, p, operator);
    TasksStay(db, d);
  }

  lemma PickedTasksFit(db: Db, p: Product, operator: Operator)
    requires TasksMatch(db) && PickOk(db, p)
    ensures var d := Picked(db, p, operator);
            forall i :: 0 <= i < |d.tasks| ==>
              && d.tasks[i].product == db.tasks[i].product && d.tasks[i].product in d.products
              && TaskFits(d.products[d.tasks[i].product], d.tasks[i])
  {
  }

  // The same products have tasks, and none newly needs one.
  lemma TasksStay(db: Db, d: Db)
    requires TasksMatch(db) && |d.tasks| == |db.tasks| && forall i :: 0 <= i < |d.tasks| ==> d.tasks[i].product == db.tasks[i].product
    requires d.products.Keys == db.products.Keys
    requires forall q :: q in d.products && Stage(d.products[q].status) >= 2 ==> Stage(db.products[q].status) >= 2
    ensures forall q :: q in d.products && Stage(d.products[q].status) >= 2 ==> HasTask(d, q)
  {
    forall q | q in d.products && Stage(d.products[q].status) >= 2
      ensures HasTask(d, q)
    {
      assert HasTask(db, q);
      var i :| 0 <= i < |db.tasks| && db.tasks[i].product == q;
      assert d.tasks[i].product == q;
    }
  }

  lemma {:induction false} StampedKeeps(t: Task, parts: seq<Part>, operator: Operator, destination: Destination)
    ensures var t' := Stamped(t, parts, operator, destination);
            && t'.(action := None) == t.(action := None)
            && (t.action.Some? || t.product !in ItemsOf(parts) ==> t' == t)
            && (t.product in ItemsOf(parts) && t.done && t.operator == Some(operator) && t.destination == destination ==> t'.action.Some?)
    decreases |parts|
  {
    if parts != [] {
      StampedKeeps(t, parts[..|parts| - 1], operator, destination);
    }
  }

  lemma CoveredIsAssembled(db: Db, operator: Operator, destination: Destination, parts: seq<Part>)
    requires Covered(db, operator, destination, parts)
    ensures forall p :: p in Elems(ItemsOf(parts)) ==> p in db.products && db.products[p].status == ASSEMBLED
  {
  }

  lemma UnloadStepsForward(db: Db, operator: Operator, destination: Destination, parts: seq<Part>, bin: Bin)
    requires Covered(db, operator, destination, parts)
    ensures var d := Unloaded(db, operator, destination, parts, bin);
            && StepsForward(db, d) && d.products.Keys == db.products.Keys && d.orders.Keys == db.orders.Keys
            && d.arrival == db.arrival && d.queue == db.queue
            && forall o :: o in db.orders ==> (d.orders[o].status == NEW <==> db.orders[o].status == NEW)
  {
    var items, d := Elems(ItemsOf(parts)), Unloaded(db, operator, destination, parts, bin);
    CoveredIsAssembled(db, operator, destination, parts);
    BulkStepsForward(db, items, READY_TO_SHIP, Some(bin));
    assert d.products == BulkMoved(db, items, READY_TO_SHIP, Some(bin)).products;
  }

  // Rows and orders that keep what NewOrdersEmpty and WellOrdered look at.
  lemma OrdersKept(db: Db, d: Db)
    requires WellOrdered(db) && NewOrdersEmpty(db) && d.arrival == db.arrival && d.queue == db.queue
    requires d.products.Keys == db.products.Keys && d.orders.Keys == db.orders.Keys
    requires forall p :: p in db.products ==> d.products[p].order == db.products[p].order
    requires forall o :: o in db.orders && d.orders[o].status == NEW ==> db.orders[o].status == NEW
    ensures WellOrdered(d) && NewOrdersEmpty(d)
  {
  }

  lemma UnloadKeepsInv(db: Db, operator: Operator, destination: Destination, parts: seq<Part>, bin: Bin)
    requires Inv(db) && Covered(db, operator, destination, parts)
    ensures var d := Unloaded(db, operator, destination, parts, bin); Inv(d) && StepsForward(db, d)
  {
    UnloadStepsForward(db, operator, destination, parts, bin);
    UnloadKeepsTasks(db, operator, destination, parts, bin);
    OrdersKept(db, Unloaded(db, operator, destination, parts, bin));
  }

  lemma UnloadKeepsTasks(db: Db, operator: Operator, destination: Destination, parts: seq<Part>, bin: Bin)
    requires TasksMatch(db) && Covered(db, operator, destination, parts)
    ensures TasksMatch(Unloaded(db, operator, destination, parts, bin))
  {
    var d := Unloaded(db, operator, destination, parts, bin);
    UnloadedTasksFit(db, operator, destination, parts, bin);
    assert d.products.Keys == db.products.Keys;
    TasksStay(db, d);
  }

  lemma UnloadedTasksFit(db: Db, operator: Operator, destination: Destination, parts: seq<Part>, bin: Bin)
    requires TasksMatch(db) && Covered(db, operator, destination, parts)
    ensures var d := Unloaded(db, operator, destination, parts, bin);
            forall i :: 0 <= i < |d.tasks| ==>
              && d.tasks[i].product == db.tasks[i].product && d.tasks[i].product in d.products
              && TaskFits(d.products[d.tasks[i].product], d.tasks[i])
  {
    var items, d := Elems(ItemsOf(parts)), Unloaded(db, operator, destination, parts, bin);
    forall i | 0 <= i < |d.tasks|
      ensures d.tasks[i].product == db.tasks[i].product && d.tasks[i].product in d.products && TaskFits(d.products[d.tasks[i].product], d.tasks[i])
    {
      var t := db.tasks[i];
      StampedKeeps(t, parts, operator, destination);
      assert TaskFits(db.products[t.product], t);
      if t.product in items {
        assert t.product in Basket(db, operator, destination);
        var j :| 0 <= j < |db.tasks| && InBasket(db, db.tasks[j], operator, destination) && db.tasks[j].product == t.product;
        assert j == i;
      }
    }
  }

  lemma ShipKeepsTasks(db: Db, d: Db, ids: set<Product>)
    requires TasksMatch(db) && d.tasks == db.tasks && d.products == BulkMoved(db, ids, SHIPPED, None).products
    requires forall p :: p in ids ==> p in db.products && db.products[p].status == READY_TO_SHIP
    ensures TasksMatch(d)
  {
    TasksStay(db, d);
  }

  lemma ShipKeepsOrders(db: Db, items: seq<Product>)
    requires NewOrdersEmpty(db) && WellOrdered(db)
    ensures NewOrdersEmpty(Shipped(db, items)) && WellOrdered(Shipped(db, items))
  {
    var d := Shipped(db, items);
    assert d.products.Keys == db.products.Keys && d.orders.Keys == db.orders.Keys;
    forall p | p in d.products && d.products[p].order.Some?
      ensures d.products[p].order.value in d.orders && d.orders[d.products[p].order.value].status != NEW
    {
      assert d.products[p].order == db.products[p].order;
    }
  }

  lemma ShipKeepsInv(db: Db, items: seq<Product>, bin: Bin)
    requires Inv(db) && ShipOk(db, bin, items)
    ensures var d := Shipped(db, items); Inv(d) && StepsForward(db, d)
  {
    var d, ids := Shipped(db, items), Elems(items);
    assert ids == InBufferBin(db, bin, items);
    BulkStepsForward(db, ids, SHIPPED, None);
    assert d.products == BulkMoved(db, ids, SHIPPED, None).products;
    ShipKeepsTasks(db, d, ids);
    ShipKeepsOrders(db, items);
  }

  lemma PerformKeepsInv(site: Site, db: Db, t: Transaction)
    requires Inv(db) && Admissible(db, t)
    ensures Inv(Perform(site, db, t)) && StepsForward(db, Perform(site, db, t))
  {
    match t
    case PlaceItems(items, bin) => if PlaceOk(site, db, items) { PlaceKeepsInv(site, db, items, bin); }
    case AllocateOrders(orders, destination) =>
      if AllocateAll(db, orders, destination, site.sectionOf).Going? { AllocateKeepsInv(site, db, orders, destination); }
    case PickItem(operator, p) => if PickOk(db, p) { PickKeepsInv(db, p, operator); }
    case UnloadBasket(operator, destination, parts, bin) =>
      if UnloadOk(db, operator, destination, parts) { UnloadKeepsInv(db, operator, destination, parts, bin); }
    case ShipItems(items, bin) => if ShipOk(db, bin, items) { ShipKeepsInv(db, items, bin); }
  }

  lemma PerformNext(site: Site, db: Db, ts: seq<Transaction>, k: nat)
    requires k < |ts|
    ensures PerformAll(site, db, ts[..k + 1]) == Perform(site, PerformAll(site, db, ts[..k]), ts[k])
  {
    assert ts[..k + 1][..k] == ts[..k];
  }

  lemma {:induction false} ReachedInv(site: Site, db: Db, ts: seq<Transaction>, k: nat)
    requires Inv(db) && AllAdmissible(site, db, ts) && k <= |ts|
    ensures Inv(PerformAll(site, db, ts[..k]))
  {
    if k > 0 {
      ReachedInv(site, db, ts, k - 1);
      StepsOn(site, db, ts, k - 1);
    }
  }

  lemma StepsOn(site: Site, db: Db, ts: seq<Transaction>, k: nat)
    requires AllAdmissible(site, db, ts) && k < |ts| && Inv(PerformAll(site, db, ts[..k]))
    ensures Inv(PerformAll(site, db, ts[..k + 1])) && StepsForward(PerformAll(site, db, ts[..k]), PerformAll(site, db, ts[..k + 1]))
  {
    PerformNext(site, db, ts, k);
    PerformKeepsInv(site, PerformAll(site, db, ts[..k]), ts[k]);
  }

  // -------------------------------------------------------- what each transaction writes, row by row

  // Nothing but status and bin of these products has changed.
  ghost predicate RowsMoved(db: Db, d: Db, ids: set<Product>, status: ProductStatus, toBin: Option<Bin>) {
    && d.products.Keys == db.products.Keys && d.arrival == db.arrival && d.queue == db.queue
    && forall p :: p in db.products ==>
         var r, r' := db.products[p], d.products[p];
         if p in ids then r'.status == status && r'.bin == (if toBin == None then r.bin else toBin) && r'.sku == r.sku && r'.order == r.order else r' == r
  }

  // Placing takes distinct RECEIVED products of closed cargoplaces out of buffer bins, all of them or none.
  lemma PlaceWrites(site: Site, db: Db, items: seq<Product>, bin: Bin)
    ensures var d := Perform(site, db, PlaceItems(items, bin));
            if (forall i, j :: 0 <= i < j < |items| ==> items[i] != items[j])
               && (forall p :: p in items ==>
                     && p in db.products && db.products[p].status == RECEIVED && site.isClosed(site.cargoOf(p))
                     && db.products[p].bin.Some? && site.isBuffer(db.products[p].bin.value))
            then RowsMoved(db, d, Elems(items), STORED, Some(bin)) && d.orders == db.orders && d.tasks == db.tasks
            else d == db
  {
  }

  // Picking takes an ALLOCATED product with a pending task, which becomes this operator's.
  lemma PickWrites(site: Site, db: Db, operator: Operator, p: Product)
    ensures var d := Perform(site, db, PickItem(operator, p));
            if p in db.products && db.products[p].status == ALLOCATED && exists i :: 0 <= i < |db.tasks| && db.tasks[i].product == p && !db.tasks[i].done
            then
              && RowsMoved(db, d, {p}, ASSEMBLED, None) && d.orders == db.orders && |d.tasks| == |db.tasks|
              && forall i :: 0 <= i < |db.tasks| ==>
                   var t, t' := db.tasks[i], d.tasks[i];
                   if t.product == p && !t.done then t' == t.(done := true, operator := Some(operator)) && t'.done else t' == t
            else d == db
  {
    if exists i :: 0 <= i < |db.tasks| && db.tasks[i].product == p && !db.tasks[i].done {
      var i :| 0 <= i < |db.tasks| && db.tasks[i].product == p && !db.tasks[i].done;
      assert PendingFor(db, i, p);
    }
    assert forall i :: PendingFor(db, i, p) <==> 0 <= i < |db.tasks| && db.tasks[i].product == p && !db.tasks[i].done;
  }

  // A product lies in the operator's basket for a shop: picked by him for it and not carried away.
  ghost predicate Carries(db: Db, operator: Operator, destination: Destination, p: Product) {
    exists i :: 0 <= i < |db.tasks| && db.tasks[i].product == p && IsCarried(db, db.tasks[i], operator, destination)
  }

  ghost predicate IsCarried(db: Db, t: Task, operator: Operator, destination: Destination) {
    && t.done && t.operator == Some(operator) && t.action == None && t.destination == destination
    && t.product in db.products && db.products[t.product].status == ASSEMBLED
  }

  lemma BasketIsCarried(db: Db, operator: Operator, destination: Destination, p: Product)
    ensures p in Basket(db, operator, destination) <==> Carries(db, operator, destination, p)
  {
  }

  // The task of a carried product gets the action of a part that names it; any other task stays.
  ghost predicate TasksStamped(db: Db, d: Db, operator: Operator, destination: Destination, parts: seq<Part>) {
    && |d.tasks| == |db.tasks|
    && forall i :: 0 <= i < |db.tasks| ==>
         var t, t' := db.tasks[i], d.tasks[i];
         if IsCarried(db, t, operator, destination) && t.product in ItemsOf(parts) then
           t' == t.(action := t'.action) && exists k :: 0 <= k < |parts| && t.product in parts[k].items && t'.action == Some(parts[k].action)
         else t' == t
  }

  lemma {:induction false} StampedSomehow(t: Task, parts: seq<Part>, operator: Operator, destination: Destination)
    requires t.done && t.operator == Some(operator) && t.action == None && t.destination == destination && t.product in ItemsOf(parts)
    ensures var t' := Stamped(t, parts, operator, destination);
            t' == t.(action := t'.action) && exists k :: 0 <= k < |parts| && t.product in parts[k].items && t'.action == Some(parts[k].action)
    decreases |parts|
  {
    var front, last := parts[..|parts| - 1], parts[|parts| - 1];
    StampedKeeps(t, front, operator, destination);
    if t.product in ItemsOf(front) {
      StampedSomehow(t, front, operator, destination);
      var k :| 0 <= k < |front| && t.product in front[k].items && Stamped(t, front, operator, destination).action == Some(front[k].action);
      assert parts[k] == front[k];
    } else {
      assert parts[|front|] == last;
    }
  }

  lemma UnloadStamps(db: Db, operator: Operator, destination: Destination, parts: seq<Part>, bin: Bin)
    requires UnloadOk(db, operator, destination, parts)
    ensures TasksStamped(db, Unloaded(db, operator, destination, parts, bin), operator, destination, parts)
  {
    var d := Unloaded(db, operator, destination, parts, bin);
    forall i | 0 <= i < |db.tasks|
      ensures d.tasks[i] == Stamped(db.tasks[i], parts, operator, destination)
    {
    }
    forall i | 0 <= i < |db.tasks|
      ensures var t, t' := db.tasks[i], d.tasks[i];
              if IsCarried(db, t, operator, destination) && t.product in ItemsOf(parts) then
                t' == t.(action := t'.action) && exists k :: 0 <= k < |parts| && t.product in parts[k].items && t'.action == Some(parts[k].action)
              else t' == t
    {
      var t := db.tasks[i];
      if IsCarried(db, t, operator, destination) && t.product in ItemsOf(parts) {
        StampedSomehow(t, parts, operator, destination);
      } else {
        CoveredIsAssembled(db, operator, destination, parts);
        assert t.product in ItemsOf(parts) ==> t.product in Elems(ItemsOf(parts));
        UnstampedStays(db, t, parts, operator, destination);
      }
    }
  }

  lemma {:induction false} UnstampedStays(db: Db, t: Task, parts: seq<Part>, operator: Operator, destination: Destination)
    requires t.product in ItemsOf(parts) ==> t.product in db.products && db.products[t.product].status == ASSEMBLED
    requires !(IsCarried(db, t, operator, destination) && t.product in ItemsOf(parts))
    ensures Stamped(t, parts, operator, destination) == t
    decreases |parts|
  {
    if parts != [] {
      UnstampedStays(db, t, parts[..|parts| - 1], operator, destination);
    }
  }

  // Unloading takes exactly what the operator carries for the shop, and moves it to the buffer bin. Of the orders
  // concerned those ALLOCATED become ASSEMBLED that now have every product ready.
  lemma UnloadWrites(site: Site, db: Db, operator: Operator, destination: Destination, parts: seq<Part>, bin: Bin)
    ensures var d, items := Perform(site, db, UnloadBasket(operator, destination, parts, bin)), ItemsOf(parts);
            if forall p :: p in items <==> Carries(db, operator, destination, p)
            then
              && RowsMoved(db, d, Elems(items), READY_TO_SHIP, Some(bin)) && d.orders.Keys == db.orders.Keys
              && TasksStamped(db, d, operator, destination, parts)
              && (forall o :: o in db.orders ==>
                    d.orders[o] == if db.orders[o].status == ORDER_ALLOCATED && HasOneOf(db, o, items) && WholeIn(d, o, READY_TO_SHIP)
                                   then db.orders[o].(status := ORDER_ASSEMBLED) else db.orders[o])
            else d == db
  {
    var items := Elems(ItemsOf(parts));
    forall p
      ensures p in Basket(db, operator, destination) <==> Carries(db, operator, destination, p)
    {
      BasketIsCarried(db, operator, destination, p);
    }
    if UnloadOk(db, operator, destination, parts) {
      var d := Unloaded(db, operator, destination, parts, bin);
      UnloadStamps(db, operator, destination, parts, bin);
      assert d.products == BulkMoved(db, items, READY_TO_SHIP, Some(bin)).products;
      forall o | o in db.orders
        ensures o in OrdersOf(db, items) <==> HasOneOf(db, o, ItemsOf(parts))
      {
      }
    } else {
      var p :| p in items <==> p !in Basket(db, operator, destination);
    }
  }

  ghost predicate HasOneOf(db: Db, o: Order, items: seq<Product>) {
    exists p :: p in items && p in db.products && db.products[p].order == Some(o)
  }

  ghost predicate WholeIn(db: Db, o: Order, status: ProductStatus) {
    forall p :: p in db.products && db.products[p].order == Some(o) ==> db.products[p].status == status
  }

  // Shipping takes distinct products that are exactly those found ready in the bin among them (all of the bin's,
  // when none is named); their orders become SHIPPED when nothing of them is left, else PARTIALLY_SHIPPED.
  lemma ShipWrites(site: Site, db: Db, items: seq<Product>, bin: Bin)
    ensures var d := Perform(site, db, ShipItems(items, bin));
            if (forall i, j :: 0 <= i < j < |items| ==> items[i] != items[j])
               && (forall p :: p in items ==> p in db.products && db.products[p].bin == Some(bin) && db.products[p].status == READY_TO_SHIP)
               && (items == [] ==> forall p :: p in db.products && db.products[p].bin == Some(bin) ==> db.products[p].status != READY_TO_SHIP)
            then
              && RowsMoved(db, d, Elems(items), SHIPPED, None) && d.orders.Keys == db.orders.Keys && d.tasks == db.tasks
              && (forall o :: o in db.orders ==>
                    d.orders[o] == if HasOneOf(db, o, items) && db.orders[o].status in {ORDER_ALLOCATED, ORDER_ASSEMBLED, PARTIALLY_SHIPPED}
                                   then db.orders[o].(status := if WholeIn(d, o, SHIPPED) then ORDER_SHIPPED else PARTIALLY_SHIPPED) else db.orders[o])
            else d == db
  {
    var ids := Elems(items);
    assert ShipOk(db, bin, items) <==>
      && Distinct(items) && (forall p :: p in items ==> p in InBufferBin(db, bin, items))
      && (items == [] ==> InBufferBin(db, bin, items) == {});
    if ShipOk(db, bin, items) {
      ShippedRows(db, items);
    }
  }

  lemma ShippedRows(db: Db, items: seq<Product>)
    requires forall p :: p in items ==> p in db.products
    ensures var d := Shipped(db, items);
            && RowsMoved(db, d, Elems(items), SHIPPED, None) && d.orders.Keys == db.orders.Keys && d.tasks == db.tasks
            && (forall o :: o in db.orders ==>
                  d.orders[o] == if HasOneOf(db, o, items) && db.orders[o].status in {ORDER_ALLOCATED, ORDER_ASSEMBLED, PARTIALLY_SHIPPED}
                                 then db.orders[o].(status := if WholeIn(d, o, SHIPPED) then ORDER_SHIPPED else PARTIALLY_SHIPPED) else db.orders[o])
  {
    var ids, d := Elems(items), Shipped(db, items);
    var moved := BulkMoved(db, ids, SHIPPED, None);
    assert d.products == moved.products;
    forall o | o in db.orders
      ensures o in OrdersOf(db, ids) <==> HasOneOf(db, o, items)
      ensures HasOneOf(db, o, items) ==> SomeShipped(moved, o)
    {
      if HasOneOf(db, o, items) {
        var p :| p in items && p in db.products && db.products[p].order == Some(o);
        assert moved.products[p].status == SHIPPED;
      }
    }
  }

  // ----------------------------------------------------------------------- main results

  // Over every sequence of transactions, accepted or refused: each moves a product by one stage at
  // most and never back, and every product has exactly the task its status calls for.
  lemma StatusesMoveForward(site: Site, db: Db, ts: seq<Transaction>)
    requires Inv(db) && AllAdmissible(site, db, ts)
    ensures Inv(PerformAll(site, db, ts))
    ensures forall k :: 0 <= k < |ts| ==> StepsForward(PerformAll(site, db, ts[..k]), PerformAll(site, db, ts[..k + 1]))
  {
    ReachedInv(site, db, ts, |ts|);
    assert ts[..|ts|] == ts;
    forall k | 0 <= k < |ts|
      ensures StepsForward(PerformAll(site, db, ts[..k]), PerformAll(site, db, ts[..k + 1]))
    {
      ReachedInv(site, db, ts, k);
      StepsOn(site, db, ts, k);
    }
  }

  // Nothing picked gets stuck: every ASSEMBLED product lies in exactly one operator's basket for
  // exactly one destination, so an unload can carry it.
  lemma AssembledIsInOneBasket(db: Db, p: Product)
    requires Inv(db) && p in db.products && db.products[p].status == ASSEMBLED
    ensures exists operator, destination :: p in Basket(db, operator, destination)
    ensures forall o1, d1, o2, d2 :: p in Basket(db, o1, d1) && p in Basket(db, o2, d2) ==> o1 == o2 && d1 == d2
  {
    assert HasTask(db, p);
    var i :| 0 <= i < |db.tasks| && db.tasks[i].product == p;
    var t := db.tasks[i];
    assert InBasket(db, t, t.operator.value, t.destination);
    assert p in Basket(db, t.operator.value, t.destination);
    forall o, d | p in Basket(db, o, d)
      ensures o == t.operator.value && d == t.destination
    {
      var j :| 0 <= j < |db.tasks| && InBasket(db, db.tasks[j], o, d) && db.tasks[j].product == p;
      assert j == i;
    }
  }

  // Each unloaded product's task is stamped with the action whose signature covers the product.
  lemma {:induction false} StampedByItsPart(t: Task, parts: seq<Part>, operator: Operator, destination: Destination, k: nat)
    requires Distinct(ItemsOf(parts)) && k < |parts| && Stamps(t, parts[k].items, operator, destination)
    ensures Stamped(t, parts, operator, destination) == t.(action := Some(parts[k].action))
    decreases |parts|
  {
    var front, last := parts[..|parts| - 1], parts[|parts| - 1];
    assert ItemsOf(parts) == ItemsOf(front) + last.items;
    DistinctConcat(ItemsOf(front), last.items);
    if k < |front| {
      StampedByItsPart(t, front, operator, destination, k);
    } else {
      assert t.product !in ItemsOf(front);
      StampedKeeps(t, front, operator, destination);
    }
  }
}
