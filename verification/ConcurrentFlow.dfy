// Placing, allocating, picking, unloading and shipping under READ COMMITTED, interleaved in any way:
// rows locked one at a time and held to commit, one snapshot a statement, the row looked at again
// once a lock wait is over, updates seen by others at commit.
// (wms/internal/putaway/place_signed.go, wms/internal/assembly/{service,repository,unload_signed,unload_signed_repository}.go,
// wms/internal/shipping/{ship_signed,ship_signed_repository,repository}.go)
module ConcurrentFlow {
  import opened Basics
  import opened WarehouseTables
  import opened Allocation
  import opened ProductFlow

  type Tx = nat

  // i: the task the query found.
  datatype PickStage = LookingForTask(i: nat) | TaskLocked(i: nat) | ProductLocked(i: nat)

  // seen: the snapshot of the one statement that promotes orders.
  datatype UnloadStage =
    | LockingBasket(todo: set<nat>)
    | ItemsMoved
    | TasksStamped(stamped: set<nat>)
    | Promoting(stamped: set<nat>, todo: set<Order>, locked: set<Order>, seen: Db)

  datatype ShipStage =
    | LockingItems(todo: set<Product>)
    | ItemsShipped
    | LockingOrders(todo: set<Order>, locked: set<Order>)
    | OrdersDecided(locked: set<Order>, decided: map<Order, OrderStatus>)

  // held, stock, got: the rows locked so far; basket: tasks with their products.
  datatype Txn =
    | Placing(items: seq<Product>, bin: Bin, held: set<Product>, checked: bool)
    | Allotting(orders: set<Order>, stock: set<Product>, given: map<Product, Order>, allotted: set<Order>, added: seq<Task>)
    | Picking(operator: Operator, product: Product, picking: PickStage)
    | Unloading(operator: Operator, destination: Destination, parts: seq<Part>, bin: Bin, basket: set<(nat, Product)>, unloading: UnloadStage)
    | Shipping(items: seq<Product>, bin: Bin, got: set<Product>, shipping: ShipStage)

  // db: the committed rows.
  datatype State = State(db: Db, open: map<Tx, Txn>)

  datatype Step =
    | BeginPlace(t: Tx, items: seq<Product>, bin: Bin)
    | LockPlaced(t: Tx, p: Product)
    | CheckPlaced(t: Tx)
    | BeginAllocate(t: Tx)
    | LockNew(t: Tx, o: Order)
    | LockFree(t: Tx, p: Product)
    | AllotOrder(t: Tx, o: Order, picks: seq<Pick>, destination: Destination, sectionOf: Bin -> Section)
    | BeginPick(t: Tx, operator: Operator, p: Product, i: nat)
    | LockPending(t: Tx)
    | LockPicked(t: Tx)
    | BeginUnload(t: Tx, operator: Operator, destination: Destination, parts: seq<Part>, bin: Bin)
    | LockBasketRow(t: Tx, i: nat)
    | MoveItems(t: Tx)
    | StampTasks(t: Tx)
    | ListPromotable(t: Tx)
    | LockPromoted(t: Tx, o: Order)
    | BeginShip(t: Tx, items: seq<Product>, bin: Bin)
    | LockShipped(t: Tx, p: Product)
    | MarkShipped(t: Tx)
    | ListOrders(t: Tx)
    | LockOrder(t: Tx, o: Order)
    | DecideOrders(t: Tx)
    | Commit(t: Tx)
    | Abort(t: Tx)

  // --------------------------------------------------------------------------- row locks

  function ProductsOf(rows: set<(nat, Product)>): set<Product> {
    set r | r in rows :: r.1
  }

  function TasksOf(rows: set<(nat, Product)>): set<nat> {
    set r | r in rows :: r.0
  }

  function ProductsHeld(x: Txn): set<Product> {
    match x
    case Placing(_, _, held, _) => held
    case Allotting(_, stock, _, _, _) => stock
    case Picking(_, p, stage) => if stage.ProductLocked? then {p} else {}
    case Unloading(_, _, parts, _, basket, stage) => ProductsOf(basket) + if stage.LockingBasket? then {} else Elems(ItemsOf(parts))
    case Shipping(items, _, got, stage) => got + if stage.LockingItems? then {} else Elems(items)
  }

  function TasksHeld(x: Txn): set<nat> {
    match x
    case Picking(_, _, stage) => if stage.LookingForTask? then {} else {stage.i}
    case Unloading(_, _, _, _, basket, stage) => TasksOf(basket) + if stage.TasksStamped? || stage.Promoting? then stage.stamped else {}
    case _ => {}
  }

  function OrdersHeld(x: Txn): set<Order> {
    match x
    case Allotting(orders, _, _, _, _) => orders
    case Unloading(_, _, _, _, _, stage) => if stage.Promoting? then stage.locked else {}
    case Shipping(_, _, _, stage) => if stage.LockingOrders? || stage.OrdersDecided? then stage.locked else {}
    case _ => {}
  }

  ghost predicate ProductFree(s: State, t: Tx, p: Product) {
    forall u :: u in s.open && u != t ==> p !in ProductsHeld(s.open[u])
  }

  ghost predicate TaskFree(s: State, t: Tx, i: nat) {
    forall u :: u in s.open && u != t ==> i !in TasksHeld(s.open[u])
  }

  ghost predicate OrderFree(s: State, t: Tx, o: Order) {
    forall u :: u in s.open && u != t ==> o !in OrdersHeld(s.open[u])
  }

  // ------------------------------------------------------------------------- statements

  predicate Unassigned(db: Db, p: Product) {
    p in db.products && db.products[p].status == STORED && db.products[p].order == None
  }

  function BasketRows(db: Db, operator: Operator, destination: Destination): set<nat> {
    set i | 0 <= i < |db.tasks| && InBasket(db, db.tasks[i], operator, destination)
  }

  // WHERE of StampTaskUnload, over all parts.
  function Stampable(db: Db, items: seq<Product>, operator: Operator, destination: Destination): set<nat> {
    set i | 0 <= i < |db.tasks| && Stamps(db.tasks[i], items, operator, destination)
  }

  // What the promoting statement sees: its snapshot and the items it has moved itself.
  function UnloadView(seen: Db, x: Txn): Db
    requires x.Unloading?
  {
    BulkMoved(seen, Elems(ItemsOf(x.parts)), READY_TO_SHIP, Some(x.bin))
  }

  predicate IsAllocated(db: Db, o: Order) {
    o in db.orders && db.orders[o].status == ORDER_ALLOCATED
  }

  function Promotable(seen: Db, x: Txn): set<Order>
    requires x.Unloading?
  {
    set o | o in OrdersOf(seen, Elems(ItemsOf(x.parts))) && IsAllocated(seen, o) && AllReady(UnloadView(seen, x), o)
  }

  predicate IsCandidate(db: Db, o: Order) {
    o in db.orders && db.orders[o].status in {ORDER_ALLOCATED, ORDER_ASSEMBLED, PARTIALLY_SHIPPED}
  }

  // The CASE of the update, for the locked orders with something shipped.
  function Decisions(view: Db, locked: set<Order>): map<Order, OrderStatus> {
    map o | o in locked && SomeShipped(view, o) :: if AllShipped(view, o) then ORDER_SHIPPED else PARTIALLY_SHIPPED
  }

  function ShipView(db: Db, x: Txn): Db
    requires x.Shipping?
  {
    BulkMoved(db, Elems(x.items), SHIPPED, None)
  }

  ghost predicate FitsPicks(db: Db, x: Txn, picks: seq<Pick>)
    requires x.Allotting?
  {
    && (forall k :: 0 <= k < |picks| ==>
          && picks[k].product in x.stock && picks[k].product !in x.given && picks[k].product in db.products
          && picks[k].sku == db.products[picks[k].product].sku && db.products[picks[k].product].bin == Some(picks[k].bin))
    && (forall k, l :: 0 <= k < l < |picks| ==> picks[k].product != picks[l].product)
  }

  function Assignments(picks: seq<Pick>, o: Order): map<Product, Order> {
    map p | p in Allocation.ProductsOf(picks) :: o
  }

  // ------------------------------------------------------------------------------- steps

  predicate Begins(st: Step) {
    st.BeginPlace? || st.BeginAllocate? || st.BeginPick? || st.BeginUnload? || st.BeginShip?
  }

  predicate Finished(x: Txn) {
    match x
    case Placing(_, _, _, checked) => checked
    case Allotting(_, _, _, _, _) => true
    case Picking(_, _, stage) => stage.ProductLocked?
    case Unloading(_, _, _, _, _, stage) => stage.Promoting? && stage.todo == {}
    case Shipping(_, _, _, stage) => stage.OrdersDecided?
  }

  ghost predicate Enabled(site: Site, s: State, st: Step) {
    if Begins(st) then st.t !in s.open && (st.BeginPick? ==> PendingFor(s.db, st.i, st.p))
    else st.t in s.open && CanStep(site, s, st, s.open[st.t])
  }

  ghost predicate CanStep(site: Site, s: State, st: Step, x: Txn)
    requires !Begins(st) && st.t in s.open && s.open[st.t] == x
  {
    match st
    case LockPlaced(t, p) => x.Placing? && !x.checked && p in x.items && p in s.db.products && ProductFree(s, t, p)
    case CheckPlaced(t) => x.Placing? && !x.checked && x.held == Elems(x.items) && PlaceOk(site, s.db, x.items)
    // orders and stock are taken with SKIP LOCKED
    case LockNew(t, o) => x.Allotting? && o in s.db.orders && s.db.orders[o].status == NEW && OrderFree(s, t, o)
    case LockFree(t, p) => x.Allotting? && Unassigned(s.db, p) && ProductFree(s, t, p)
    case AllotOrder(t, o, picks, _, _) => x.Allotting? && o in x.orders && o !in x.allotted && FitsPicks(s.db, x, picks)
    case LockPending(t) => x.Picking? && x.picking.LookingForTask? && TaskFree(s, t, x.picking.i) && PendingFor(s.db, x.picking.i, x.product)
    case LockPicked(t) =>
      && x.Picking? && x.picking.TaskLocked? && ProductFree(s, t, x.product)
      && x.product in s.db.products && s.db.products[x.product].status == ALLOCATED
    case LockBasketRow(t, i) =>
      && x.Unloading? && x.unloading.LockingBasket? && i in x.unloading.todo && i < |s.db.tasks|
      && TaskFree(s, t, i) && ProductFree(s, t, s.db.tasks[i].product)
    // the basket locked is the set signed; the update by id waits for whoever holds one of the rows
    case MoveItems(t) =>
      && x.Unloading? && x.unloading.LockingBasket? && x.unloading.todo == {}
      && |ProductsOf(x.basket)| == |Elems(ItemsOf(x.parts))| && ProductsOf(x.basket) <= Elems(ItemsOf(x.parts))
      && forall p :: p in ItemsOf(x.parts) ==> ProductFree(s, t, p)
    case StampTasks(t) =>
      && x.Unloading? && x.unloading.ItemsMoved?
      && forall i :: i in Stampable(s.db, ItemsOf(x.parts), x.operator, x.destination) ==> TaskFree(s, t, i)
    case ListPromotable(t) => x.Unloading? && x.unloading.TasksStamped?
    case LockPromoted(t, o) => x.Unloading? && x.unloading.Promoting? && o in x.unloading.todo && OrderFree(s, t, o)
    case LockShipped(t, p) => x.Shipping? && x.shipping.LockingItems? && p in x.shipping.todo && ProductFree(s, t, p)
    case MarkShipped(t) =>
      && x.Shipping? && x.shipping.LockingItems? && x.shipping.todo == {} && |x.got| == |x.items|
      && |Elems(x.items) * s.db.products.Keys| == |x.items|
      && forall p :: p in x.items ==> ProductFree(s, t, p)
    case ListOrders(t) => x.Shipping? && x.shipping.ItemsShipped?
    case LockOrder(t, o) => x.Shipping? && x.shipping.LockingOrders? && o in x.shipping.todo && OrderFree(s, t, o)
    case DecideOrders(t) => x.Shipping? && x.shipping.LockingOrders? && x.shipping.todo == {}
    case Commit(t) => Finished(x)
    case Abort(t) => true
  }

  function Begun(db: Db, st: Step): Txn
    requires Begins(st)
  {
    match st
    case BeginPlace(_, items, bin) => Placing(items, bin, {}, false)
    case BeginAllocate(_) => Allotting({}, {}, map[], {}, [])
    case BeginPick(_, operator, p, i) => Picking(operator, p, LookingForTask(i))
    case BeginUnload(_, operator, destination, parts, bin) =>
      Unloading(operator, destination, parts, bin, {}, LockingBasket(BasketRows(db, operator, destination)))
    case BeginShip(_, items, bin) => Shipping(items, bin, {}, LockingItems(InBufferBin(db, bin, items)))
  }

  // What a statement makes of its transaction; after a lock wait the row counts only if it still fits.
  function Stepped(db: Db, st: Step, x: Txn): Txn
  {
    match st
    case LockPlaced(_, p) => if x.Placing? then x.(held := x.held + {p}) else x
    case CheckPlaced(_) => if x.Placing? then x.(checked := true) else x
    case LockNew(_, o) => if x.Allotting? then x.(orders := x.orders + {o}) else x
    case LockFree(_, p) => if x.Allotting? then x.(stock := x.stock + {p}) else x
    case AllotOrder(_, o, picks, destination, sectionOf) =>
      if x.Allotting? then
        x.(given := x.given + Assignments(picks, o), allotted := x.allotted + {o},
           added := x.added + Allocation.TasksOf(picks, o, destination, sectionOf))
      else x
    case LockPending(_) => if x.Picking? then x.(picking := TaskLocked(x.picking.i)) else x
    case LockPicked(_) => if x.Picking? then x.(picking := ProductLocked(x.picking.i)) else x
    case LockBasketRow(_, i) =>
      if x.Unloading? && x.unloading.LockingBasket? && i < |db.tasks| then
        x.(basket := if InBasket(db, db.tasks[i], x.operator, x.destination) then x.basket + {(i, db.tasks[i].product)} else x.basket,
           unloading := LockingBasket(x.unloading.todo - {i}))
      else x
    case MoveItems(_) => if x.Unloading? then x.(unloading := ItemsMoved) else x
    case StampTasks(_) => if x.Unloading? then x.(unloading := TasksStamped(Stampable(db, ItemsOf(x.parts), x.operator, x.destination))) else x
    case ListPromotable(_) =>
      if x.Unloading? && x.unloading.TasksStamped? then x.(unloading := Promoting(x.unloading.stamped, Promotable(db, x), {}, db)) else x
    case LockPromoted(_, o) =>
      if x.Unloading? && x.unloading.Promoting? then
        x.(unloading := x.unloading.(todo := x.unloading.todo - {o}, locked := if IsAllocated(db, o) then x.unloading.locked + {o} else x.unloading.locked))
      else x
    case LockShipped(_, p) =>
      if x.Shipping? && x.shipping.LockingItems? then
        x.(got := if p in InBufferBin(db, x.bin, x.items) then x.got + {p} else x.got, shipping := LockingItems(x.shipping.todo - {p}))
      else x
    case MarkShipped(_) => if x.Shipping? then x.(shipping := ItemsShipped) else x
    case ListOrders(_) => if x.Shipping? then x.(shipping := LockingOrders(set o | o in OrdersOf(db, x.got) && IsCandidate(db, o), {})) else x
    case LockOrder(_, o) =>
      if x.Shipping? && x.shipping.LockingOrders? then
        x.(shipping := x.shipping.(todo := x.shipping.todo - {o}, locked := if IsCandidate(db, o) then x.shipping.locked + {o} else x.shipping.locked))
      else x
    case DecideOrders(_) =>
      if x.Shipping? && x.shipping.LockingOrders? then
        x.(shipping := OrdersDecided(x.shipping.locked, Decisions(ShipView(db, x), x.shipping.locked)))
      else x
    case _ => x
  }

  // What a commit makes visible.
  function Effect(db: Db, x: Txn): Db
    requires Finished(x)
  {
    match x
    case Placing(items, bin, _, _) => BulkMoved(db, Elems(items), STORED, Some(bin))
    case Allotting(_, _, given, allotted, added) =>
      db.(products := map p | p in db.products :: if p in given then db.products[p].(status := ALLOCATED, order := Some(given[p])) else db.products[p],
          orders := map o | o in db.orders :: if o in allotted then db.orders[o].(status := ORDER_ALLOCATED) else db.orders[o],
          tasks := db.tasks + added)
    case Picking(operator, p, stage) =>
      BulkMoved(db, {p}, ASSEMBLED, None).(tasks :=
        seq(|db.tasks|, j requires 0 <= j < |db.tasks| => if j == stage.i then db.tasks[j].(done := true, operator := Some(operator)) else db.tasks[j]))
    case Unloading(operator, destination, parts, bin, _, stage) =>
      BulkMoved(db, Elems(ItemsOf(parts)), READY_TO_SHIP, Some(bin)).(
        tasks := seq(|db.tasks|, j requires 0 <= j < |db.tasks| => if j in stage.stamped then Stamped(db.tasks[j], parts, operator, destination) else db.tasks[j]),
        orders := map o | o in db.orders :: if o in stage.locked then db.orders[o].(status := ORDER_ASSEMBLED) else db.orders[o])
    case Shipping(items, _, _, stage) =>
      BulkMoved(db, Elems(items), SHIPPED, None).(
        orders := map o | o in db.orders :: if o in stage.decided then db.orders[o].(status := stage.decided[o]) else db.orders[o])
  }

  function Apply(site: Site, s: State, st: Step): State
    requires Enabled(site, s, st)
  {
    if Begins(st) then s.(open := s.open[st.t := Begun(s.db, st)])
    else if st.Commit? then State(Effect(s.db, s.open[st.t]), s.open - {st.t})
    else if st.Abort? then s.(open := s.open - {st.t})
    else s.(open := s.open[st.t := Stepped(s.db, st, s.open[st.t])])
  }

  ghost predicate IsRun(site: Site, states: seq<State>, steps: seq<Step>) {
    && |states| == |steps| + 1 && states[0].open == map[] && Sane(states[0].db)
    && forall k :: 0 <= k < |steps| ==> Enabled(site, states[k], steps[k]) && states[k + 1] == Apply(site, states[k], steps[k])
  }

  // -------------------------------------------------------------- the committed rows

  // An order's status tells what was shipped of it, and ASSEMBLED that all of it is ready.
  ghost predicate OrderRight(db: Db, o: Order)
    requires o in db.orders
  {
    if SomeShipped(db, o) then db.orders[o].status == (if AllShipped(db, o) then ORDER_SHIPPED else PARTIALLY_SHIPPED)
    else db.orders[o].status in {NEW, ORDER_ALLOCATED, ORDER_ASSEMBLED} && (db.orders[o].status == ORDER_ASSEMBLED ==> AllReady(db, o))
  }

  ghost predicate OrdersRight(db: Db) {
    forall o :: o in db.orders ==> OrderRight(db, o)
  }

  ghost predicate Sane(db: Db) {
    ProductFlow.Inv(db) && OrdersRight(db)
  }
}
