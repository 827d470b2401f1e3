// Concurrent ship transactions under READ COMMITTED: row locks held to commit, one snapshot a
// statement, and the two statements that decide an order's status
// (wms/internal/shipping/ship_signed.go, wms/internal/shipping/repository.go). ConcurrentFlow has ships
// among all other transactions; here a ship can also be run with lock and decision in one statement,
// which shows why the code has two.
module ConcurrentShips {
  import opened Basics

  type Tx = nat
  type Product = nat
  type Order = nat

  // Everything before the shipping buffer is one status here.
  datatype ProductStatus = UPSTREAM | READY_TO_SHIP | SHIPPED

  datatype OrderStatus = ALLOCATED | ASSEMBLED | PARTIALLY_SHIPPED | FULLY_SHIPPED

  // Where a submit has got to. seen is the snapshot its order statement started with.
  datatype Stage =
    | LockingItems(got: set<Product>)
    | ItemsShipped
    | LockingOrders(todo: set<Order>, locked: set<Order>, seen: map<Product, ProductStatus>)
    | OrdersUpdated(locked: set<Order>, decided: map<Order, OrderStatus>)

  datatype Ship = Ship(items: set<Product>, stage: Stage)

  // products and orders are the committed rows; shipments the item sets of committed ships.
  datatype State = State(products: map<Product, ProductStatus>, orders: map<Order, OrderStatus>,
                         open: map<Tx, Ship>, shipments: seq<set<Product>>)

  // products.order_id, and whether the status decision is a statement of its own, with a snapshot
  // taken after the lock wait. The code's value is true.
  datatype World = World(orderOf: map<Product, Order>, ownSnapshot: bool)

  datatype Step =
    | Begin(t: Tx, items: set<Product>)
    | LockItem(t: Tx, p: Product)
    | ShipItems(t: Tx)
    | ListOrders(t: Tx)
    | LockOrder(t: Tx, o: Order)
    | UpdateOrders(t: Tx)
    | Commit(t: Tx)
    | Abort(t: Tx)
    | ReachBuffer(p: Product)
    | AssembleOrder(o: Order)

  predicate HoldsProduct(s: State, t: Tx, p: Product) {
    && t in s.open
    && match s.open[t].stage
       case LockingItems(got) => p in got
       case _ => p in s.open[t].items
  }

  predicate HoldsOrder(s: State, t: Tx, o: Order) {
    && t in s.open
    && match s.open[t].stage
       case LockingOrders(_, locked, _) => o in locked
       case OrdersUpdated(locked, _) => o in locked
       case _ => false
  }

  function OrdersOf(w: World, items: set<Product>): set<Order> {
    set p | p in items && p in w.orderOf :: w.orderOf[p]
  }

  predicate Candidate(s: State, o: Order) {
    o in s.orders && s.orders[o] in {ALLOCATED, ASSEMBLED, PARTIALLY_SHIPPED}
  }

  function Candidates(w: World, s: State, items: set<Product>): set<Order> {
    set o | o in OrdersOf(w, items) && Candidate(s, o)
  }

  // A transaction sees the snapshot and its own writes.
  function Overlaid(products: map<Product, ProductStatus>, items: set<Product>): map<Product, ProductStatus> {
    map p | p in products :: if p in items then SHIPPED else products[p]
  }

  predicate SomeShipped(w: World, products: map<Product, ProductStatus>, o: Order) {
    exists p :: p in w.orderOf && w.orderOf[p] == o && p in products && products[p] == SHIPPED
  }

  predicate AllShipped(w: World, products: map<Product, ProductStatus>, o: Order) {
    forall p :: p in w.orderOf && w.orderOf[p] == o && p in products ==> products[p] == SHIPPED
  }

  // The CASE of the UPDATE; rows without a shipped product are not selected by it.
  function Decisions(w: World, products: map<Product, ProductStatus>, locked: set<Order>): map<Order, OrderStatus> {
    map o | o in locked && SomeShipped(w, products, o) :: if AllShipped(w, products, o) then FULLY_SHIPPED else PARTIALLY_SHIPPED
  }

  predicate AtStage(s: State, t: Tx, locking: bool) {
    t in s.open && (if locking then s.open[t].stage.LockingOrders? else s.open[t].stage.OrdersUpdated?)
  }

  ghost predicate Enabled(w: World, s: State, st: Step) {
    match st
    case Begin(t, _) => t !in s.open
    case LockItem(t, p) =>
      && t in s.open && s.open[t].stage.LockingItems? && p in s.open[t].items
      && p in s.products && s.products[p] == READY_TO_SHIP
      && forall u :: u != t ==> !HoldsProduct(s, u, p)
    // the rows found are as many as the items signed
    case ShipItems(t) => t in s.open && s.open[t].stage.LockingItems? && |s.open[t].stage.got| == |s.open[t].items|
    case ListOrders(t) => t in s.open && s.open[t].stage.ItemsShipped?
    case LockOrder(t, o) => AtStage(s, t, true) && o in s.open[t].stage.todo && forall u :: u != t ==> !HoldsOrder(s, u, o)
    case UpdateOrders(t) => AtStage(s, t, true) && s.open[t].stage.todo == {}
    case Commit(t) => AtStage(s, t, false)
    case Abort(t) => t in s.open
    case ReachBuffer(p) => p in s.products && s.products[p] == UPSTREAM && forall u :: !HoldsProduct(s, u, p)
    case AssembleOrder(o) => o in s.orders && s.orders[o] == ALLOCATED && forall u :: !HoldsOrder(s, u, o)
  }

  function At(s: State, t: Tx, stage: Stage): State
    requires t in s.open
  {
    s.(open := s.open[t := s.open[t].(stage := stage)])
  }

  function Apply(w: World, s: State, st: Step): State
    requires Enabled(w, s, st)
  {
    match st
    case Begin(t, items) => s.(open := s.open[t := Ship(items, LockingItems({}))])
    case LockItem(t, p) => At(s, t, LockingItems(s.open[t].stage.got + {p}))
    case ShipItems(t) => At(s, t, ItemsShipped)
    case ListOrders(t) =>
      At(s, t, LockingOrders(Candidates(w, s, s.open[t].items), {}, s.products))
    // once the wait is over the row's status is checked again
    case LockOrder(t, o) =>
      var g := s.open[t].stage;
      At(s, t, LockingOrders(g.todo - {o}, if Candidate(s, o) then g.locked + {o} else g.locked, g.seen))
    case UpdateOrders(t) =>
      var g := s.open[t].stage;
      At(s, t, OrdersUpdated(g.locked,
        Decisions(w, Overlaid(if w.ownSnapshot then s.products else g.seen, s.open[t].items), g.locked)))
    case Commit(t) =>
      State(Overlaid(s.products, s.open[t].items), s.orders + s.open[t].stage.decided, s.open - {t}, s.shipments + [s.open[t].items])
    case Abort(t) => s.(open := s.open - {t})
    case ReachBuffer(p) => s.(products := s.products[p := READY_TO_SHIP])
    case AssembleOrder(o) => s.(orders := s.orders[o := ASSEMBLED])
  }

  // Orders are not touched by shipping yet; every product's order exists.
  ghost predicate Fresh(w: World, s: State) {
    && s.open == map[] && s.shipments == []
    && (forall p :: p in w.orderOf ==> w.orderOf[p] in s.orders && p in s.products)
    && (forall p :: p in s.products ==> s.products[p] != SHIPPED)
    && (forall o :: o in s.orders ==> s.orders[o] in {ALLOCATED, ASSEMBLED})
  }

  ghost predicate IsRun(w: World, states: seq<State>, steps: seq<Step>) {
    && |states| == |steps| + 1 && Fresh(w, states[0])
    && forall k :: 0 <= k < |steps| ==> Enabled(w, states[k], steps[k]) && states[k + 1] == Apply(w, states[k], steps[k])
  }

  // ------------------------------------------------------------------------ invariants

  // The committed status of an order tells what was shipped of it.
  predicate OrderRight(w: World, products: map<Product, ProductStatus>, o: Order, status: OrderStatus) {
    if SomeShipped(w, products, o) then status == (if AllShipped(w, products, o) then FULLY_SHIPPED else PARTIALLY_SHIPPED)
    else status in {ALLOCATED, ASSEMBLED}
  }

  ghost predicate RightInv(w: World, s: State) {
    && (forall p :: p in w.orderOf ==> w.orderOf[p] in s.orders && p in s.products)
    && (forall o :: o in s.orders ==> OrderRight(w, s.products, o, s.orders[o]))
  }

  ghost predicate LockInv(s: State) {
    && (forall t, u, p :: HoldsProduct(s, t, p) && HoldsProduct(s, u, p) ==> t == u)
    && (forall t, u, o :: HoldsOrder(s, t, o) && HoldsOrder(s, u, o) ==> t == u)
    && (forall t, p :: HoldsProduct(s, t, p) ==> p in s.products && s.products[p] == READY_TO_SHIP)
  }

  ghost predicate StageOk(w: World, s: State, c: Ship) {
    match c.stage
    case LockingItems(got) => got <= c.items
    case ItemsShipped => true
    case LockingOrders(todo, locked, _) => todo + locked == OrdersOf(w, c.items)
    case OrdersUpdated(locked, decided) =>
      && locked == OrdersOf(w, c.items)
      && (w.ownSnapshot ==> decided == Decisions(w, Overlaid(s.products, c.items), locked))
  }

  ghost predicate StageInv(w: World, s: State) {
    forall t :: t in s.open ==> StageOk(w, s, s.open[t])
  }

  ghost predicate InShipment(s: State, i: int, p: Product) {
    0 <= i < |s.shipments| && p in s.shipments[i]
  }

  ghost predicate ShipmentInv(s: State) {
    && (forall i, p :: InShipment(s, i, p) ==> p in s.products && s.products[p] == SHIPPED)
    && (forall i, j, p :: InShipment(s, i, p) && InShipment(s, j, p) ==> i == j)
    && (forall p :: p in s.products && s.products[p] == SHIPPED ==> exists i :: InShipment(s, i, p))
  }

  ghost predicate Inv(w: World, s: State) {
    RightInv(w, s) && LockInv(s) && StageInv(w, s) && ShipmentInv(s)
  }

  // ------------------------------------------------------------ deciding an order's status

  // Two tables that agree on an order's products, up to not having been shipped, decide alike.
  ghost predicate AlikeFor(w: World, a: map<Product, ProductStatus>, b: map<Product, ProductStatus>, o: Order) {
    forall p :: p in w.orderOf && w.orderOf[p] == o ==> (p in a <==> p in b) && (p in a ==> (a[p] == SHIPPED <==> b[p] == SHIPPED))
  }

  lemma AlikeDecides(w: World, a: map<Product, ProductStatus>, b: map<Product, ProductStatus>, o: Order)
    requires AlikeFor(w, a, b, o)
    ensures SomeShipped(w, a, o) == SomeShipped(w, b, o) && AllShipped(w, a, o) == AllShipped(w, b, o)
  {
  }

  lemma AlikeDecisions(w: World, a: map<Product, ProductStatus>, b: map<Product, ProductStatus>, locked: set<Order>)
    requires forall o :: o in locked ==> AlikeFor(w, a, b, o)
    ensures Decisions(w, a, locked) == Decisions(w, b, locked)
  {
  }

  // A product waiting to be shipped keeps its order open to the statement that locks it.
  lemma HeldOrderIsCandidate(w: World, s: State, p: Product)
    requires RightInv(w, s) && p in w.orderOf && p in s.products && s.products[p] == READY_TO_SHIP
    ensures Candidate(s, w.orderOf[p])
  {
  }

  lemma AllOrdersCandidates(w: World, s: State, t: Tx)
    requires RightInv(w, s) && LockInv(s) && t in s.open && !s.open[t].stage.LockingItems?
    ensures forall o :: o in OrdersOf(w, s.open[t].items) ==> Candidate(s, o)
  {
    forall o | o in OrdersOf(w, s.open[t].items)
      ensures Candidate(s, o)
    {
      var p :| p in s.open[t].items && p in w.orderOf && w.orderOf[p] == o;
      assert HoldsProduct(s, t, p);
      HeldOrderIsCandidate(w, s, p);
    }
  }

  // -------------------------------------------------------------------- committing a ship

  lemma CommitKeepsRight(w: World, s: State, t: Tx)
    requires w.ownSnapshot && Inv(w, s) && Enabled(w, s, Commit(t))
    ensures RightInv(w, Apply(w, s, Commit(t)))
  {
  }

  // Another transaction that has decided holds other orders, so its decision still stands.
  lemma CommitKeepsOthers(w: World, s: State, t: Tx, u: Tx)
    requires Inv(w, s) && Enabled(w, s, Commit(t)) && u in s.open && u != t
    ensures StageOk(w, Apply(w, s, Commit(t)), s.open[u])
  {
    var c, d, s' := s.open[t], s.open[u], Apply(w, s, Commit(t));
    assert StageOk(w, s, c) && StageOk(w, s, d);
    if d.stage.OrdersUpdated? {
      var a, b := Overlaid(s.products, d.items), Overlaid(s'.products, d.items);
      forall o | o in d.stage.locked
        ensures AlikeFor(w, a, b, o)
      {
        assert HoldsOrder(s, u, o) && !HoldsOrder(s, t, o);
      }
      AlikeDecisions(w, a, b, d.stage.locked);
    }
  }

  lemma CommitKeepsLocks(w: World, s: State, t: Tx)
    requires LockInv(s) && Enabled(w, s, Commit(t))
    ensures LockInv(Apply(w, s, Commit(t)))
  {
    var s' := Apply(w, s, Commit(t));
    assert forall u, p :: HoldsProduct(s', u, p) ==> HoldsProduct(s, u, p) && u != t;
    assert forall u, o :: HoldsOrder(s', u, o) ==> HoldsOrder(s, u, o) && u != t;
    forall u, p | HoldsProduct(s', u, p)
      ensures p in s'.products && s'.products[p] == READY_TO_SHIP
    {
      assert HoldsProduct(s, u, p) && !HoldsProduct(s, t, p);
    }
  }

  lemma CommitKeepsShipments(w: World, s: State, t: Tx)
    requires LockInv(s) && ShipmentInv(s) && Enabled(w, s, Commit(t))
    ensures ShipmentInv(Apply(w, s, Commit(t)))
  {
    var items, s' := s.open[t].items, Apply(w, s, Commit(t));
    assert s'.shipments == s.shipments + [items];
    assert forall p :: p in items ==> HoldsProduct(s, t, p);
    assert forall i, p :: InShipment(s', i, p) <==> InShipment(s, i, p) || (i == |s.shipments| && p in items);
    forall p | p in s'.products && s'.products[p] == SHIPPED
      ensures exists i :: InShipment(s', i, p)
    {
      if p in items {
        assert InShipment(s', |s.shipments|, p);
      } else {
        var i :| InShipment(s, i, p);
        assert InShipment(s', i, p);
      }
    }
  }

  lemma CommitKeepsInv(w: World, s: State, t: Tx)
    requires w.ownSnapshot && Inv(w, s) && Enabled(w, s, Commit(t))
    ensures Inv(w, Apply(w, s, Commit(t)))
  {
    var s' := Apply(w, s, Commit(t));
    CommitKeepsRight(w, s, t);
    CommitKeepsLocks(w, s, t);
    CommitKeepsShipments(w, s, t);
    forall u | u in s'.open
      ensures StageOk(w, s', s'.open[u])
    {
      CommitKeepsOthers(w, s, t, u);
    }
  }

  // ------------------------------------------------------------------ the other steps

  lemma ShipmentsKept(s: State, s': State)
    requires ShipmentInv(s) && s'.shipments == s.shipments
    requires forall p :: p in s'.products && s'.products[p] == SHIPPED <==> p in s.products && s.products[p] == SHIPPED
    ensures ShipmentInv(s')
  {
    assert forall i, p :: InShipment(s', i, p) <==> InShipment(s, i, p);
    forall p | p in s'.products && s'.products[p] == SHIPPED
      ensures exists i :: InShipment(s', i, p)
    {
      var i :| InShipment(s, i, p);
      assert InShipment(s', i, p);
    }
  }

  // Steps inside one transaction change no committed row.
  predicate Inside(st: Step) {
    !st.Commit? && !st.ReachBuffer? && !st.AssembleOrder?
  }

  lemma InsideKeepsLocks(w: World, s: State, st: Step)
    requires LockInv(s) && StageInv(w, s) && Inside(st) && Enabled(w, s, st)
    ensures LockInv(Apply(w, s, st))
  {
    var s' := Apply(w, s, st);
    if st.ShipItems? {
      assert StageOk(w, s, s.open[st.t]);
      SubsetOfSameSize(s.open[st.t].stage.got, s.open[st.t].items);
    }
    assert forall u, p :: HoldsProduct(s', u, p) ==> HoldsProduct(s, u, p) || (st.LockItem? && u == st.t && p == st.p);
    assert forall u, o :: HoldsOrder(s', u, o) ==> HoldsOrder(s, u, o) || (st.LockOrder? && u == st.t && o == st.o);
  }

  lemma InsideKeepsStages(w: World, s: State, st: Step)
    requires Inv(w, s) && Inside(st) && Enabled(w, s, st)
    ensures StageInv(w, Apply(w, s, st))
  {
    var s' := Apply(w, s, st);
    if st.ListOrders? || st.LockOrder? {
      AllOrdersCandidates(w, s, st.t);
    }
    forall u | u in s'.open
      ensures StageOk(w, s', s'.open[u])
    {
      if u in s.open {
        assert StageOk(w, s, s.open[u]);
      }
    }
  }

  lemma ReachBufferKeepsInv(w: World, s: State, p: Product)
    requires Inv(w, s) && Enabled(w, s, ReachBuffer(p))
    ensures Inv(w, Apply(w, s, ReachBuffer(p)))
  {
    var s' := Apply(w, s, ReachBuffer(p));
    ShipmentsKept(s, s');
    forall o | o in s'.orders
      ensures OrderRight(w, s'.products, o, s'.orders[o])
    {
      AlikeDecides(w, s.products, s'.products, o);
    }
    forall u | u in s'.open
      ensures StageOk(w, s', s'.open[u])
    {
      assert StageOk(w, s, s.open[u]);
      if s.open[u].stage.OrdersUpdated? {
        AlikeDecisions(w, Overlaid(s.products, s.open[u].items), Overlaid(s'.products, s.open[u].items), s.open[u].stage.locked);
      }
    }
    assert forall u, q :: HoldsProduct(s', u, q) <==> HoldsProduct(s, u, q);
    assert forall u, o :: HoldsOrder(s', u, o) <==> HoldsOrder(s, u, o);
  }

  lemma AssembleOrderKeepsInv(w: World, s: State, o: Order)
    requires Inv(w, s) && Enabled(w, s, AssembleOrder(o))
    ensures Inv(w, Apply(w, s, AssembleOrder(o)))
  {
    var s' := Apply(w, s, AssembleOrder(o));
    ShipmentsKept(s, s');
    assert OrderRight(w, s.products, o, s.orders[o]);
    assert forall u, q :: HoldsProduct(s', u, q) <==> HoldsProduct(s, u, q);
    assert forall u, q :: HoldsOrder(s', u, q) <==> HoldsOrder(s, u, q);
    forall u | u in s'.open
      ensures StageOk(w, s', s'.open[u])
    {
      assert StageOk(w, s, s.open[u]);
    }
  }

  lemma StepKeepsInv(w: World, s: State, st: Step)
    requires w.ownSnapshot && Inv(w, s) && Enabled(w, s, st)
    ensures Inv(w, Apply(w, s, st))
  {
    match st
    case Commit(t) => CommitKeepsInv(w, s, t);
    case ReachBuffer(p) => ReachBufferKeepsInv(w, s, p);
    case AssembleOrder(o) => AssembleOrderKeepsInv(w, s, o);
    case _ =>
      InsideKeepsLocks(w, s, st);
      InsideKeepsStages(w, s, st);
      ShipmentsKept(s, Apply(w, s, st));
  }

  lemma {:induction false} RunKeepsInv(w: World, states: seq<State>, steps: seq<Step>, k: nat)
    requires w.ownSnapshot && IsRun(w, states, steps) && k < |states|
    ensures Inv(w, states[k])
    decreases k
  {
    if k > 0 {
      RunKeepsInv(w, states, steps, k - 1);
      StepKeepsInv(w, states[k - 1], steps[k - 1]);
    }
  }

  // ---------------------------------------------------------------------- main results

  // In every state of every run, whatever ships are open: an order of which something was shipped is
  // FULLY_SHIPPED exactly when all its products are, PARTIALLY_SHIPPED otherwise, and an order of
  // which nothing was shipped has kept its earlier status.
  lemma ShipsNeverStrandAnOrder(w: World, states: seq<State>, steps: seq<Step>, k: nat, o: Order)
    requires w.ownSnapshot && IsRun(w, states, steps) && k < |states| && o in states[k].orders
    ensures NotStranded(w, states[k], o)
  {
    RunKeepsInv(w, states, steps, k);
    RightIsNotStranded(w, states[k], o);
  }

  ghost predicate NotStranded(w: World, s: State, o: Order)
    requires o in s.orders
  {
    var own := set p | p in w.orderOf && w.orderOf[p] == o && p in s.products;
    && (s.orders[o] == FULLY_SHIPPED <==> own != {} && forall p :: p in own ==> s.products[p] == SHIPPED)
    && (s.orders[o] == PARTIALLY_SHIPPED <==>
          (exists p :: p in own && s.products[p] == SHIPPED) && (exists p :: p in own && s.products[p] != SHIPPED))
  }

  lemma RightIsNotStranded(w: World, s: State, o: Order)
    requires RightInv(w, s) && o in s.orders
    ensures NotStranded(w, s, o)
  {
    assert OrderRight(w, s.products, o, s.orders[o]);
    var own := set p | p in w.orderOf && w.orderOf[p] == o && p in s.products;
    assert forall p :: p in own <==> p in w.orderOf && w.orderOf[p] == o && p in s.products;
  }

  // Nothing is shipped twice, and what is SHIPPED was shipped by a committed transaction.
  lemma ShippedExactlyOnce(w: World, states: seq<State>, steps: seq<Step>, k: nat, p: Product)
    requires w.ownSnapshot && IsRun(w, states, steps) && k < |states|
    ensures p in states[k].products && states[k].products[p] == SHIPPED <==> exists i :: InShipment(states[k], i, p)
    ensures forall i, j :: InShipment(states[k], i, p) && InShipment(states[k], j, p) ==> i == j
  {
    RunKeepsInv(w, states, steps, k);
  }
}
