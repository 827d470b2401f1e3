// What holds over every interleaving of the warehouse's transactions.
module ConcurrentFlowResults {
  import opened Basics
  import opened WarehouseTables
  import opened ProductFlow
  import opened ConcurrentFlow
  import opened ConcurrentFlowSteps
  import opened ConcurrentFlowEffects

  // ------------------------------------------------------------------ every step, every run

  lemma BeginKeepsOk(site: Site, s: State, st: Step)
    requires StateOk(site, s) && Enabled(site, s, st) && Begins(st)
    ensures StateOk(site, Apply(site, s, st))
  {
    BegunOk(site, s.db, st);
    OpenedOk(site, s, st.t, Begun(s.db, st));
  }

  lemma BegunOk(site: Site, db: Db, st: Step)
    requires Begins(st)
    ensures var x := Begun(db, st); TxnOk(site, db, x) && ProductsHeld(x) == {} && TasksHeld(x) == {} && OrdersHeld(x) == {}
  {
  }

  lemma OpenedOk(site: Site, s: State, t: Tx, x: Txn)
    requires StateOk(site, s) && t !in s.open && TxnOk(site, s.db, x)
    requires ProductsHeld(x) == {} && TasksHeld(x) == {} && OrdersHeld(x) == {}
    ensures StateOk(site, s.(open := s.open[t := x]))
  {
  }

  lemma StatementOk(site: Site, s: State, st: Step)
    requires StateOk(site, s) && Enabled(site, s, st) && IsStatement(st)
    ensures var x := Stepped(s.db, st, s.open[st.t]); TxnOk(site, s.db, x) && ApartFromOthers(s, st.t, x)
  {
    match s.open[st.t]
    case Placing(_, _, _, _) => PlaceStep(site, s, st);
    case Allotting(_, _, _, _, _) => AllotStep(site, s, st);
    case Picking(_, _, _) => PickStep(site, s, st);
    case Unloading(_, _, _, _, _, _) => UnloadStep(site, s, st);
    case Shipping(_, _, _, _) => ShipStep(site, s, st);
  }

  lemma StatementKeepsOk(site: Site, s: State, st: Step)
    requires StateOk(site, s) && Enabled(site, s, st) && IsStatement(st)
    ensures StateOk(site, Apply(site, s, st))
  {
    StatementOk(site, s, st);
    ReplacedOk(site, s, st.t, Stepped(s.db, st, s.open[st.t]));
  }

  lemma ReplacedOk(site: Site, s: State, t: Tx, x: Txn)
    requires StateOk(site, s) && t in s.open && TxnOk(site, s.db, x) && ApartFromOthers(s, t, x)
    ensures StateOk(site, s.(open := s.open[t := x]))
  {
  }

  lemma EffectOk(site: Site, db: Db, x: Txn)
    requires Sane(db) && TxnOk(site, db, x) && Finished(x)
    ensures Sane(Effect(db, x)) && StepsForward(db, Effect(db, x)) && Later(db, Effect(db, x)) && Frame(db, Effect(db, x), x)
  {
    match x
    case Placing(_, _, _, _) => PlaceEffect(site, db, x);
    case Allotting(_, _, _, _, _) => AllotEffect(db, x);
    case Picking(_, _, _) => PickEffect(site, db, x);
    case Unloading(_, _, _, _, _, _) => UnloadEffect(db, x);
    case Shipping(_, _, _, _) => ShipEffect(site, db, x);
  }

  lemma CommitKeepsOk(site: Site, s: State, t: Tx)
    requires StateOk(site, s) && Enabled(site, s, Commit(t))
    ensures StateOk(site, Apply(site, s, Commit(t)))
  {
    var s', x := Apply(site, s, Commit(t)), s.open[t];
    EffectOk(site, s.db, x);
    forall u | u in s'.open
      ensures TxnOk(site, s'.db, s'.open[u])
    {
      FrameKeepsOthers(s.db, s'.db, x, s.open[u]);
      TxnStands(site, s.db, s'.db, s.open[u]);
    }
  }

  lemma StepKeepsOk(site: Site, s: State, st: Step)
    requires StateOk(site, s) && Enabled(site, s, st)
    ensures StateOk(site, Apply(site, s, st))
    ensures StepsForward(s.db, Apply(site, s, st).db) && Later(s.db, Apply(site, s, st).db)
  {
    if Begins(st) {
      BeginKeepsOk(site, s, st);
    } else if st.Commit? {
      CommitKeepsOk(site, s, st.t);
      EffectOk(site, s.db, s.open[st.t]);
    } else if !st.Abort? {
      StatementKeepsOk(site, s, st);
    }
  }

  lemma {:induction false} RunKeepsOk(site: Site, states: seq<State>, steps: seq<Step>, k: nat)
    requires IsRun(site, states, steps) && k < |states|
    ensures StateOk(site, states[k])
    decreases k
  {
    if k > 0 {
      RunKeepsOk(site, states, steps, k - 1);
      StepKeepsOk(site, states[k - 1], steps[k - 1]);
    }
  }

  // ------------------------------------------------------------------------ main results

  // Whatever is interleaved: a step moves a product one stage at most and never back, and every product
  // has exactly the task its status calls for.
  lemma StatusesMoveForward(site: Site, states: seq<State>, steps: seq<Step>, k: nat)
    requires IsRun(site, states, steps) && k < |states|
    ensures TasksMatch(states[k].db)
    ensures k < |steps| ==> StepsForward(states[k].db, states[k + 1].db)
  {
    RunKeepsOk(site, states, steps, k);
    if k < |steps| {
      StepKeepsOk(site, states[k], steps[k]);
    }
  }

  // Once past its check, and until it commits, what a transaction has signed is what it has locked, alone,
  // and every row still is what the check found: so the unguarded updates hit nothing else.
  lemma SignedItemsAreLocked(site: Site, states: seq<State>, steps: seq<Step>, k: nat, t: Tx)
    requires IsRun(site, states, steps) && k < |states| && t in states[k].open
    ensures ApartFromOthers(states[k], t, states[k].open[t]) && SignedIsLocked(site, states[k].db, states[k].open[t])
  {
    RunKeepsOk(site, states, steps, k);
    CheckedIsLocked(site, states[k].db, states[k].open[t]);
  }

  ghost predicate SignedIsLocked(site: Site, db: Db, x: Txn) {
    match x
    case Placing(items, _, held, checked) => checked ==> held == Elems(items) && PlaceOk(site, db, items)
    case Allotting(orders, stock, given, allotted, _) =>
      given.Keys <= stock && allotted <= orders && (forall p :: p in given ==> Unassigned(db, p)) && forall o :: o in allotted ==> o in db.orders && db.orders[o].status == NEW
    case Picking(_, p, stage) => stage.ProductLocked? ==> PickOk(db, p) && PendingFor(db, stage.i, p)
    case Unloading(operator, destination, parts, _, basket, stage) =>
      !stage.LockingBasket? ==> ConcurrentFlow.ProductsOf(basket) == Elems(ItemsOf(parts)) && Covered(db, operator, destination, parts)
    case Shipping(items, bin, got, stage) =>
      !stage.LockingItems? ==> Distinct(items) && got == Elems(items) && got <= InBufferBin(db, bin, items)
  }

  lemma CheckedIsLocked(site: Site, db: Db, x: Txn)
    requires TxnOk(site, db, x)
    ensures SignedIsLocked(site, db, x)
  {
    if x.Unloading? && !x.unloading.LockingBasket? {
      SignedInBasket(db, x);
    }
  }

  // Every commit leaves the rows as the transaction would running alone at that moment; an unload, all
  // rows but those of the orders it promotes.
  lemma CommitsAreSerial(site: Site, states: seq<State>, steps: seq<Step>, k: nat)
    requires IsRun(site, states, steps) && k < |steps| && steps[k].Commit? && steps[k].t in states[k].open
    ensures IsSerial(site, states[k].db, states[k].open[steps[k].t], states[k + 1].db)
  {
    var x := states[k].open[steps[k].t];
    RunKeepsOk(site, states, steps, k);
    EffectIsSerial(site, states[k].db, x);
  }

  ghost predicate IsSerial(site: Site, db: Db, x: Txn, d: Db) {
    match x
    case Placing(items, bin, _, _) => d == Perform(site, db, PlaceItems(items, bin))
    case Allotting(_, _, given, allotted, added) =>
      && d.products.Keys == db.products.Keys && d.orders.Keys == db.orders.Keys
      && d.tasks == db.tasks + added && NewTasks(db, given, added)
      && (forall p :: p in db.products && d.products[p] != db.products[p] ==> Unassigned(db, p) && p in given && d.products[p].order == Some(given[p]))
      && (forall o :: o in db.orders && d.orders[o] != db.orders[o] ==> db.orders[o].status == NEW && o in allotted)
    case Picking(operator, p, _) => d == Perform(site, db, PickItem(operator, p))
    case Unloading(operator, destination, parts, bin, _, _) => d == Unloaded(db, operator, destination, parts, bin).(orders := d.orders)
    case Shipping(items, bin, _, _) => d == Perform(site, db, ShipItems(items, bin))
  }

  lemma EffectIsSerial(site: Site, db: Db, x: Txn)
    requires Sane(db) && TxnOk(site, db, x) && Finished(x)
    ensures IsSerial(site, db, x, Effect(db, x))
  {
    match x
    case Placing(_, _, _, _) => PlaceEffect(site, db, x);
    case Allotting(_, _, _, _, _) =>
    case Picking(_, _, _) => PickEffect(site, db, x);
    case Unloading(_, _, _, _, _, _) => UnloadEffect(db, x);
    case Shipping(_, _, _, _) => ShipEffect(site, db, x);
  }

  // Whatever ships and unloads run together, an order's status tells what of it was shipped.
  lemma OrdersTellShipments(site: Site, states: seq<State>, steps: seq<Step>, k: nat, o: Order)
    requires IsRun(site, states, steps) && k < |states| && o in states[k].db.orders
    ensures OrderRight(states[k].db, o)
  {
    RunKeepsOk(site, states, steps, k);
  }

  // ------------------------------------------------------- orders left behind complete

  ghost predicate HasProduct(db: Db, o: Order) {
    exists p :: p in db.products && db.products[p].order == Some(o)
  }

  // All of it stands ready, and it is still ALLOCATED.
  ghost predicate LeftBehind(db: Db, o: Order) {
    IsAllocated(db, o) && HasProduct(db, o) && AllReady(db, o)
  }

  // The statement's snapshot showed another product of the order not ready yet.
  ghost predicate SawUnready(x: Txn, o: Order)
    requires x.Unloading? && x.unloading.Promoting?
  {
    exists q :: Unready(x.unloading.seen, Elems(ItemsOf(x.parts)), o, q)
  }

  predicate Unready(seen: Db, items: set<Product>, o: Order, q: Product) {
    q in seen.products && q !in items && seen.products[q].order == Some(o) && seen.products[q].status != READY_TO_SHIP
  }

  lemma SawAllReadyIff(db: Db, x: Txn, o: Order)
    requires x.Unloading? && x.unloading.Promoting?
    ensures AllReady(UnloadView(x.unloading.seen, x), o) <==> !SawUnready(x, o)
  {
    var seen, items := x.unloading.seen, Elems(ItemsOf(x.parts));
    var view := UnloadView(seen, x);
    assert forall q :: q in seen.products ==> view.products[q].order == seen.products[q].order;
    assert forall q :: q in seen.products ==> (view.products[q].status == READY_TO_SHIP <==> q in items || seen.products[q].status == READY_TO_SHIP);
    if !AllReady(view, o) {
      var q :| q in view.products && view.products[q].order == Some(o) && view.products[q].status != READY_TO_SHIP;
      assert Unready(seen, items, o, q);
    }
  }

  lemma ItemsOrderListed(db: Db, x: Txn, o: Order)
    requires x.Unloading? && x.unloading.Promoting? && PromotionOk(db, x)
    requires o in OrdersOf(db, Elems(ItemsOf(x.parts))) && IsAllocated(db, o)
    ensures o in Promotable(x.unloading.seen, x) <==> AllReady(UnloadView(x.unloading.seen, x), o)
  {
    var seen := x.unloading.seen;
    var p :| p in Elems(ItemsOf(x.parts)) && p in db.products && db.products[p].order == Some(o);
    assert seen.products[p] == db.products[p];
    assert o in OrdersOf(seen, Elems(ItemsOf(x.parts)));
    assert o in seen.orders && seen.orders[o].status != NEW;
    assert OrderStage(seen.orders[o].status) <= 1;
  }

  lemma PromotedIff(db: Db, x: Txn, o: Order)
    requires x.Unloading? && Finished(x) && PromotionOk(db, x)
    requires o in OrdersOf(db, Elems(ItemsOf(x.parts))) && IsAllocated(db, o)
    ensures o in x.unloading.locked <==> !SawUnready(x, o)
  {
    ItemsOrderListed(db, x, o);
    SawAllReadyIff(db, x, o);
  }

  lemma AfterUnload(db: Db, x: Txn, o: Order)
    requires x.Unloading? && Finished(x) && UnloadOkSoFar(db, x)
    requires o in OrdersOf(db, Elems(ItemsOf(x.parts))) && IsAllocated(db, o)
    ensures var d := Effect(db, x);
            HasProduct(d, o) && o in d.orders && d.orders[o].status == if o in x.unloading.locked then ORDER_ASSEMBLED else ORDER_ALLOCATED
  {
    UnloadedOrders(db, x);
    UnloadedProducts(db, x);
    var p :| p in Elems(ItemsOf(x.parts)) && p in db.products && db.products[p].order == Some(o);
    assert Effect(db, x).products[p].order == Some(o);
  }

  // An unload that commits leaves an order of its items complete but not promoted exactly when all of
  // the order is ready now and the snapshot of the promoting statement showed another product of it
  // not ready.
  lemma LeftBehindIff(db: Db, x: Txn, o: Order)
    requires x.Unloading? && Finished(x) && Sane(db) && UnloadOkSoFar(db, x)
    requires o in OrdersOf(db, Elems(ItemsOf(x.parts))) && IsAllocated(db, o)
    ensures LeftBehind(Effect(db, x), o) <==> AllReady(Effect(db, x), o) && SawUnready(x, o)
    ensures o in Effect(db, x).orders && (Effect(db, x).orders[o].status == ORDER_ASSEMBLED <==> !SawUnready(x, o))
  {
    PromotedIff(db, x, o);
    AfterUnload(db, x, o);
  }

  // The commit of an unload that leaves o behind.
  ghost predicate Misses(s: State, st: Step, o: Order) {
    && st.Commit? && st.t in s.open && s.open[st.t].Unloading? && s.open[st.t].unloading.Promoting?
    && o in OrdersOf(s.db, Elems(ItemsOf(s.open[st.t].parts))) && SawUnready(s.open[st.t], o)
  }

  // Rows of the order's products and its status did not change, or an unload missed it.
  ghost predicate AlikeFor(db: Db, d: Db, o: Order) {
    && (IsAllocated(d, o) ==> IsAllocated(db, o))
    && forall p :: p in d.products && d.products[p].order == Some(o) && d.products[p].status == READY_TO_SHIP ==>
         p in db.products && db.products[p].order == Some(o) && db.products[p].status == READY_TO_SHIP
  }

  lemma AlikeLeavesBehind(db: Db, d: Db, o: Order)
    requires AlikeFor(db, d, o) && LeftBehind(d, o) && Later(db, d)
    ensures LeftBehind(db, o)
  {
    var p :| p in d.products && d.products[p].order == Some(o);
    assert p in db.products && db.products[p].order == Some(o);
    forall q | q in db.products && db.products[q].order == Some(o)
      ensures db.products[q].status == READY_TO_SHIP
    {
      assert d.products[q].order == Some(o) && d.products[q].status == READY_TO_SHIP;
    }
  }

  lemma EffectIsAlike(site: Site, db: Db, x: Txn, o: Order)
    requires Sane(db) && TxnOk(site, db, x) && Finished(x) && LeftBehind(Effect(db, x), o)
    requires x.Unloading? ==> o !in OrdersOf(db, Elems(ItemsOf(x.parts)))
    ensures AlikeFor(db, Effect(db, x), o)
  {
    match x
    case Unloading(_, _, _, _, _, _) => UnloadIsAlike(db, x, o);
    case Allotting(_, _, _, _, _) => AllotIsAlike(db, x, o);
    case Shipping(_, _, _, _) => ShipIsAlike(db, x, o);
    case _ =>
  }

  lemma ShipIsAlike(db: Db, x: Txn, o: Order)
    requires x.Shipping? && Finished(x) && ShipOkSoFar(db, x) && LeftBehind(Effect(db, x), o)
    ensures AlikeFor(db, Effect(db, x), o)
  {
    ShippedProducts(db, x);
    DecidedShipped(ShipView(db, x), x.shipping.locked);
  }

  lemma DecidedShipped(view: Db, locked: set<Order>)
    ensures forall o :: o in Decisions(view, locked) ==> Decisions(view, locked)[o] in {PARTIALLY_SHIPPED, ORDER_SHIPPED}
  {
  }

  lemma UnloadIsAlike(db: Db, x: Txn, o: Order)
    requires x.Unloading? && Finished(x) && UnloadOkSoFar(db, x) && o !in OrdersOf(db, Elems(ItemsOf(x.parts)))
    ensures AlikeFor(db, Effect(db, x), o)
  {
    UnloadedOrders(db, x);
    UnloadedProducts(db, x);
  }

  lemma AllotIsAlike(db: Db, x: Txn, o: Order)
    requires x.Allotting? && Sane(db) && AllotOk(db, x) && LeftBehind(Effect(db, x), o)
    ensures AlikeFor(db, Effect(db, x), o)
  {
    var d := Effect(db, x);
    var p :| p in d.products && d.products[p].order == Some(o);
    assert p !in x.given && db.products[p].order == Some(o);
  }

  lemma CommitLeavesBehind(site: Site, db: Db, x: Txn, o: Order)
    requires Sane(db) && TxnOk(site, db, x) && Finished(x) && LeftBehind(Effect(db, x), o)
    requires x.Unloading? ==> o !in OrdersOf(db, Elems(ItemsOf(x.parts)))
    ensures LeftBehind(db, o)
  {
    EffectOk(site, db, x);
    EffectIsAlike(site, db, x, o);
    AlikeLeavesBehind(db, Effect(db, x), o);
  }

  lemma CommitFacts(site: Site, s: State, st: Step)
    requires StateOk(site, s) && Enabled(site, s, st) && st.Commit?
    ensures st.t in s.open && Sane(s.db) && TxnOk(site, s.db, s.open[st.t]) && Finished(s.open[st.t])
    ensures Apply(site, s, st).db == Effect(s.db, s.open[st.t])
  {
  }

  lemma RowsStay(site: Site, s: State, st: Step)
    requires Enabled(site, s, st) && !st.Commit?
    ensures Apply(site, s, st).db == s.db
  {
  }

  lemma LeftBehindStep(site: Site, s: State, st: Step, o: Order)
    requires StateOk(site, s) && Enabled(site, s, st) && LeftBehind(Apply(site, s, st).db, o)
    ensures LeftBehind(s.db, o) || Misses(s, st, o)
  {
    if st.Commit? {
      CommitFacts(site, s, st);
      EffectLeavesBehind(site, s.db, s.open[st.t], o);
    } else {
      RowsStay(site, s, st);
    }
  }

  lemma EffectLeavesBehind(site: Site, db: Db, x: Txn, o: Order)
    requires Sane(db) && TxnOk(site, db, x) && Finished(x) && LeftBehind(Effect(db, x), o)
    ensures LeftBehind(db, o) || (x.Unloading? && x.unloading.Promoting? && o in OrdersOf(db, Elems(ItemsOf(x.parts))) && SawUnready(x, o))
  {
    if x.Unloading? && o in OrdersOf(db, Elems(ItemsOf(x.parts))) {
      UnloadLeavesBehind(db, x, o);
    } else {
      CommitLeavesBehind(site, db, x, o);
    }
  }

  lemma UnloadLeavesBehind(db: Db, x: Txn, o: Order)
    requires x.Unloading? && Finished(x) && Sane(db) && UnloadOkSoFar(db, x)
    requires o in OrdersOf(db, Elems(ItemsOf(x.parts))) && LeftBehind(Effect(db, x), o)
    ensures SawUnready(x, o)
  {
    UnloadedOrders(db, x);
    assert IsAllocated(db, o);
    LeftBehindIff(db, x, o);
  }

  // ------------------------------------------------------------ which takes two unloads

  predicate Unloads(s: State, st: Step, q: Product) {
    && st.Commit? && st.t in s.open && s.open[st.t].Unloading? && q in ItemsOf(s.open[st.t].parts)
  }

  lemma ReadyOrigin(site: Site, db: Db, x: Txn, q: Product)
    requires TxnOk(site, db, x) && Finished(x) && q in db.products && db.products[q].status != READY_TO_SHIP
    requires q in Effect(db, x).products && Effect(db, x).products[q].status == READY_TO_SHIP
    ensures x.Unloading? && q in ItemsOf(x.parts)
  {
  }

  lemma {:induction false} TurnsAt(b: seq<bool>, i: nat, k: nat) returns (j: nat)
    requires i <= k < |b| && !b[i] && b[k]
    ensures i <= j < k && !b[j] && b[j + 1]
    decreases k
  {
    j := k - 1;
    if b[k - 1] {
      j := TurnsAt(b, i, k - 1);
    }
  }

  function ReadyOver(states: seq<State>, q: Product): (r: seq<bool>)
    ensures |r| == |states| && forall i :: 0 <= i < |states| ==> r[i] == (q in states[i].db.products && states[i].db.products[q].status == READY_TO_SHIP)
  {
    seq(|states|, i requires 0 <= i < |states| => q in states[i].db.products && states[i].db.products[q].status == READY_TO_SHIP)
  }

  // A product that turned ready was unloaded by a commit in between.
  lemma ReadyWasUnloaded(site: Site, states: seq<State>, steps: seq<Step>, i: nat, k: nat, q: Product) returns (j: nat)
    requires IsRun(site, states, steps) && i <= k < |states| && !ReadyOver(states, q)[i] && ReadyOver(states, q)[k]
    ensures i <= j < k && Unloads(states[j], steps[j], q)
  {
    j := TurnsAt(ReadyOver(states, q), i, k);
    TurnedReady(site, states, steps, j, q);
  }

  lemma TurnedReady(site: Site, states: seq<State>, steps: seq<Step>, j: nat, q: Product)
    requires IsRun(site, states, steps) && j < |steps| && !ReadyOver(states, q)[j] && ReadyOver(states, q)[j + 1]
    ensures Unloads(states[j], steps[j], q)
  {
    RunKeepsOk(site, states, steps, j);
    StepKeepsOk(site, states[j], steps[j]);
    if steps[j].Commit? {
      CommitFacts(site, states[j], steps[j]);
      ReadyOrigin(site, states[j].db, states[j].open[steps[j].t], q);
    } else {
      RowsStay(site, states[j], steps[j]);
    }
  }

  ghost predicate Promotes(s: State, t: Tx, seen: Db) {
    t in s.open && s.open[t].Unloading? && s.open[t].unloading.Promoting? && s.open[t].unloading.seen == seen
  }

  lemma SnapshotOrigin(site: Site, s: State, st: Step, t: Tx, seen: Db)
    requires Enabled(site, s, st) && Promotes(Apply(site, s, st), t, seen)
    ensures Promotes(s, t, seen) || (st == ListPromotable(t) && seen == s.db)
  {
    if IsStatement(st) && st.t == t {
      ListsSnapshot(s.db, st, s.open[t]);
    }
  }

  lemma ListsSnapshot(db: Db, st: Step, x: Txn)
    requires var y := Stepped(db, st, x); IsStatement(st) && y.Unloading? && y.unloading.Promoting?
    ensures var y := Stepped(db, st, x);
            && x.Unloading?
            && (st.ListPromotable? && x.unloading.TasksStamped? ==> y.unloading.seen == db)
            && (!(st.ListPromotable? && x.unloading.TasksStamped?) ==> x.unloading.Promoting? && y.unloading.seen == x.unloading.seen)
  {
  }

  // The snapshot is the table as it was when the statement began.
  lemma {:induction false} SnapshotIsPast(site: Site, states: seq<State>, steps: seq<Step>, k: nat, t: Tx, seen: Db)
    requires IsRun(site, states, steps) && k < |states| && Promotes(states[k], t, seen)
    ensures exists i :: 0 <= i < k && steps[i] == ListPromotable(t) && states[i].db == seen
    decreases k
  {
    if k > 0 {
      SnapshotOrigin(site, states[k - 1], steps[k - 1], t, seen);
      if Promotes(states[k - 1], t, seen) {
        SnapshotIsPast(site, states, steps, k - 1, t, seen);
      }
    }
  }

  // Between the start of t's promoting statement and step k another unload of order o committed.
  ghost predicate Overlapped(states: seq<State>, steps: seq<Step>, k: nat, t: Tx, o: Order)
    requires k < |steps| && |states| == |steps| + 1
  {
    exists i, j, q :: 0 <= i <= j < k && steps[i] == ListPromotable(t) && Unloads(states[j], steps[j], q)
                      && q in states[k].db.products && states[k].db.products[q].order == Some(o)
                      && t in states[k].open && states[k].open[t].Unloading? && q !in ItemsOf(states[k].open[t].parts)
  }

  lemma MissTakesTwo(site: Site, states: seq<State>, steps: seq<Step>, k: nat, o: Order)
    requires IsRun(site, states, steps) && k < |steps| && Misses(states[k], steps[k], o) && LeftBehind(states[k + 1].db, o)
    ensures Overlapped(states, steps, k, steps[k].t, o)
  {
    var t, x := steps[k].t, states[k].open[steps[k].t];
    var q := OtherTurnedReady(site, states, steps, k, o);
    SnapshotIsPast(site, states, steps, k, t, x.unloading.seen);
    var i :| 0 <= i < k && steps[i] == ListPromotable(t) && states[i].db == x.unloading.seen;
    var j := ReadyWasUnloaded(site, states, steps, i, k, q);
  }

  lemma OtherTurnedReady(site: Site, states: seq<State>, steps: seq<Step>, k: nat, o: Order) returns (q: Product)
    requires IsRun(site, states, steps) && k < |steps| && Misses(states[k], steps[k], o) && LeftBehind(states[k + 1].db, o)
    ensures var x := states[k].open[steps[k].t];
            && Unready(x.unloading.seen, Elems(ItemsOf(x.parts)), o, q)
            && q in states[k].db.products && states[k].db.products[q].order == Some(o) && states[k].db.products[q].status == READY_TO_SHIP
  {
    var x := states[k].open[steps[k].t];
    RunKeepsOk(site, states, steps, k);
    CommitFacts(site, states[k], steps[k]);
    q :| Unready(x.unloading.seen, Elems(ItemsOf(x.parts)), o, q);
    OtherIsReadyNow(states[k].db, x, o, q);
  }

  lemma OtherIsReadyNow(db: Db, x: Txn, o: Order, q: Product)
    requires x.Unloading? && Finished(x) && UnloadOkSoFar(db, x) && LeftBehind(Effect(db, x), o)
    requires Unready(x.unloading.seen, Elems(ItemsOf(x.parts)), o, q)
    ensures q in db.products && db.products[q].order == Some(o) && db.products[q].status == READY_TO_SHIP
  {
    UnloadedProducts(db, x);
  }

  ghost function LeftBehindOver(states: seq<State>, o: Order): (r: seq<bool>)
    ensures |r| == |states| && forall i :: 0 <= i < |states| ==> r[i] == LeftBehind(states[i].db, o)
  {
    seq(|states|, i requires 0 <= i < |states| => LeftBehind(states[i].db, o))
  }

  lemma LeftBehindTurns(site: Site, states: seq<State>, steps: seq<Step>, j: nat, o: Order)
    requires IsRun(site, states, steps) && j < |steps| && !LeftBehind(states[j].db, o) && LeftBehind(states[j + 1].db, o)
    ensures Misses(states[j], steps[j], o) && Overlapped(states, steps, j, steps[j].t, o)
  {
    RunKeepsOk(site, states, steps, j);
    LeftBehindStep(site, states[j], steps[j], o);
    MissTakesTwo(site, states, steps, j, o);
  }

  // Over every run: an order stands complete but not promoted only if an unload that committed missed it
  // so, while another unload of the same order committed after its snapshot was taken.
  lemma LeftBehindOnlyByRace(site: Site, states: seq<State>, steps: seq<Step>, k: nat, o: Order)
    requires IsRun(site, states, steps) && k < |states| && LeftBehind(states[k].db, o) && !LeftBehind(states[0].db, o)
    ensures exists j :: 0 <= j < k && Misses(states[j], steps[j], o) && Overlapped(states, steps, j, steps[j].t, o)
  {
    var j := TurnsAt(LeftBehindOver(states, o), 0, k);
    LeftBehindTurns(site, states, steps, j, o);
  }
}
