// Every transaction that is accepted running alone gets through the statements of the interleaved model, and
// leaves the same rows: the locks and checks of ConcurrentFlow shut nothing out.
module ConcurrentFlowAlone {
  import opened Basics
  import opened WarehouseTables
  import opened Allocation
  import opened AllocationResults
  import opened ProductFlow
  import opened ConcurrentFlow
  import opened Runs

  ghost function Next(site: Site): (State, Step, State) -> bool {
    (s: State, st: Step, s': State) => Enabled(site, s, st) && s' == Apply(site, s, st)
  }

  // A run from one state to another.
  ghost predicate Leads(site: Site, states: seq<State>, steps: seq<Step>, s: State, s': State) {
    Path(Next(site), states, steps) && states[0] == s && states[|steps|] == s'
  }

  function With(db: Db, t: Tx, x: Txn): State {
    State(db, map[t := x])
  }

  lemma OneStep(site: Site, s: State, st: Step, s': State) returns (states: seq<State>, steps: seq<Step>)
    requires Enabled(site, s, st) && s' == Apply(site, s, st)
    ensures Leads(site, states, steps, s, s')
  {
    states, steps := [s, s'], [st];
  }

  lemma NoStep(site: Site, s: State) returns (states: seq<State>, steps: seq<Step>)
    ensures Leads(site, states, steps, s, s)
  {
    states, steps := [s], [];
  }

  lemma Then(site: Site, a: seq<State>, x: seq<Step>, b: seq<State>, y: seq<Step>, s: State, m: State, e: State)
    returns (states: seq<State>, steps: seq<Step>)
    requires Leads(site, a, x, s, m) && Leads(site, b, y, m, e)
    ensures Leads(site, states, steps, s, e)
  {
    states, steps := Joined(Next(site), a, x, b, y);
  }

  // A step, and then a run.
  lemma StepThen(site: Site, s: State, st: Step, m: State, b: seq<State>, y: seq<Step>, e: State) returns (states: seq<State>, steps: seq<Step>)
    requires Enabled(site, s, st) && m == Apply(site, s, st) && Leads(site, b, y, m, e)
    ensures Leads(site, states, steps, s, e)
  {
    var a, x := OneStep(site, s, st, m);
    states, steps := Then(site, a, x, b, y, s, m, e);
  }

  // A run, and then a step.
  lemma ThenStep(site: Site, a: seq<State>, x: seq<Step>, s: State, m: State, st: Step, e: State) returns (states: seq<State>, steps: seq<Step>)
    requires Leads(site, a, x, s, m) && Enabled(site, m, st) && e == Apply(site, m, st)
    ensures Leads(site, states, steps, s, e)
  {
    var b, y := OneStep(site, m, st, e);
    states, steps := Then(site, a, x, b, y, s, m, e);
  }

  // ------------------------------------------------------------------------------- placing

  lemma {:induction false} LocksItems(site: Site, db: Db, t: Tx, items: seq<Product>, bin: Bin, held: set<Product>, todo: set<Product>)
    returns (states: seq<State>, steps: seq<Step>)
    requires forall p :: p in todo ==> p in items && p in db.products
    ensures Leads(site, states, steps, With(db, t, Placing(items, bin, held, false)), With(db, t, Placing(items, bin, held + todo, false)))
    decreases |todo|
  {
    if todo == {} {
      assert held + todo == held;
      states, steps := NoStep(site, With(db, t, Placing(items, bin, held, false)));
    } else {
      var p :| p in todo;
      states, steps := LocksItems(site, db, t, items, bin, held + {p}, todo - {p});
      assert held + {p} + (todo - {p}) == held + todo;
      var a, x := LocksItem(site, db, t, items, bin, held, p);
      states, steps := Then(site, a, x, states, steps, With(db, t, Placing(items, bin, held, false)), With(db, t, Placing(items, bin, held + {p}, false)),
                            With(db, t, Placing(items, bin, held + todo, false)));
    }
  }

  lemma LocksItem(site: Site, db: Db, t: Tx, items: seq<Product>, bin: Bin, held: set<Product>, p: Product) returns (states: seq<State>, steps: seq<Step>)
    requires p in items && p in db.products
    ensures Leads(site, states, steps, With(db, t, Placing(items, bin, held, false)), With(db, t, Placing(items, bin, held + {p}, false)))
  {
    states, steps := OneStep(site, With(db, t, Placing(items, bin, held, false)), LockPlaced(t, p), With(db, t, Placing(items, bin, held + {p}, false)));
  }

  lemma PlaceGetsThrough(site: Site, db: Db, t: Tx, items: seq<Product>, bin: Bin) returns (states: seq<State>, steps: seq<Step>)
    requires PlaceOk(site, db, items)
    ensures Leads(site, states, steps, State(db, map[]), State(Perform(site, db, PlaceItems(items, bin)), map[]))
  {
    var start, begun, locked := State(db, map[]), With(db, t, Placing(items, bin, {}, false)), With(db, t, Placing(items, bin, Elems(items), false));
    var more, on := LocksItems(site, db, t, items, bin, {}, Elems(items));
    assert {} + Elems(items) == Elems(items);
    states, steps := OneStep(site, start, BeginPlace(t, items, bin), begun);
    states, steps := Then(site, states, steps, more, on, start, begun, locked);
    more, on := CommitsPlace(site, db, t, items, bin);
    states, steps := Then(site, states, steps, more, on, start, locked, State(Perform(site, db, PlaceItems(items, bin)), map[]));
  }

  lemma CommitsPlace(site: Site, db: Db, t: Tx, items: seq<Product>, bin: Bin) returns (states: seq<State>, steps: seq<Step>)
    requires PlaceOk(site, db, items)
    ensures Leads(site, states, steps, With(db, t, Placing(items, bin, Elems(items), false)), State(Perform(site, db, PlaceItems(items, bin)), map[]))
  {
    var locked, checked := With(db, t, Placing(items, bin, Elems(items), false)), With(db, t, Placing(items, bin, Elems(items), true));
    states, steps := OneStep(site, locked, CheckPlaced(t), checked);
    assert checked.open - {t} == map[];
    states, steps := ThenStep(site, states, steps, locked, checked, Commit(t), State(Perform(site, db, PlaceItems(items, bin)), map[]));
  }

  // ------------------------------------------------------------------------------- picking

  lemma PickGetsThrough(site: Site, db: Db, t: Tx, operator: Operator, p: Product) returns (states: seq<State>, steps: seq<Step>)
    requires TasksMatch(db) && PickOk(db, p)
    ensures Leads(site, states, steps, State(db, map[]), State(Perform(site, db, PickItem(operator, p)), map[]))
  {
    var i: nat :| PendingFor(db, i, p);
    var start, locked := State(db, map[]), With(db, t, Picking(operator, p, ProductLocked(i)));
    states, steps := LocksPick(site, db, t, operator, p, i);
    var more, on := CommitsPick(site, db, t, operator, p, i);
    states, steps := Then(site, states, steps, more, on, start, locked, State(Perform(site, db, PickItem(operator, p)), map[]));
  }

  lemma LocksPick(site: Site, db: Db, t: Tx, operator: Operator, p: Product, i: nat) returns (states: seq<State>, steps: seq<Step>)
    requires PickOk(db, p) && PendingFor(db, i, p)
    ensures Leads(site, states, steps, State(db, map[]), With(db, t, Picking(operator, p, ProductLocked(i))))
  {
    var begun, s1 := With(db, t, Picking(operator, p, LookingForTask(i))), With(db, t, Picking(operator, p, TaskLocked(i)));
    states, steps := OneStep(site, State(db, map[]), BeginPick(t, operator, p, i), begun);
    states, steps := ThenStep(site, states, steps, State(db, map[]), begun, LockPending(t), s1);
    states, steps := ThenStep(site, states, steps, State(db, map[]), s1, LockPicked(t), With(db, t, Picking(operator, p, ProductLocked(i))));
  }

  lemma CommitsPick(site: Site, db: Db, t: Tx, operator: Operator, p: Product, i: nat) returns (states: seq<State>, steps: seq<Step>)
    requires TasksMatch(db) && PickOk(db, p) && PendingFor(db, i, p)
    ensures Leads(site, states, steps, With(db, t, Picking(operator, p, ProductLocked(i))), State(Perform(site, db, PickItem(operator, p)), map[]))
  {
    var s := With(db, t, Picking(operator, p, ProductLocked(i)));
    OnlyPending(db, p, i);
    assert s.open - {t} == map[];
    assert Effect(db, Picking(operator, p, ProductLocked(i))).tasks == Picked(db, p, operator).tasks;
    states, steps := OneStep(site, s, Commit(t), State(Perform(site, db, PickItem(operator, p)), map[]));
  }

  lemma OnlyPending(db: Db, p: Product, i: nat)
    requires TasksMatch(db) && PendingFor(db, i, p)
    ensures forall j :: PendingFor(db, j, p) <==> j == i
  {
  }

  // ----------------------------------------------------------------------------- unloading

  // An unload at work on these arguments.
  function Carrying(operator: Operator, destination: Destination, parts: seq<Part>, bin: Bin, basket: set<(nat, Product)>, stage: UnloadStage): Txn {
    Unloading(operator, destination, parts, bin, basket, stage)
  }

  function RowsAsBasket(db: Db, rows: set<nat>): set<(nat, Product)>
    requires forall i :: i in rows ==> i < |db.tasks|
  {
    set i | i in rows :: (i, db.tasks[i].product)
  }

  lemma {:induction false} LocksBasket(site: Site, db: Db, t: Tx, operator: Operator, destination: Destination, parts: seq<Part>, bin: Bin, done: set<nat>, todo: set<nat>)
    returns (states: seq<State>, steps: seq<Step>)
    requires done + todo <= BasketRows(db, operator, destination)
    ensures Leads(site, states, steps, With(db, t, Carrying(operator, destination, parts, bin, RowsAsBasket(db, done), LockingBasket(todo))),
                  With(db, t, Carrying(operator, destination, parts, bin, RowsAsBasket(db, done + todo), LockingBasket({}))))
    decreases |todo|
  {
    var s, e := With(db, t, Carrying(operator, destination, parts, bin, RowsAsBasket(db, done), LockingBasket(todo))),
                With(db, t, Carrying(operator, destination, parts, bin, RowsAsBasket(db, done + todo), LockingBasket({})));
    if todo == {} {
      assert done + todo == done;
      states, steps := NoStep(site, s);
    } else {
      var i :| i in todo;
      assert done + {i} + (todo - {i}) == done + todo;
      states, steps := LocksBasket(site, db, t, operator, destination, parts, bin, done + {i}, todo - {i});
      var a, x := LocksRow(site, db, t, operator, destination, parts, bin, done, todo, i);
      var m := With(db, t, Carrying(operator, destination, parts, bin, RowsAsBasket(db, done + {i}), LockingBasket(todo - {i})));
      states, steps := Then(site, a, x, states, steps, s, m, e);
    }
  }

  lemma LocksRow(site: Site, db: Db, t: Tx, operator: Operator, destination: Destination, parts: seq<Part>, bin: Bin, done: set<nat>, todo: set<nat>, i: nat)
    returns (states: seq<State>, steps: seq<Step>)
    requires done + todo <= BasketRows(db, operator, destination) && i in todo
    ensures Leads(site, states, steps, With(db, t, Carrying(operator, destination, parts, bin, RowsAsBasket(db, done), LockingBasket(todo))),
                  With(db, t, Carrying(operator, destination, parts, bin, RowsAsBasket(db, done + {i}), LockingBasket(todo - {i}))))
  {
    assert i in BasketRows(db, operator, destination);
    assert RowsAsBasket(db, done + {i}) == RowsAsBasket(db, done) + {(i, db.tasks[i].product)};
    states, steps := OneStep(site, With(db, t, Carrying(operator, destination, parts, bin, RowsAsBasket(db, done), LockingBasket(todo))), LockBasketRow(t, i),
                             With(db, t, Carrying(operator, destination, parts, bin, RowsAsBasket(db, done + {i}), LockingBasket(todo - {i}))));
  }

  lemma {:induction false} LocksPromoted(site: Site, db: Db, t: Tx, x: Txn, stamped: set<nat>, todo: set<Order>, locked: set<Order>)
    returns (states: seq<State>, steps: seq<Step>)
    requires x.Unloading? && forall o :: o in todo ==> IsAllocated(db, o)
    ensures Leads(site, states, steps, With(db, t, x.(unloading := Promoting(stamped, todo, locked, db))), With(db, t, x.(unloading := Promoting(stamped, {}, locked + todo, db))))
    decreases |todo|
  {
    var s, e := With(db, t, x.(unloading := Promoting(stamped, todo, locked, db))), With(db, t, x.(unloading := Promoting(stamped, {}, locked + todo, db)));
    if todo == {} {
      assert locked + todo == locked;
      states, steps := NoStep(site, s);
    } else {
      var o :| o in todo;
      states, steps := LocksPromoted(site, db, t, x, stamped, todo - {o}, locked + {o});
      assert locked + {o} + (todo - {o}) == locked + todo;
      states, steps := StepThen(site, s, LockPromoted(t, o), With(db, t, x.(unloading := Promoting(stamped, todo - {o}, locked + {o}, db))), states, steps, e);
    }
  }

  lemma BasketIsWhole(db: Db, operator: Operator, destination: Destination)
    ensures ConcurrentFlow.ProductsOf(RowsAsBasket(db, BasketRows(db, operator, destination))) == Basket(db, operator, destination)
  {
    var rows := BasketRows(db, operator, destination);
    forall i | i in rows
      ensures db.tasks[i].product in ConcurrentFlow.ProductsOf(RowsAsBasket(db, rows))
    {
      assert (i, db.tasks[i].product) in RowsAsBasket(db, rows);
    }
  }

  lemma UnloadGetsThrough(site: Site, db: Db, t: Tx, operator: Operator, destination: Destination, parts: seq<Part>, bin: Bin)
    returns (states: seq<State>, steps: seq<Step>)
    requires UnloadOk(db, operator, destination, parts)
    ensures Leads(site, states, steps, State(db, map[]), State(Perform(site, db, UnloadBasket(operator, destination, parts, bin)), map[]))
  {
    var rows := BasketRows(db, operator, destination);
    var start := State(db, map[]);
    var x := Carrying(operator, destination, parts, bin, RowsAsBasket(db, rows), LockingBasket({}));
    var begun := Carrying(operator, destination, parts, bin, {}, LockingBasket(rows));
    var more, on := LocksBasket(site, db, t, operator, destination, parts, bin, {}, rows);
    assert RowsAsBasket(db, {}) == {} && {} + rows == rows;
    states, steps := OneStep(site, start, BeginUnload(t, operator, destination, parts, bin), With(db, t, begun));
    states, steps := Then(site, states, steps, more, on, start, With(db, t, begun), With(db, t, x));
    more, on := Moves(site, db, t, operator, destination, parts, bin);
    states, steps := Then(site, states, steps, more, on, start, With(db, t, x), With(db, t, x.(unloading := ItemsMoved)));
    more, on := Promotes(site, db, t, x);
    states, steps := Then(site, states, steps, more, on, start, With(db, t, x.(unloading := ItemsMoved)), State(Unloaded(db, operator, destination, parts, bin), map[]));
  }

  lemma Moves(site: Site, db: Db, t: Tx, operator: Operator, destination: Destination, parts: seq<Part>, bin: Bin)
    returns (states: seq<State>, steps: seq<Step>)
    requires UnloadOk(db, operator, destination, parts)
    ensures var x := Carrying(operator, destination, parts, bin, RowsAsBasket(db, BasketRows(db, operator, destination)), LockingBasket({}));
            Leads(site, states, steps, With(db, t, x), With(db, t, x.(unloading := ItemsMoved)))
  {
    var x := Carrying(operator, destination, parts, bin, RowsAsBasket(db, BasketRows(db, operator, destination)), LockingBasket({}));
    BasketIsWhole(db, operator, destination);
    states, steps := OneStep(site, With(db, t, x), MoveItems(t), With(db, t, x.(unloading := ItemsMoved)));
  }

  lemma Promotes(site: Site, db: Db, t: Tx, x: Txn) returns (states: seq<State>, steps: seq<Step>)
    requires x.Unloading? && UnloadOk(db, x.operator, x.destination, x.parts)
    ensures Leads(site, states, steps, With(db, t, x.(unloading := ItemsMoved)), State(Unloaded(db, x.operator, x.destination, x.parts, x.bin), map[]))
  {
    var s := With(db, t, x.(unloading := ItemsMoved));
    var stamped, todo := Stampable(db, ItemsOf(x.parts), x.operator, x.destination), Promotable(db, x);
    var x2, x3 := x.(unloading := Promoting(stamped, todo, {}, db)), x.(unloading := Promoting(stamped, {}, todo, db));
    states, steps := StampsAndLists(site, db, t, x);
    var more, on := LocksPromoted(site, db, t, x, stamped, todo, {});
    assert {} + todo == todo;
    states, steps := Then(site, states, steps, more, on, s, With(db, t, x2), With(db, t, x3));
    more, on := CommitsUnload(site, db, t, x3);
    states, steps := Then(site, states, steps, more, on, s, With(db, t, x3), State(Unloaded(db, x.operator, x.destination, x.parts, x.bin), map[]));
  }

  lemma StampsAndLists(site: Site, db: Db, t: Tx, x: Txn) returns (states: seq<State>, steps: seq<Step>)
    requires x.Unloading?
    ensures var stamped := Stampable(db, ItemsOf(x.parts), x.operator, x.destination);
            Leads(site, states, steps, With(db, t, x.(unloading := ItemsMoved)), With(db, t, x.(unloading := Promoting(stamped, Promotable(db, x), {}, db))))
  {
    var s := With(db, t, x.(unloading := ItemsMoved));
    var stamped := Stampable(db, ItemsOf(x.parts), x.operator, x.destination);
    var x1 := x.(unloading := TasksStamped(stamped));
    states, steps := OneStep(site, s, StampTasks(t), With(db, t, x1));
    assert Promotable(db, x1) == Promotable(db, x);
    states, steps := ThenStep(site, states, steps, s, With(db, t, x1), ListPromotable(t), With(db, t, x.(unloading := Promoting(stamped, Promotable(db, x), {}, db))));
  }

  lemma CommitsUnload(site: Site, db: Db, t: Tx, x: Txn) returns (states: seq<State>, steps: seq<Step>)
    requires x.Unloading? && UnloadOk(db, x.operator, x.destination, x.parts)
    requires x.unloading == Promoting(Stampable(db, ItemsOf(x.parts), x.operator, x.destination), {}, Promotable(db, x), db)
    ensures Leads(site, states, steps, With(db, t, x), State(Unloaded(db, x.operator, x.destination, x.parts, x.bin), map[]))
  {
    UnloadEffect(db, x);
    assert With(db, t, x).open - {t} == map[];
    states, steps := OneStep(site, With(db, t, x), Commit(t), State(Effect(db, x), map[]));
  }

  lemma UnloadEffect(db: Db, x: Txn)
    requires x.Unloading? && UnloadOk(db, x.operator, x.destination, x.parts)
    requires x.unloading == Promoting(Stampable(db, ItemsOf(x.parts), x.operator, x.destination), {}, Promotable(db, x), db)
    ensures Effect(db, x) == Unloaded(db, x.operator, x.destination, x.parts, x.bin)
  {
    var items := Elems(ItemsOf(x.parts));
    var d := Unloaded(db, x.operator, x.destination, x.parts, x.bin);
    forall j | 0 <= j < |db.tasks|
      ensures Effect(db, x).tasks[j] == d.tasks[j]
    {
      if j !in x.unloading.stamped {
        NotStamped(db.tasks[j], x.parts, x.operator, x.destination);
      }
    }
    assert Effect(db, x).tasks == d.tasks;
    var moved := BulkMoved(db, items, READY_TO_SHIP, Some(x.bin)).(tasks := AllStamped(db.tasks, x.parts, x.operator, x.destination));
    assert forall o :: AllReady(UnloadView(db, x), o) <==> AllReady(moved, o);
    assert Effect(db, x).orders == d.orders;
  }

  lemma {:induction false} NotStamped(t: Task, parts: seq<Part>, operator: Operator, destination: Destination)
    requires !Stamps(t, ItemsOf(parts), operator, destination)
    ensures Stamped(t, parts, operator, destination) == t
    decreases |parts|
  {
    if parts != [] {
      NotStamped(t, parts[..|parts| - 1], operator, destination);
    }
  }

  // ------------------------------------------------------------------------------ shipping

  lemma {:induction false} LocksShipped(site: Site, db: Db, t: Tx, items: seq<Product>, bin: Bin, got: set<Product>, todo: set<Product>)
    returns (states: seq<State>, steps: seq<Step>)
    requires todo <= InBufferBin(db, bin, items)
    ensures Leads(site, states, steps, With(db, t, Shipping(items, bin, got, LockingItems(todo))), With(db, t, Shipping(items, bin, got + todo, LockingItems({}))))
    decreases |todo|
  {
    var s, e := With(db, t, Shipping(items, bin, got, LockingItems(todo))), With(db, t, Shipping(items, bin, got + todo, LockingItems({})));
    if todo == {} {
      assert got + todo == got;
      states, steps := NoStep(site, s);
    } else {
      var p :| p in todo;
      states, steps := LocksShipped(site, db, t, items, bin, got + {p}, todo - {p});
      assert got + {p} + (todo - {p}) == got + todo;
      var a, x := LocksOneShipped(site, db, t, items, bin, got, todo, p);
      states, steps := Then(site, a, x, states, steps, s, With(db, t, Shipping(items, bin, got + {p}, LockingItems(todo - {p}))), e);
    }
  }

  lemma LocksOneShipped(site: Site, db: Db, t: Tx, items: seq<Product>, bin: Bin, got: set<Product>, todo: set<Product>, p: Product)
    returns (states: seq<State>, steps: seq<Step>)
    requires p in todo && todo <= InBufferBin(db, bin, items)
    ensures Leads(site, states, steps, With(db, t, Shipping(items, bin, got, LockingItems(todo))), With(db, t, Shipping(items, bin, got + {p}, LockingItems(todo - {p}))))
  {
    states, steps := OneStep(site, With(db, t, Shipping(items, bin, got, LockingItems(todo))), LockShipped(t, p),
                             With(db, t, Shipping(items, bin, got + {p}, LockingItems(todo - {p}))));
  }

  lemma {:induction false} LocksOrders(site: Site, db: Db, t: Tx, x: Txn, todo: set<Order>, locked: set<Order>) returns (states: seq<State>, steps: seq<Step>)
    requires x.Shipping? && forall o :: o in todo ==> IsCandidate(db, o)
    ensures Leads(site, states, steps, With(db, t, x.(shipping := LockingOrders(todo, locked))), With(db, t, x.(shipping := LockingOrders({}, locked + todo))))
    decreases |todo|
  {
    var s, e := With(db, t, x.(shipping := LockingOrders(todo, locked))), With(db, t, x.(shipping := LockingOrders({}, locked + todo)));
    if todo == {} {
      assert locked + todo == locked;
      states, steps := NoStep(site, s);
    } else {
      var o :| o in todo;
      states, steps := LocksOrders(site, db, t, x, todo - {o}, locked + {o});
      assert locked + {o} + (todo - {o}) == locked + todo;
      states, steps := StepThen(site, s, LockOrder(t, o), With(db, t, x.(shipping := LockingOrders(todo - {o}, locked + {o}))), states, steps, e);
    }
  }

  lemma ShipGetsThrough(site: Site, db: Db, t: Tx, items: seq<Product>, bin: Bin) returns (states: seq<State>, steps: seq<Step>)
    requires ShipOk(db, bin, items)
    ensures Leads(site, states, steps, State(db, map[]), State(Perform(site, db, ShipItems(items, bin)), map[]))
  {
    var start, ready := State(db, map[]), InBufferBin(db, bin, items);
    var begun, x := Shipping(items, bin, {}, LockingItems(ready)), Shipping(items, bin, ready, LockingItems({}));
    states, steps := LocksShipped(site, db, t, items, bin, {}, ready);
    assert {} + ready == ready;
    states, steps := StepThen(site, start, BeginShip(t, items, bin), With(db, t, begun), states, steps, With(db, t, x));
    var more, on := Marks(site, db, t, items, bin);
    states, steps := Then(site, states, steps, more, on, start, With(db, t, x), With(db, t, x.(shipping := ItemsShipped)));
    assert forall p :: p in items ==> p in Elems(items);
    more, on := Decides(site, db, t, x);
    states, steps := Then(site, states, steps, more, on, start, With(db, t, x.(shipping := ItemsShipped)), State(Shipped(db, items), map[]));
  }

  lemma Marks(site: Site, db: Db, t: Tx, items: seq<Product>, bin: Bin) returns (states: seq<State>, steps: seq<Step>)
    requires ShipOk(db, bin, items)
    ensures var x := Shipping(items, bin, InBufferBin(db, bin, items), LockingItems({}));
            Leads(site, states, steps, With(db, t, x), With(db, t, x.(shipping := ItemsShipped)))
  {
    var x := Shipping(items, bin, InBufferBin(db, bin, items), LockingItems({}));
    DistinctCardinality(items);
    assert Elems(items) * db.products.Keys == Elems(items);
    states, steps := OneStep(site, With(db, t, x), ConcurrentFlow.MarkShipped(t), With(db, t, x.(shipping := ItemsShipped)));
  }

  // The orders a ship of these products locks.
  function Candidates(db: Db, x: Txn): set<Order>
    requires x.Shipping?
  {
    set o | o in OrdersOf(db, x.got) && IsCandidate(db, o)
  }

  lemma Decides(site: Site, db: Db, t: Tx, x: Txn) returns (states: seq<State>, steps: seq<Step>)
    requires x.Shipping? && x.got == Elems(x.items) && forall p :: p in x.items ==> p in db.products
    ensures Leads(site, states, steps, With(db, t, x.(shipping := ItemsShipped)), State(Shipped(db, x.items), map[]))
  {
    var s, todo := With(db, t, x.(shipping := ItemsShipped)), Candidates(db, x);
    var x1, x2 := x.(shipping := LockingOrders(todo, {})), x.(shipping := LockingOrders({}, todo));
    states, steps := OneStep(site, s, ListOrders(t), With(db, t, x1));
    var more, on := LocksOrders(site, db, t, x, todo, {});
    assert {} + todo == todo;
    states, steps := Then(site, states, steps, more, on, s, With(db, t, x1), With(db, t, x2));
    more, on := CommitsShip(site, db, t, x);
    states, steps := Then(site, states, steps, more, on, s, With(db, t, x2), State(Shipped(db, x.items), map[]));
  }

  lemma CommitsShip(site: Site, db: Db, t: Tx, x: Txn) returns (states: seq<State>, steps: seq<Step>)
    requires x.Shipping? && x.got == Elems(x.items) && forall p :: p in x.items ==> p in db.products
    ensures Leads(site, states, steps, With(db, t, x.(shipping := LockingOrders({}, Candidates(db, x)))), State(Shipped(db, x.items), map[]))
  {
    var todo := Candidates(db, x);
    var x2, x3 := x.(shipping := LockingOrders({}, todo)), x.(shipping := OrdersDecided(todo, Decisions(ShipView(db, x), todo)));
    assert ShipView(db, x2) == ShipView(db, x);
    states, steps := OneStep(site, With(db, t, x2), DecideOrders(t), With(db, t, x3));
    ShipEffect(db, x);
    var more, on := CommitsAs(site, db, t, x3, Shipped(db, x.items));
    states, steps := Then(site, states, steps, more, on, With(db, t, x2), With(db, t, x3), State(Shipped(db, x.items), map[]));
  }

  lemma CommitsAs(site: Site, db: Db, t: Tx, x: Txn, d: Db) returns (states: seq<State>, steps: seq<Step>)
    requires Finished(x) && Effect(db, x) == d
    ensures Leads(site, states, steps, With(db, t, x), State(d, map[]))
  {
    assert With(db, t, x).open - {t} == map[];
    states, steps := OneStep(site, With(db, t, x), Commit(t), State(d, map[]));
  }

  lemma ShipEffect(db: Db, x: Txn)
    requires x.Shipping? && x.got == Elems(x.items) && forall p :: p in x.items ==> p in db.products
    ensures var todo := Candidates(db, x);
            Effect(db, x.(shipping := OrdersDecided(todo, Decisions(ShipView(db, x), todo)))) == Shipped(db, x.items)
  {
    var todo := Candidates(db, x);
    assert Effect(db, x.(shipping := OrdersDecided(todo, Decisions(ShipView(db, x), todo)))).orders == Shipped(db, x.items).orders;
  }

  // ---------------------------------------------------------------------------- allocating

  // An allocation that holds what it has given away, and no more.
  function Allotted(given: map<Product, Order>, allotted: set<Order>, added: seq<Task>): Txn {
    Allotting(allotted, given.Keys, given, allotted, added)
  }

  lemma {:induction false} LocksStock(site: Site, db: Db, t: Tx, x: Txn, todo: set<Product>) returns (states: seq<State>, steps: seq<Step>)
    requires x.Allotting? && forall p :: p in todo ==> Unassigned(db, p)
    ensures Leads(site, states, steps, With(db, t, x), With(db, t, x.(stock := x.stock + todo)))
    decreases |todo|
  {
    if todo == {} {
      assert x.stock + todo == x.stock;
      states, steps := NoStep(site, With(db, t, x));
    } else {
      var p :| p in todo;
      var m := x.(stock := x.stock + {p});
      states, steps := LocksStock(site, db, t, m, todo - {p});
      assert m.stock + (todo - {p}) == x.stock + todo;
      states, steps := StepThen(site, With(db, t, x), LockFree(t, p), With(db, t, m), states, steps, With(db, t, x.(stock := x.stock + todo)));
    }
  }

  // One order: its row, its products, and then it is served.
  lemma Serves(site: Site, db: Db, t: Tx, given: map<Product, Order>, allotted: set<Order>, added: seq<Task>, o: Order, picks: seq<Pick>, destination: Destination)
    returns (states: seq<State>, steps: seq<Step>)
    requires o in db.orders && db.orders[o].status == NEW && o !in allotted && CanPick(db, given, picks)
    ensures Leads(site, states, steps, With(db, t, Allotted(given, allotted, added)), With(db, t, ServedTo(site, given, allotted, added, o, picks, destination)))
  {
    var x := Allotted(given, allotted, added);
    var ps := Elems(Allocation.ProductsOf(picks));
    var x1 := x.(orders := allotted + {o});
    var x2 := x1.(stock := given.Keys + ps);
    PickedAreUnassigned(db, given, picks);
    states, steps := LocksStock(site, db, t, x1, ps);
    states, steps := StepThen(site, With(db, t, x), LockNew(t, o), With(db, t, x1), states, steps, With(db, t, x2));
    var more, on := Allots(site, db, t, given, allotted, added, o, picks, destination);
    states, steps := Then(site, states, steps, more, on, With(db, t, x), With(db, t, x2), With(db, t, ServedTo(site, given, allotted, added, o, picks, destination)));
  }

  lemma Allots(site: Site, db: Db, t: Tx, given: map<Product, Order>, allotted: set<Order>, added: seq<Task>, o: Order, picks: seq<Pick>, destination: Destination)
    returns (states: seq<State>, steps: seq<Step>)
    requires o !in allotted && CanPick(db, given, picks)
    ensures Leads(site, states, steps, With(db, t, Allotting(allotted + {o}, given.Keys + Elems(Allocation.ProductsOf(picks)), given, allotted, added)),
                  With(db, t, ServedTo(site, given, allotted, added, o, picks, destination)))
  {
    var x := Allotting(allotted + {o}, given.Keys + Elems(Allocation.ProductsOf(picks)), given, allotted, added);
    var e := ServedTo(site, given, allotted, added, o, picks, destination);
    PickedAreUnassigned(db, given, picks);
    assert (given + Assignments(picks, o)).Keys == x.stock;
    states, steps := OneStep(site, With(db, t, x), AllotOrder(t, o, picks, destination, site.sectionOf), With(db, t, e));
  }

  function ServedTo(site: Site, given: map<Product, Order>, allotted: set<Order>, added: seq<Task>, o: Order, picks: seq<Pick>, destination: Destination): Txn {
    Allotted(given + Assignments(picks, o), allotted + {o}, added + Allocation.TasksOf(picks, o, destination, site.sectionOf))
  }

  // Distinct free products, with the SKU and the bin of their rows, not given away yet.
  ghost predicate CanPick(db: Db, given: map<Product, Order>, picks: seq<Pick>) {
    && (forall k :: 0 <= k < |picks| ==>
          && Unassigned(db, picks[k].product) && picks[k].product !in given
          && picks[k].sku == db.products[picks[k].product].sku && db.products[picks[k].product].bin == Some(picks[k].bin))
    && forall k, l :: 0 <= k < l < |picks| ==> picks[k].product != picks[l].product
  }

  lemma PickedAreUnassigned(db: Db, given: map<Product, Order>, picks: seq<Pick>)
    requires CanPick(db, given, picks)
    ensures forall p :: p in Elems(Allocation.ProductsOf(picks)) ==> Unassigned(db, p) && p !in given
    ensures forall k :: 0 <= k < |picks| ==> picks[k].product in Allocation.ProductsOf(picks)
  {
    var ps := Allocation.ProductsOf(picks);
    forall p | p in ps
      ensures Unassigned(db, p) && p !in given
    {
      var k :| 0 <= k < |ps| && ps[k] == p;
    }
    forall k | 0 <= k < |picks|
      ensures picks[k].product in ps
    {
      assert ps[k] == picks[k].product;
    }
  }

  lemma EffectRows(db: Db, given: map<Product, Order>, allotted: set<Order>, added: seq<Task>)
    ensures var d := Effect(db, Allotted(given, allotted, added));
            && d.products.Keys == db.products.Keys && d.orders.Keys == db.orders.Keys && d.arrival == db.arrival && d.queue == db.queue && d.tasks == db.tasks + added
            && (forall p :: p in db.products ==> d.products[p] == if p in given then db.products[p].(status := ALLOCATED, order := Some(given[p])) else db.products[p])
            && (forall o :: o in db.orders ==> d.orders[o] == if o in allotted then db.orders[o].(status := ORDER_ALLOCATED) else db.orders[o])
  {
  }

  // What the allocator picks on the rows as they would be, can be picked from the committed ones.
  lemma GatheredCanBePicked(db: Db, given: map<Product, Order>, allotted: set<Order>, added: seq<Task>, o: Order, destination: Destination, sectionOf: Bin -> Section)
    requires var d := Effect(db, Allotted(given, allotted, added)); AllocateOrder(d, o, destination, LinesOf(d, o), sectionOf).Done?
    ensures var d := Effect(db, Allotted(given, allotted, added)); CanPick(db, given, Gather(d, LinesOf(d, o)).picks)
    ensures o in db.orders && db.orders[o].status == NEW && o !in allotted
  {
    var d := Effect(db, Allotted(given, allotted, added));
    var lines := LinesOf(d, o);
    EffectRows(db, given, allotted, added);
    GatheredProductsExist(d, lines);
    DoneMeans(d, o, destination, lines, sectionOf);
    var taken := OrderGetsItsQuantities(d, o, destination, lines, sectionOf);
    var picks := Gather(d, lines).picks;
    forall k, l | 0 <= k < l < |picks|
      ensures picks[k].product != picks[l].product
    {
      assert Allocation.ProductsOf(picks)[k] == picks[k].product && Allocation.ProductsOf(picks)[l] == picks[l].product;
    }
    forall k | 0 <= k < |picks|
      ensures picks[k] in picks && Unassigned(db, picks[k].product) && picks[k].product !in given
    {
      assert IsFree(d, picks[k].product, picks[k].sku);
    }
  }

  lemma ServedEffect(db: Db, site: Site, given: map<Product, Order>, allotted: set<Order>, added: seq<Task>, o: Order, destination: Destination)
    requires var d := Effect(db, Allotted(given, allotted, added)); AllocateOrder(d, o, destination, LinesOf(d, o), site.sectionOf).Done?
    ensures var d := Effect(db, Allotted(given, allotted, added));
            Effect(db, ServedTo(site, given, allotted, added, o, Gather(d, LinesOf(d, o)).picks, destination)) ==
            AllocateOrder(d, o, destination, LinesOf(d, o), site.sectionOf).db
  {
    var d := Effect(db, Allotted(given, allotted, added));
    var lines := LinesOf(d, o);
    var r, picks := AllocateOrder(d, o, destination, lines, site.sectionOf), Gather(d, lines).picks;
    var taken := OrderGetsItsQuantities(d, o, destination, lines, site.sectionOf);
    DoneMeans(d, o, destination, lines, site.sectionOf);
    GatheredCanBePicked(db, given, allotted, added, o, destination, site.sectionOf);
    PickedAreUnassigned(db, given, picks);
    SameRows(db, given, allotted, added, d, o, taken, picks, Allocation.TasksOf(picks, o, destination, site.sectionOf), r.db, destination, site);
  }

  lemma SameRows(db: Db, given: map<Product, Order>, allotted: set<Order>, added: seq<Task>, d: Db, o: Order, taken: set<Product>, picks: seq<Pick>,
                 tasks: seq<Task>, d': Db, destination: Destination, site: Site)
    requires d == Effect(db, Allotted(given, allotted, added)) && taken == Elems(Allocation.ProductsOf(picks)) && tasks == Allocation.TasksOf(picks, o, destination, site.sectionOf)
    requires o in db.orders && o !in allotted && forall p :: p in taken ==> p !in given
    requires d'.products == (map p | p in d.products :: AssignedRow(d, p, taken, o)) && d'.orders == d.orders[o := d.orders[o].(status := ORDER_ALLOCATED)]
    requires d'.arrival == d.arrival && d'.queue == d.queue && d'.tasks == d.tasks + tasks
    ensures Effect(db, ServedTo(site, given, allotted, added, o, picks, destination)) == d'
  {
    var more := given + Assignments(picks, o);
    EffectRows(db, given, allotted, added);
    EffectRows(db, more, allotted + {o}, added + tasks);
    SameProducts(db, given, picks, o, taken, d.products);
    assert db.tasks + (added + tasks) == db.tasks + added + tasks;
    SameDb(Effect(db, Allotted(more, allotted + {o}, added + tasks)), d');
  }

  lemma SameProducts(db: Db, given: map<Product, Order>, picks: seq<Pick>, o: Order, taken: set<Product>, rows: map<Product, ProductRow>)
    requires taken == Elems(Allocation.ProductsOf(picks)) && rows.Keys == db.products.Keys && forall p :: p in taken ==> p !in given
    requires forall p :: p in db.products ==> rows[p] == if p in given then db.products[p].(status := ALLOCATED, order := Some(given[p])) else db.products[p]
    ensures var more := given + Assignments(picks, o);
            forall p :: p in rows ==>
              (if p in taken then rows[p].(status := ALLOCATED, order := Some(o)) else rows[p])
              == if p in more then db.products[p].(status := ALLOCATED, order := Some(more[p])) else db.products[p]
  {
  }

  lemma SameDb(d: Db, e: Db)
    requires d.arrival == e.arrival && d.queue == e.queue && d.tasks == e.tasks && d.products.Keys == e.products.Keys && d.orders.Keys == e.orders.Keys
    requires (forall p :: p in d.products ==> d.products[p] == e.products[p]) && forall o :: o in d.orders ==> d.orders[o] == e.orders[o]
    ensures d == e
  {
    assert d.products == e.products && d.orders == e.orders;
  }

  // A batch, order after order.
  lemma {:induction false} ServesAll(site: Site, db: Db, t: Tx, orders: seq<Order>, destination: Destination)
    returns (states: seq<State>, steps: seq<Step>, given: map<Product, Order>, allotted: set<Order>, added: seq<Task>)
    requires AllocateAll(db, orders, destination, site.sectionOf).Going?
    ensures Leads(site, states, steps, State(db, map[]), With(db, t, Allotted(given, allotted, added)))
    ensures Effect(db, Allotted(given, allotted, added)) == AllocateAll(db, orders, destination, site.sectionOf).db
    decreases |orders|
  {
    if orders == [] {
      given, allotted, added := map[], {}, [];
      assert given.Keys == {};
      states, steps := OneStep(site, State(db, map[]), BeginAllocate(t), With(db, t, Allotted(given, allotted, added)));
      EffectRows(db, given, allotted, added);
      assert Effect(db, Allotted(given, allotted, added)).products == db.products;
      assert Effect(db, Allotted(given, allotted, added)).orders == db.orders;
      assert db.tasks + [] == db.tasks;
    } else {
      var o := orders[|orders| - 1];
      states, steps, given, allotted, added := ServesAll(site, db, t, orders[..|orders| - 1], destination);
      var d := Effect(db, Allotted(given, allotted, added));
      if AllocateOrder(d, o, destination, LinesOf(d, o), site.sectionOf).Done? {
        var more, on, picks := ServesNext(site, db, t, given, allotted, added, o, destination);
        var x := ServedTo(site, given, allotted, added, o, picks, destination);
        states, steps := Then(site, states, steps, more, on, State(db, map[]), With(db, t, Allotted(given, allotted, added)), With(db, t, x));
        given, allotted, added := x.given, x.allotted, x.added;
      }
    }
  }

  lemma ServesNext(site: Site, db: Db, t: Tx, given: map<Product, Order>, allotted: set<Order>, added: seq<Task>, o: Order, destination: Destination)
    returns (states: seq<State>, steps: seq<Step>, picks: seq<Pick>)
    requires var d := Effect(db, Allotted(given, allotted, added)); AllocateOrder(d, o, destination, LinesOf(d, o), site.sectionOf).Done?
    ensures var x := ServedTo(site, given, allotted, added, o, picks, destination);
            && Leads(site, states, steps, With(db, t, Allotted(given, allotted, added)), With(db, t, x))
            && var d := Effect(db, Allotted(given, allotted, added));
               Effect(db, x) == AllocateOrder(d, o, destination, LinesOf(d, o), site.sectionOf).db
  {
    var d := Effect(db, Allotted(given, allotted, added));
    picks := Gather(d, LinesOf(d, o)).picks;
    GatheredCanBePicked(db, given, allotted, added, o, destination, site.sectionOf);
    ServedEffect(db, site, given, allotted, added, o, destination);
    states, steps := Serves(site, db, t, given, allotted, added, o, picks, destination);
  }

  lemma AllocateGetsThrough(site: Site, db: Db, t: Tx, orders: seq<Order>, destination: Destination) returns (states: seq<State>, steps: seq<Step>)
    requires AllocateAll(db, orders, destination, site.sectionOf).Going?
    ensures Leads(site, states, steps, State(db, map[]), State(Perform(site, db, AllocateOrders(orders, destination)), map[]))
  {
    var given, allotted, added;
    states, steps, given, allotted, added := ServesAll(site, db, t, orders, destination);
    var x := Allotted(given, allotted, added);
    assert With(db, t, x).open - {t} == map[];
    states, steps := ThenStep(site, states, steps, State(db, map[]), With(db, t, x), Commit(t), State(Effect(db, x), map[]));
  }

  // ------------------------------------------------------------------------- the main result

  ghost predicate Accepted(site: Site, db: Db, what: Transaction) {
    match what
    case PlaceItems(items, _) => PlaceOk(site, db, items)
    case AllocateOrders(orders, destination) => AllocateAll(db, orders, destination, site.sectionOf).Going?
    case PickItem(_, p) => PickOk(db, p)
    case UnloadBasket(operator, destination, parts, _) => UnloadOk(db, operator, destination, parts)
    case ShipItems(items, bin) => ShipOk(db, bin, items)
  }

  // What ProductFlow accepts, the interleaved transactions can do from any quiet state, with the same rows in
  // the end.
  lemma AcceptedGetsThrough(site: Site, db: Db, t: Tx, what: Transaction) returns (states: seq<State>, steps: seq<Step>)
    requires TasksMatch(db)
    requires Accepted(site, db, what)
    ensures Leads(site, states, steps, State(db, map[]), State(Perform(site, db, what), map[]))
  {
    match what
    case AllocateOrders(orders, destination) => states, steps := AllocateGetsThrough(site, db, t, orders, destination);
    case PlaceItems(items, bin) => states, steps := PlaceGetsThrough(site, db, t, items, bin);
    case PickItem(operator, p) => states, steps := PickGetsThrough(site, db, t, operator, p);
    case UnloadBasket(operator, destination, parts, bin) => states, steps := UnloadGetsThrough(site, db, t, operator, destination, parts, bin);
    case ShipItems(items, bin) => states, steps := ShipGetsThrough(site, db, t, items, bin);
  }
}
