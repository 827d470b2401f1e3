// A run in which two operators unload the two halves of an order together and neither promotes it.
module ConcurrentFlowWitness {
  import opened Basics
  import opened WarehouseTables
  import opened ProductFlow
  import opened ConcurrentFlow
  import opened ConcurrentFlowResults
  import opened Runs

  const SHOP: Site := Site(_ => true, _ => 0, _ => true, _ => 0)

  const ROW := ProductRow(1, ASSEMBLED, Some(9), Some(50))
  const GONE := ProductRow(1, READY_TO_SHIP, Some(9), Some(70))

  function Picked(p: Product, operator: Operator, action: Option<ActionId>): Task {
    Task(9, p, 1, 50, 0, 3, true, Some(operator), action)
  }

  const HALVES: Db :=
    Db(map[1 := ROW, 2 := ROW], [1, 2], map[9 := OrderRow(ORDER_ALLOCATED, 3, [Line(1, 2)])], [9], [Picked(1, 11, None), Picked(2, 12, None)])

  const FIRST_GONE: Db := HALVES.(products := map[1 := GONE, 2 := ROW], tasks := [Picked(1, 11, Some(21)), Picked(2, 12, None)])

  const BOTH_GONE: Db := HALVES.(products := map[1 := GONE, 2 := GONE], tasks := [Picked(1, 11, Some(21)), Picked(2, 12, Some(22))])

  function Unload(p: Product, basket: set<(nat, Product)>, stage: UnloadStage): Txn {
    Unloading(10 + p, 3, [Part(20 + p, [p])], 70, basket, stage)
  }

  ghost predicate Follows(s: State, st: Step, s': State) {
    Enabled(SHOP, s, st) && s' == Apply(SHOP, s, st)
  }

  // t, operator 10 + p, unloads product p, whose task is number p - 1.
  function At(db: Db, x: Txn, y: Txn): State {
    State(db, map[0 := x, 1 := y])
  }

  const IDLE := State(HALVES, map[])

  lemma ItemsAre(p: Product)
    ensures ItemsOf([Part(20 + p, [p])]) == [p] && Elems([p]) == {p}
  {
    assert [Part(20 + p, [p])][..0] == [];
  }

  lemma BasketsAre()
    ensures BasketRows(HALVES, 11, 3) == {0} && BasketRows(HALVES, 12, 3) == {1}
  {
  }

  // ------------------------------------------------------------------------ the two begin

  const LOCKING_FIRST := Unload(1, {}, LockingBasket({0}))
  const LOCKING_SECOND := Unload(2, {}, LockingBasket({1}))

  lemma BothBegin()
    ensures Path(Follows, [IDLE, State(HALVES, map[0 := LOCKING_FIRST]), At(HALVES, LOCKING_FIRST, LOCKING_SECOND)],
                 [BeginUnload(0, 11, 3, [Part(21, [1])], 70), BeginUnload(1, 12, 3, [Part(22, [2])], 70)])
  {
    BasketsAre();
    assert Follows(IDLE, BeginUnload(0, 11, 3, [Part(21, [1])], 70), State(HALVES, map[0 := LOCKING_FIRST]));
    assert Follows(State(HALVES, map[0 := LOCKING_FIRST]), BeginUnload(1, 12, 3, [Part(22, [2])], 70), At(HALVES, LOCKING_FIRST, LOCKING_SECOND));
  }

  // ------------------------------------------------------- each locks, moves, stamps, lists

  function Locked(p: Product, stage: UnloadStage): Txn
    requires p > 0
  {
    Unload(p, {(p - 1, p)}, stage)
  }

  const DONE := LockingBasket({})

  lemma Held(p: Product, stage: UnloadStage)
    requires p > 0 && (stage.TasksStamped? || stage.Promoting? ==> stage.stamped == {p - 1}) && (stage.Promoting? ==> stage.locked == {})
    ensures var x := Locked(p, stage); ProductsHeld(x) == {p} && TasksHeld(x) == {p - 1} && OrdersHeld(x) == {}
    ensures ConcurrentFlow.ProductsOf(Locked(p, stage).basket) == {p}
  {
    ItemsAre(p);
    assert ConcurrentFlow.ProductsOf({(p - 1, p)}) == {p} && ConcurrentFlow.TasksOf({(p - 1, p)}) == {p - 1};
  }

  lemma NothingHeld()
    ensures ProductsHeld(LOCKING_SECOND) == {} && TasksHeld(LOCKING_SECOND) == {}
  {
  }

  lemma Statement(s: State, st: Step, y: Txn, s': State)
    requires !Begins(st) && !st.Commit? && !st.Abort? && st.t in s.open && CanStep(SHOP, s, st, s.open[st.t]) && Stepped(s.db, st, s.open[st.t]) == y
    requires s' == s.(open := s.open[st.t := y])
    ensures Follows(s, st, s')
  {
  }

  lemma BothOpen(db: Db, x: Txn, y: Txn)
    ensures var s := At(db, x, y);
            && (forall p :: p !in ProductsHeld(y) ==> ProductFree(s, 0, p)) && (forall i :: i !in TasksHeld(y) ==> TaskFree(s, 0, i))
            && (forall p :: p !in ProductsHeld(x) ==> ProductFree(s, 1, p)) && (forall i :: i !in TasksHeld(x) ==> TaskFree(s, 1, i))
    ensures forall z :: At(db, x, y).(open := At(db, x, y).open[0 := z]) == At(db, z, y)
    ensures forall z :: At(db, x, y).(open := At(db, x, y).open[1 := z]) == At(db, x, z)
  {
    forall z
      ensures map[0 := x, 1 := y][0 := z] == map[0 := z, 1 := y] && map[0 := x, 1 := y][1 := z] == map[0 := x, 1 := z]
    {
    }
  }

  lemma FirstLocks()
    ensures Follows(At(HALVES, LOCKING_FIRST, LOCKING_SECOND), LockBasketRow(0, 0), At(HALVES, Locked(1, DONE), LOCKING_SECOND))
  {
    NothingHeld();
    BothOpen(HALVES, LOCKING_FIRST, LOCKING_SECOND);
    assert {0} - {0} == {} && {} + {(0, 1)} == {(0, 1)};
    assert Stepped(HALVES, LockBasketRow(0, 0), LOCKING_FIRST) == Locked(1, DONE);
    Statement(At(HALVES, LOCKING_FIRST, LOCKING_SECOND), LockBasketRow(0, 0), Locked(1, DONE), At(HALVES, Locked(1, DONE), LOCKING_SECOND));
  }

  lemma SecondLocks()
    ensures Follows(At(HALVES, Locked(1, DONE), LOCKING_SECOND), LockBasketRow(1, 1), At(HALVES, Locked(1, DONE), Locked(2, DONE)))
  {
    Held(1, DONE);
    BothOpen(HALVES, Locked(1, DONE), LOCKING_SECOND);
    assert {1} - {1} == {} && {} + {(1, 2)} == {(1, 2)};
    assert Stepped(HALVES, LockBasketRow(1, 1), LOCKING_SECOND) == Locked(2, DONE);
    Statement(At(HALVES, Locked(1, DONE), LOCKING_SECOND), LockBasketRow(1, 1), Locked(2, DONE), At(HALVES, Locked(1, DONE), Locked(2, DONE)));
  }

  lemma BothLock()
    ensures Path(Follows, [At(HALVES, LOCKING_FIRST, LOCKING_SECOND), At(HALVES, Locked(1, DONE), LOCKING_SECOND), At(HALVES, Locked(1, DONE), Locked(2, DONE))],
                 [LockBasketRow(0, 0), LockBasketRow(1, 1)])
  {
    FirstLocks();
    SecondLocks();
  }

  lemma CanMove(p: Product)
    requires p > 0
    ensures var x := Locked(p, DONE);
            && ConcurrentFlow.ProductsOf(x.basket) == Elems(ItemsOf(x.parts)) && ItemsOf(x.parts) == [p]
            && Stepped(HALVES, MoveItems(0), x) == Locked(p, ItemsMoved) == Stepped(HALVES, MoveItems(1), x)
  {
    ItemsAre(p);
    Held(p, DONE);
  }

  lemma FirstMoves()
    ensures Follows(At(HALVES, Locked(1, DONE), Locked(2, DONE)), MoveItems(0), At(HALVES, Locked(1, ItemsMoved), Locked(2, DONE)))
  {
    CanMove(1);
    Held(2, DONE);
    BothOpen(HALVES, Locked(1, DONE), Locked(2, DONE));
    Statement(At(HALVES, Locked(1, DONE), Locked(2, DONE)), MoveItems(0), Locked(1, ItemsMoved), At(HALVES, Locked(1, ItemsMoved), Locked(2, DONE)));
  }

  lemma SecondMoves()
    ensures Follows(At(HALVES, Locked(1, ItemsMoved), Locked(2, DONE)), MoveItems(1), At(HALVES, Locked(1, ItemsMoved), Locked(2, ItemsMoved)))
  {
    CanMove(2);
    Held(1, ItemsMoved);
    BothOpen(HALVES, Locked(1, ItemsMoved), Locked(2, DONE));
    Statement(At(HALVES, Locked(1, ItemsMoved), Locked(2, DONE)), MoveItems(1), Locked(2, ItemsMoved), At(HALVES, Locked(1, ItemsMoved), Locked(2, ItemsMoved)));
  }

  lemma BothMove()
    ensures Path(Follows, [At(HALVES, Locked(1, DONE), Locked(2, DONE)), At(HALVES, Locked(1, ItemsMoved), Locked(2, DONE)), At(HALVES, Locked(1, ItemsMoved), Locked(2, ItemsMoved))],
                 [MoveItems(0), MoveItems(1)])
  {
    FirstMoves();
    SecondMoves();
  }

  lemma StampsAre(p: Product)
    requires p == 1 || p == 2
    ensures Stampable(HALVES, [p], 10 + p, 3) == {p - 1}
  {
  }

  const STAMPED_FIRST := TasksStamped({0})
  const STAMPED_SECOND := TasksStamped({1})

  lemma FirstStamps()
    ensures Follows(At(HALVES, Locked(1, ItemsMoved), Locked(2, ItemsMoved)), StampTasks(0), At(HALVES, Locked(1, STAMPED_FIRST), Locked(2, ItemsMoved)))
  {
    ItemsAre(1);
    StampsAre(1);
    Held(2, ItemsMoved);
    BothOpen(HALVES, Locked(1, ItemsMoved), Locked(2, ItemsMoved));
    Statement(At(HALVES, Locked(1, ItemsMoved), Locked(2, ItemsMoved)), StampTasks(0), Locked(1, STAMPED_FIRST), At(HALVES, Locked(1, STAMPED_FIRST), Locked(2, ItemsMoved)));
  }

  lemma SecondStamps()
    ensures Follows(At(HALVES, Locked(1, STAMPED_FIRST), Locked(2, ItemsMoved)), StampTasks(1), At(HALVES, Locked(1, STAMPED_FIRST), Locked(2, STAMPED_SECOND)))
  {
    ItemsAre(2);
    StampsAre(2);
    Held(1, STAMPED_FIRST);
    BothOpen(HALVES, Locked(1, STAMPED_FIRST), Locked(2, ItemsMoved));
    Statement(At(HALVES, Locked(1, STAMPED_FIRST), Locked(2, ItemsMoved)), StampTasks(1), Locked(2, STAMPED_SECOND), At(HALVES, Locked(1, STAMPED_FIRST), Locked(2, STAMPED_SECOND)));
  }

  lemma BothStamp()
    ensures Path(Follows, [At(HALVES, Locked(1, ItemsMoved), Locked(2, ItemsMoved)), At(HALVES, Locked(1, STAMPED_FIRST), Locked(2, ItemsMoved)),
                           At(HALVES, Locked(1, STAMPED_FIRST), Locked(2, STAMPED_SECOND))],
                 [StampTasks(0), StampTasks(1)])
  {
    FirstStamps();
    SecondStamps();
  }

  // Each still sees the other's product picked, not ready.
  lemma NothingPromotable(p: Product, stage: UnloadStage)
    requires p == 1 || p == 2
    ensures Promotable(HALVES, Locked(p, stage)) == {}
  {
    ItemsAre(p);
    var other := 3 - p;
    var view := UnloadView(HALVES, Locked(p, stage));
    assert other in view.products && view.products[other].order == Some(9) && view.products[other].status == ASSEMBLED;
    assert !AllReady(view, 9);
    assert forall o :: o in OrdersOf(HALVES, Elems([p])) ==> o == 9;
  }

  function Listed(p: Product): Txn
    requires p > 0
  {
    Locked(p, Promoting({p - 1}, {}, {}, HALVES))
  }

  lemma FirstLists()
    ensures Follows(At(HALVES, Locked(1, STAMPED_FIRST), Locked(2, STAMPED_SECOND)), ListPromotable(0), At(HALVES, Listed(1), Locked(2, STAMPED_SECOND)))
  {
    NothingPromotable(1, STAMPED_FIRST);
    BothOpen(HALVES, Locked(1, STAMPED_FIRST), Locked(2, STAMPED_SECOND));
    Statement(At(HALVES, Locked(1, STAMPED_FIRST), Locked(2, STAMPED_SECOND)), ListPromotable(0), Listed(1), At(HALVES, Listed(1), Locked(2, STAMPED_SECOND)));
  }

  lemma SecondLists()
    ensures Follows(At(HALVES, Listed(1), Locked(2, STAMPED_SECOND)), ListPromotable(1), At(HALVES, Listed(1), Listed(2)))
  {
    NothingPromotable(2, STAMPED_SECOND);
    BothOpen(HALVES, Listed(1), Locked(2, STAMPED_SECOND));
    Statement(At(HALVES, Listed(1), Locked(2, STAMPED_SECOND)), ListPromotable(1), Listed(2), At(HALVES, Listed(1), Listed(2)));
  }

  lemma BothList()
    ensures Path(Follows, [At(HALVES, Locked(1, STAMPED_FIRST), Locked(2, STAMPED_SECOND)), At(HALVES, Listed(1), Locked(2, STAMPED_SECOND)), At(HALVES, Listed(1), Listed(2))],
                 [ListPromotable(0), ListPromotable(1)])
  {
    FirstLists();
    SecondLists();
  }

  lemma StampOf(p: Product)
    requires p == 1 || p == 2
    ensures Stamped(Picked(p, 10 + p, None), [Part(20 + p, [p])], 10 + p, 3) == Picked(p, 10 + p, Some(20 + p))
  {
    assert [Part(20 + p, [p])][..0] == [];
  }

  lemma FirstEffect()
    ensures Effect(HALVES, Listed(1)) == FIRST_GONE
  {
    ItemsAre(1);
    StampOf(1);
    var d := Effect(HALVES, Listed(1));
    assert d.products == FIRST_GONE.products && d.tasks == FIRST_GONE.tasks && d.orders == FIRST_GONE.orders;
  }

  lemma SecondEffect()
    ensures Effect(FIRST_GONE, Listed(2)) == BOTH_GONE
  {
    ItemsAre(2);
    StampOf(2);
    var d := Effect(FIRST_GONE, Listed(2));
    assert d.products == BOTH_GONE.products && d.tasks == BOTH_GONE.tasks && d.orders == BOTH_GONE.orders;
  }

  lemma FirstCommits()
    ensures Follows(At(HALVES, Listed(1), Listed(2)), Commit(0), State(FIRST_GONE, map[1 := Listed(2)]))
  {
    FirstEffect();
    assert map[0 := Listed(1), 1 := Listed(2)] - {0} == map[1 := Listed(2)];
  }

  lemma SecondCommits()
    ensures Follows(State(FIRST_GONE, map[1 := Listed(2)]), Commit(1), State(BOTH_GONE, map[]))
  {
    SecondEffect();
    assert map[1 := Listed(2)] - {1} == map[];
  }

  lemma BothCommit()
    ensures Path(Follows, [At(HALVES, Listed(1), Listed(2)), State(FIRST_GONE, map[1 := Listed(2)]), State(BOTH_GONE, map[])], [Commit(0), Commit(1)])
  {
    FirstCommits();
    SecondCommits();
  }

  // ---------------------------------------------------------------------- all together

  lemma HalvesAreSane()
    ensures Sane(HALVES)
  {
    assert HALVES.tasks[0].product == 1 && HALVES.tasks[1].product == 2;
    assert HasTask(HALVES, 1) && HasTask(HALVES, 2);
    assert !SomeShipped(HALVES, 9);
  }

  lemma NobodyPromotesPath() returns (states: seq<State>, steps: seq<Step>)
    ensures Path(Follows, states, steps) && states[0] == IDLE && states[|steps|] == State(BOTH_GONE, map[])
  {
    BothBegin();
    BothLock();
    BothMove();
    BothStamp();
    BothList();
    BothCommit();
    states, steps := [IDLE, State(HALVES, map[0 := LOCKING_FIRST]), At(HALVES, LOCKING_FIRST, LOCKING_SECOND)],
                     [BeginUnload(0, 11, 3, [Part(21, [1])], 70), BeginUnload(1, 12, 3, [Part(22, [2])], 70)];
    states, steps := Joined(Follows, states, steps,
      [At(HALVES, LOCKING_FIRST, LOCKING_SECOND), At(HALVES, Locked(1, DONE), LOCKING_SECOND), At(HALVES, Locked(1, DONE), Locked(2, DONE))],
      [LockBasketRow(0, 0), LockBasketRow(1, 1)]);
    states, steps := Joined(Follows, states, steps,
      [At(HALVES, Locked(1, DONE), Locked(2, DONE)), At(HALVES, Locked(1, ItemsMoved), Locked(2, DONE)), At(HALVES, Locked(1, ItemsMoved), Locked(2, ItemsMoved))],
      [MoveItems(0), MoveItems(1)]);
    states, steps := Joined(Follows, states, steps,
      [At(HALVES, Locked(1, ItemsMoved), Locked(2, ItemsMoved)), At(HALVES, Locked(1, STAMPED_FIRST), Locked(2, ItemsMoved)),
       At(HALVES, Locked(1, STAMPED_FIRST), Locked(2, STAMPED_SECOND))],
      [StampTasks(0), StampTasks(1)]);
    states, steps := Joined(Follows, states, steps,
      [At(HALVES, Locked(1, STAMPED_FIRST), Locked(2, STAMPED_SECOND)), At(HALVES, Listed(1), Locked(2, STAMPED_SECOND)), At(HALVES, Listed(1), Listed(2))],
      [ListPromotable(0), ListPromotable(1)]);
    states, steps := Joined(Follows, states, steps,
      [At(HALVES, Listed(1), Listed(2)), State(FIRST_GONE, map[1 := Listed(2)]), State(BOTH_GONE, map[])], [Commit(0), Commit(1)]);
  }

  // Both halves stand in the shipping buffer, no transaction is open, and the order is still ALLOCATED.
  lemma NobodyPromotes() returns (states: seq<State>, steps: seq<Step>)
    ensures IsRun(SHOP, states, steps) && !LeftBehind(states[0].db, 9)
    ensures states[|steps|].open == map[] && LeftBehind(states[|steps|].db, 9)
  {
    states, steps := NobodyPromotesPath();
    HalvesAreSane();
    assert HALVES.products[1].order == Some(9) && HALVES.products[1].status != READY_TO_SHIP;
    assert BOTH_GONE.products[1].order == Some(9);
    forall k | 0 <= k < |steps|
      ensures Enabled(SHOP, states[k], steps[k]) && states[k + 1] == Apply(SHOP, states[k], steps[k])
    {
      assert Follows(states[k], steps[k], states[k + 1]);
    }
  }
}
