// Why the order status is decided by a statement of its own: with one statement, whose snapshot is
// older than its lock wait, two ships can strand an order.
module ConcurrentShipsWitness {
  import opened Basics
  import opened ConcurrentShips
  import opened Runs

  const ONE_STATEMENT := World(map[1 := 9, 2 := 9], false)

  const READY_PRODUCTS: map<Product, ProductStatus> := map[1 := READY_TO_SHIP, 2 := READY_TO_SHIP]
  const FIRST_GONE: map<Product, ProductStatus> := map[1 := SHIPPED, 2 := READY_TO_SHIP]

  function Both(a: Stage, b: Stage): State {
    State(READY_PRODUCTS, map[9 := ASSEMBLED], map[0 := Ship({1}, a), 1 := Ship({2}, b)], [])
  }

  function Second(b: Stage): State {
    State(FIRST_GONE, map[9 := PARTIALLY_SHIPPED], map[1 := Ship({2}, b)], [{1}])
  }

  const NONE := LockingItems({})
  const WAITING := LockingOrders({9}, {}, READY_PRODUCTS)
  const HOLDING := LockingOrders({}, {9}, READY_PRODUCTS)
  const PARTIAL := OrdersUpdated({9}, map[9 := PARTIALLY_SHIPPED])

  const STRANDED := State(map[1 := SHIPPED, 2 := SHIPPED], map[9 := PARTIALLY_SHIPPED], map[], [{1}, {2}])

  const BEFORE := State(READY_PRODUCTS, map[9 := ASSEMBLED], map[], [])
  const ONE_OPEN := BEFORE.(open := map[0 := Ship({1}, NONE)])

  ghost predicate Follows(s: State, st: Step, s': State) {
    Enabled(ONE_STATEMENT, s, st) && s' == Apply(ONE_STATEMENT, s, st)
  }

  lemma Opening()
    ensures Path(Follows, [BEFORE, ONE_OPEN, Both(NONE, NONE)], [Begin(0, {1}), Begin(1, {2})])
  {
  }

  lemma ItemsTurn()
    ensures Path(Follows, [Both(NONE, NONE), Both(LockingItems({1}), NONE), Both(ItemsShipped, NONE), Both(ItemsShipped, LockingItems({2})),
                  Both(ItemsShipped, ItemsShipped)],
                 [LockItem(0, 1), ShipItems(0), LockItem(1, 2), ShipItems(1)])
  {
    assert {} + {1} == {1} && {} + {2} == {2};
    assert Follows(Both(NONE, NONE), LockItem(0, 1), Both(LockingItems({1}), NONE));
    assert Follows(Both(LockingItems({1}), NONE), ShipItems(0), Both(ItemsShipped, NONE));
    assert Follows(Both(ItemsShipped, NONE), LockItem(1, 2), Both(ItemsShipped, LockingItems({2})));
    assert Follows(Both(ItemsShipped, LockingItems({2})), ShipItems(1), Both(ItemsShipped, ItemsShipped));
  }

  lemma ListingTurn()
    ensures Path(Follows, [Both(ItemsShipped, ItemsShipped), Both(WAITING, ItemsShipped), Both(WAITING, WAITING)], [ListOrders(0), ListOrders(1)])
  {
    var w := ONE_STATEMENT;
    assert w.orderOf[1] == 9 && w.orderOf[2] == 9;
    assert OrdersOf(w, {1}) == {9} && OrdersOf(w, {2}) == {9};
    assert Candidates(w, Both(ItemsShipped, ItemsShipped), {1}) == {9} == Candidates(w, Both(WAITING, ItemsShipped), {2});
    assert Follows(Both(ItemsShipped, ItemsShipped), ListOrders(0), Both(WAITING, ItemsShipped));
    assert Follows(Both(WAITING, ItemsShipped), ListOrders(1), Both(WAITING, WAITING));
  }

  lemma Decides(view: map<Product, ProductStatus>)
    requires view.Keys == {1, 2} && (view[1] == SHIPPED) != (view[2] == SHIPPED)
    ensures Decisions(ONE_STATEMENT, view, {9}) == map[9 := PARTIALLY_SHIPPED]
  {
  }

  lemma FirstLocks()
    ensures Follows(Both(WAITING, WAITING), LockOrder(0, 9), Both(HOLDING, WAITING))
  {
    assert {9} - {9} == {} && {} + {9} == {9};
  }

  lemma FirstUpdates()
    ensures Follows(Both(HOLDING, WAITING), UpdateOrders(0), Both(PARTIAL, WAITING))
  {
    Decides(Overlaid(READY_PRODUCTS, {1}));
  }

  lemma FirstCommits()
    ensures Follows(Both(PARTIAL, WAITING), Commit(0), Second(WAITING))
  {
    assert Overlaid(READY_PRODUCTS, {1}) == FIRST_GONE;
  }

  lemma FirstDecides()
    ensures Path(Follows, [Both(WAITING, WAITING), Both(HOLDING, WAITING), Both(PARTIAL, WAITING), Second(WAITING)],
                 [LockOrder(0, 9), UpdateOrders(0), Commit(0)])
  {
    FirstLocks();
    FirstUpdates();
    FirstCommits();
  }

  lemma SecondDecides()
    ensures Path(Follows, [Second(WAITING), Second(HOLDING), Second(PARTIAL), STRANDED], [LockOrder(1, 9), UpdateOrders(1), Commit(1)])
  {
    Decides(Overlaid(READY_PRODUCTS, {2}));
    assert {9} - {9} == {} && {} + {9} == {9};
    assert Follows(Second(WAITING), LockOrder(1, 9), Second(HOLDING));
    assert Follows(Second(HOLDING), UpdateOrders(1), Second(PARTIAL));
    assert Overlaid(FIRST_GONE, {2}) == STRANDED.products;
    assert Follows(Second(PARTIAL), Commit(1), STRANDED);
  }

  lemma StrandingPath() returns (states: seq<State>, steps: seq<Step>)
    ensures Path(Follows, states, steps) && states[0] == BEFORE && states[|steps|] == STRANDED
  {
    Opening();
    ItemsTurn();
    ListingTurn();
    FirstDecides();
    SecondDecides();
    states, steps := [BEFORE, ONE_OPEN, Both(NONE, NONE)], [Begin(0, {1}), Begin(1, {2})];
    states, steps := Joined(Follows, states, steps,
      [Both(NONE, NONE), Both(LockingItems({1}), NONE), Both(ItemsShipped, NONE), Both(ItemsShipped, LockingItems({2})),
       Both(ItemsShipped, ItemsShipped)],
      [LockItem(0, 1), ShipItems(0), LockItem(1, 2), ShipItems(1)]);
    states, steps := Joined(Follows, states, steps,
      [Both(ItemsShipped, ItemsShipped), Both(WAITING, ItemsShipped), Both(WAITING, WAITING)], [ListOrders(0), ListOrders(1)]);
    states, steps := Joined(Follows, states, steps,
      [Both(WAITING, WAITING), Both(HOLDING, WAITING), Both(PARTIAL, WAITING), Second(WAITING)],
      [LockOrder(0, 9), UpdateOrders(0), Commit(0)]);
    states, steps := Joined(Follows, states, steps,
      [Second(WAITING), Second(HOLDING), Second(PARTIAL), STRANDED], [LockOrder(1, 9), UpdateOrders(1), Commit(1)]);
  }

  lemma PathIsRun(states: seq<State>, steps: seq<Step>)
    requires Path(Follows, states, steps) && Fresh(ONE_STATEMENT, states[0])
    ensures IsRun(ONE_STATEMENT, states, steps)
  {
    var w := ONE_STATEMENT;
    forall k | 0 <= k < |steps|
      ensures Enabled(w, states[k], steps[k]) && states[k + 1] == Apply(w, states[k], steps[k])
    {
      assert Follows(states[k], steps[k], states[k + 1]);
    }
  }

  // Two operators ship the two products of one order at the same time; both decide on snapshots that
  // miss the other's product, and the order stays PARTIALLY_SHIPPED with nothing left to ship.
  lemma OneStatementStrandsAnOrder() returns (states: seq<State>, steps: seq<Step>)
    ensures IsRun(ONE_STATEMENT, states, steps)
    ensures var s := states[|steps|];
            && s.open == map[] && (forall p :: p in s.products ==> s.products[p] == SHIPPED)
            && s.orders == map[9 := PARTIALLY_SHIPPED] && !NotStranded(ONE_STATEMENT, s, 9)
  {
    states, steps := StrandingPath();
    var own := set p | p in ONE_STATEMENT.orderOf && ONE_STATEMENT.orderOf[p] == 9 && p in STRANDED.products;
    assert ONE_STATEMENT.orderOf[1] == 9;
    assert 1 in own;
    PathIsRun(states, steps);
  }
}
