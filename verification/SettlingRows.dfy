// Writing the outcomes of a transaction to its rows, and the sweep over transactions
// (ledger-adapter/internal/consumer/reconcile.go).
module SettlingRows {
  import opened Basics
  import opened EventStore
  import opened ActionOutcomes
  import opened Settling

  // How the database answers a statement: done; an error although it was applied; an error.
  datatype Answer = Done | AppliedButErred | Erred

  // Statements that will not be answered well.
  function Errors(answers: seq<Answer>): nat {
    if answers == [] then 0 else (if answers[0] == Done then 0 else 1) + Errors(answers[1..])
  }

  class Store {
    var rows: Rows
    var answers: seq<Answer>

    constructor (r: Rows, a: seq<Answer>)
      ensures rows == r && answers == a
    {
      rows, answers := r, a;
    }

    method Update(st: Statement) returns (ok: bool)
      requires !st.InsertPending?
      modifies this
      ensures ok ==> rows == Execute(old(rows), st)
      ensures !ok ==> rows == old(rows) || rows == Execute(old(rows), st)
      ensures Errors(old(answers)) == Errors(answers) + if ok then 0 else 1
    {
      var answer := if answers == [] then Done else answers[0];
      if answers != [] {
        answers := answers[1..];
      }
      if answer != Erred {
        rows := Execute(rows, st);
      }
      ok := answer == Done;
    }
  }

  function SettledRow(r: Row, tx: TxHash, o: Outcome): Row {
    match o
    case Applied => CommittedRow(r)
    case Rejected(reason) => RejectedRow(r, Some(tx), reason)
  }

  // The row of a settled action: COMMITTED if applied; FAILED with the contract's reason and the transaction if
  // refused, unless it was COMMITTED before.
  lemma SettledMeans(r: Row, tx: TxHash, o: Outcome)
    ensures match o
            case Applied => SettledRow(r, tx, o).status == COMMITTED && SettledRow(r, tx, o).tx == r.tx && SettledRow(r, tx, o).reason == r.reason
            case Rejected(reason) => SettledRow(r, tx, o) == if r.status == COMMITTED then r else Row(FAILED, Some(tx), Some(reason))
  {
  }

  // What settling one action after another, in any order, comes to.
  function SettledRows(rows: Rows, tx: TxHash, outcomes: map<Id, Outcome>, ids: set<Id>): Rows {
    map id | id in rows :: if id in ids && id in outcomes then SettledRow(rows[id], tx, outcomes[id]) else rows[id]
  }

  function SettleOne(rows: Rows, tx: TxHash, id: Id, o: Outcome): Rows {
    Execute(rows, match o
                  case Applied => MarkCommitted({id})
                  case Rejected(reason) => MarkRejected({id}, Some(tx), reason))
  }

  function SettleEach(rows: Rows, tx: TxHash, outcomes: map<Id, Outcome>, ids: seq<Id>): Rows
    requires forall id :: id in ids ==> id in outcomes
  {
    if ids == [] then rows
    else SettleOne(SettleEach(rows, tx, outcomes, ids[..|ids| - 1]), tx, ids[|ids| - 1], outcomes[ids[|ids| - 1]])
  }

  lemma {:induction false} EachIsBatch(rows: Rows, tx: TxHash, outcomes: map<Id, Outcome>, ids: seq<Id>)
    requires forall id :: id in ids ==> id in outcomes
    ensures SettleEach(rows, tx, outcomes, ids) == SettledRows(rows, tx, outcomes, Elems(ids))
    decreases |ids|
  {
    if ids != [] {
      var front, last := ids[..|ids| - 1], ids[|ids| - 1];
      EachIsBatch(rows, tx, outcomes, front);
      assert ids == front + [last];
      assert Elems(ids) == Elems(front) + {last};
    }
  }

  // After a run that was cut short, another one reaches the rows a single clean run would have
  // reached; after a clean run it changes nothing.
  ghost predicate Halfway(rows: Rows, rows': Rows, tx: TxHash, outcomes: map<Id, Outcome>, ids: set<Id>) {
    rows'.Keys == rows.Keys && forall id :: id in rows ==> rows'[id] == rows[id] || rows'[id] == SettledRows(rows, tx, outcomes, ids)[id]
  }

  lemma RerunCompletes(rows: Rows, rows': Rows, tx: TxHash, outcomes: map<Id, Outcome>, ids: set<Id>)
    requires Halfway(rows, rows', tx, outcomes, ids)
    ensures SettledRows(rows', tx, outcomes, ids) == SettledRows(rows, tx, outcomes, ids)
  {
  }

  // ------------------------------------------------------------- one transaction's outcomes

  datatype Settlement = SETTLED | NOT_CONFIGURED | UNRESOLVED | STORE_ERROR

  // The applied ids and the groups by reason share out the ids.
  ghost predicate Partition(ids: seq<Id>, outcomes: map<Id, Outcome>, applied: seq<Id>, byReason: map<nat, seq<Id>>) {
    && (forall id :: id in applied <==> id in ids && id in outcomes && outcomes[id] == Applied)
    && (forall reason, id :: reason in byReason && id in byReason[reason] <==>
          reason in byReason && id in ids && id in outcomes && outcomes[id] == Rejected(reason))
    && (forall id :: id in ids && id in outcomes && outcomes[id].Rejected? ==> outcomes[id].reason in byReason)
  }

  method GroupByOutcome(ids: seq<Id>, outcomes: map<Id, Outcome>) returns (applied: seq<Id>, byReason: map<nat, seq<Id>>)
    requires forall id :: id in ids ==> id in outcomes
    ensures Partition(ids, outcomes, applied, byReason)
  {
    applied, byReason := [], map[];
    var i := 0;
    while i < |ids|
      invariant 0 <= i <= |ids| && Partition(ids[..i], outcomes, applied, byReason)
    {
      var id := ids[i];
      assert ids[..i + 1] == ids[..i] + [id];
      match outcomes[id] {
        case Applied => applied := applied + [id];
        case Rejected(reason) =>
          byReason := byReason[reason := (if reason in byReason then byReason[reason] else []) + [id]];
      }
      i := i + 1;
    }
    assert ids[..i] == ids;
  }

  // Settled so far: the applied actions and the groups of the reasons already written.
  function SettledUpTo(rows: Rows, tx: TxHash, outcomes: map<Id, Outcome>, ids: seq<Id>, left: set<nat>): Rows {
    map id | id in rows ::
      if id in ids && id in outcomes && (outcomes[id] == Applied || outcomes[id].reason !in left) then SettledRow(rows[id], tx, outcomes[id]) else rows[id]
  }

  method WriteOutcomes(store: Store, ids: seq<Id>, tx: TxHash, outcomes: map<Id, Outcome>, applied: seq<Id>, byReason: map<nat, seq<Id>>)
    returns (ok: bool)
    requires Partition(ids, outcomes, applied, byReason)
    modifies store
    ensures ok ==> store.rows == SettledRows(old(store.rows), tx, outcomes, Elems(ids))
    ensures Halfway(old(store.rows), store.rows, tx, outcomes, Elems(ids))
    ensures Errors(old(store.answers)) == Errors(store.answers) + if ok then 0 else 1
  {
    ghost var before := store.rows;
    AppliedSettle(before, ids, tx, outcomes, applied, byReason);
    UpToIsHalfway(before, tx, outcomes, ids, byReason.Keys);
    if |applied| > 0 {
      ok := store.Update(MarkCommitted(Elems(applied)));
      if !ok {
        return;
      }
    }
    ok := WriteGroups(store, ids, tx, outcomes, applied, byReason, before);
  }

  lemma AppliedSettle(before: Rows, ids: seq<Id>, tx: TxHash, outcomes: map<Id, Outcome>, applied: seq<Id>, byReason: map<nat, seq<Id>>)
    requires Partition(ids, outcomes, applied, byReason)
    ensures Execute(before, MarkCommitted(Elems(applied))) == SettledUpTo(before, tx, outcomes, ids, byReason.Keys)
    ensures applied == [] ==> before == SettledUpTo(before, tx, outcomes, ids, byReason.Keys)
  {
  }

  lemma UpToIsHalfway(before: Rows, tx: TxHash, outcomes: map<Id, Outcome>, ids: seq<Id>, left: set<nat>)
    ensures Halfway(before, SettledUpTo(before, tx, outcomes, ids, left), tx, outcomes, Elems(ids))
    ensures SettledUpTo(before, tx, outcomes, ids, {}) == SettledRows(before, tx, outcomes, Elems(ids))
    ensures Halfway(before, before, tx, outcomes, Elems(ids))
  {
  }

  method WriteGroups(store: Store, ids: seq<Id>, tx: TxHash, outcomes: map<Id, Outcome>, applied: seq<Id>, byReason: map<nat, seq<Id>>,
                     ghost before: Rows)
    returns (ok: bool)
    requires Partition(ids, outcomes, applied, byReason)
    requires store.rows == SettledUpTo(before, tx, outcomes, ids, byReason.Keys)
    modifies store
    ensures ok ==> store.rows == SettledRows(before, tx, outcomes, Elems(ids))
    ensures Halfway(before, store.rows, tx, outcomes, Elems(ids))
    ensures Errors(old(store.answers)) == Errors(store.answers) + if ok then 0 else 1
  {
    var left := byReason.Keys;
    while left != {}
      invariant left <= byReason.Keys && store.rows == SettledUpTo(before, tx, outcomes, ids, left)
      invariant Errors(old(store.answers)) == Errors(store.answers)
      decreases |left|
    {
      var reason :| reason in left;
      GroupSettles(before, ids, tx, outcomes, byReason, applied, left, reason);
      UpToIsHalfway(before, tx, outcomes, ids, left);
      UpToIsHalfway(before, tx, outcomes, ids, left - {reason});
      ok := store.Update(MarkRejected(Elems(byReason[reason]), Some(tx), reason));
      if !ok {
        return;
      }
      left := left - {reason};
    }
    UpToIsHalfway(before, tx, outcomes, ids, {});
    ok := true;
  }

  lemma GroupSettles(before: Rows, ids: seq<Id>, tx: TxHash, outcomes: map<Id, Outcome>, byReason: map<nat, seq<Id>>, applied: seq<Id>,
                     left: set<nat>, reason: nat)
    requires Partition(ids, outcomes, applied, byReason) && reason in left && left <= byReason.Keys
    ensures Execute(SettledUpTo(before, tx, outcomes, ids, left), MarkRejected(Elems(byReason[reason]), Some(tx), reason)) ==
            SettledUpTo(before, tx, outcomes, ids, left - {reason})
  {
  }

  // All ids are resolved before the first row is written.
  method ApplyActionOutcomes(store: Store, resolvers: seq<Resolver>, logs: seq<Log>, ids: seq<Id>, tx: TxHash)
    returns (r: Settlement, ghost outcomes: map<Id, Outcome>)
    modifies store
    ensures r == NOT_CONFIGURED <==> resolvers == []
    ensures r == UNRESOLVED <==> resolvers != [] && !Resolvable(resolvers, logs, ids)
    ensures r in {NOT_CONFIGURED, UNRESOLVED} ==> store.rows == old(store.rows)
    ensures r in {SETTLED, STORE_ERROR} ==>
              && (forall id :: id in ids ==> id in outcomes && Resolves(resolvers, logs, id, outcomes[id]))
              && Halfway(old(store.rows), store.rows, tx, outcomes, Elems(ids))
    ensures r == SETTLED ==> store.rows == SettledRows(old(store.rows), tx, outcomes, Elems(ids))
    ensures Errors(old(store.answers)) == Errors(store.answers) + if r == STORE_ERROR then 1 else 0
  {
    outcomes := map[];
    if resolvers == [] {
      return NOT_CONFIGURED, outcomes;
    }
    var resolved := ResolveActionOutcomes(resolvers, logs, ids);
    if resolved == None {
      return UNRESOLVED, outcomes;
    }
    outcomes := resolved.value;
    var applied, byReason := GroupByOutcome(ids, resolved.value);
    var ok := WriteOutcomes(store, ids, tx, resolved.value, applied, byReason);
    r := if ok then SETTLED else STORE_ERROR;
  }

  ghost predicate Resolvable(resolvers: seq<Resolver>, logs: seq<Log>, ids: seq<Id>) {
    LogsReadable(resolvers, logs) && forall id :: id in ids ==> exists o :: Resolves(resolvers, logs, id, o)
  }

  // --------------------------------------------------------------------------- the sweep

  // What TransactionReceipt answers.
  datatype Lookup = NotMined | RpcError | Receipt(success: bool, logs: seq<Log>)

  // Where a listed row of transaction tx ends up, given the ids listed with it.
  ghost predicate SweptTo(before: Row, after: Row, id: Id, group: seq<Id>, tx: TxHash, found: Lookup, resolvers: seq<Resolver>) {
    match found
    case NotMined => after == before
    case RpcError => after == before
    case Receipt(success, logs) =>
      if !success then after == FailedRow(before, Some(tx))
      else if resolvers == [] || !Resolvable(resolvers, logs, group) then after == before
      else exists o :: Resolves(resolvers, logs, id, o) && after == SettledRow(before, tx, o)
  }

  ghost predicate AllSwept(before: Rows, after: Rows, group: seq<Id>, tx: TxHash, found: Lookup, resolvers: seq<Resolver>) {
    && after.Keys == before.Keys
    && forall id :: id in before ==>
         if id in group then SweptTo(before[id], after[id], id, group, tx, found, resolvers) else after[id] == before[id]
  }

  // Cut short: each row of the group is as before or where it belongs, no other row is touched.
  ghost predicate PartlySwept(before: Rows, after: Rows, group: seq<Id>, tx: TxHash, found: Lookup, resolvers: seq<Resolver>) {
    && after.Keys == before.Keys
    && forall id :: id in before ==>
         after[id] == before[id] || (id in group && SweptTo(before[id], after[id], id, group, tx, found, resolvers))
  }

  lemma HalfwayIsPartly(before: Rows, after: Rows, group: seq<Id>, tx: TxHash, logs: seq<Log>, resolvers: seq<Resolver>, outcomes: map<Id, Outcome>)
    requires Halfway(before, after, tx, outcomes, Elems(group)) && resolvers != [] && Resolvable(resolvers, logs, group)
    requires forall id :: id in group ==> id in outcomes && Resolves(resolvers, logs, id, outcomes[id])
    ensures PartlySwept(before, after, group, tx, Receipt(true, logs), resolvers)
  {
    forall id | id in before && after[id] != before[id]
      ensures id in group && SweptTo(before[id], after[id], id, group, tx, Receipt(true, logs), resolvers)
    {
      assert Resolves(resolvers, logs, id, outcomes[id]);
    }
  }

  // Never sends anything: a mined transaction is settled or failed, any other left alone.
  method ReconcileReceipt(store: Store, found: Lookup, ids: seq<Id>, tx: TxHash, resolvers: seq<Resolver>) returns (terminal: bool, err: bool)
    modifies store
    ensures terminal ==> !err && found.Receipt?
    ensures !err && !terminal <==> found == NotMined
    ensures err <==> match found
                     case NotMined => false
                     case RpcError => true
                     case Receipt(success, logs) =>
                       Errors(store.answers) < Errors(old(store.answers)) || (success && (resolvers == [] || !Resolvable(resolvers, logs, ids)))
    ensures found == NotMined ==> store.rows == old(store.rows)
    ensures PartlySwept(old(store.rows), store.rows, ids, tx, found, resolvers)
    ensures terminal ==> AllSwept(old(store.rows), store.rows, ids, tx, found, resolvers)
    ensures Errors(store.answers) <= Errors(old(store.answers))
    ensures Errors(store.answers) == Errors(old(store.answers)) ==> AllSwept(old(store.rows), store.rows, ids, tx, found, resolvers)
  {
    ghost var before := store.rows;
    match found
    case NotMined => return false, false;
    case RpcError => return false, true;
    case Receipt(success, logs) =>
      if success {
        var r, outcomes := ApplyActionOutcomes(store, resolvers, logs, ids, tx);
        if r == SETTLED {
          forall id | id in before && id in ids
            ensures SweptTo(before[id], store.rows[id], id, ids, tx, found, resolvers)
          {
            assert Resolves(resolvers, logs, id, outcomes[id]);
          }
        } else if r == STORE_ERROR {
          HalfwayIsPartly(before, store.rows, ids, tx, logs, resolvers, outcomes);
        }
        return r == SETTLED, r != SETTLED;
      }
      var ok := store.Update(MarkFailed(Elems(ids), Some(tx)));
      return ok, !ok;
  }

  // The same listing and chain lead to the same rows: each row's end is fixed, so the order in which
  // the sweep takes the transactions does not matter.
  lemma SweepIsDeterminate(before: Row, a: Row, b: Row, id: Id, group: seq<Id>, tx: TxHash, found: Lookup, resolvers: seq<Resolver>)
    requires SweptTo(before, a, id, group, tx, found, resolvers) && SweptTo(before, b, id, group, tx, found, resolvers)
    ensures a == b
  {
  }

  ghost predicate Grouped(listed: seq<(Id, TxHash)>, byTx: map<TxHash, seq<Id>>) {
    forall tx, id :: tx in byTx && id in byTx[tx] <==> (id, tx) in listed
  }

  // A listed row ends where its own transaction says; if that one erred, there or where it was.
  ghost predicate SweepsRow(before: Rows, after: Rows, id: Id, tx: TxHash, byTx: map<TxHash, seq<Id>>, erred: set<TxHash>, lookup: TxHash -> Lookup,
                            resolvers: seq<Resolver>)
    requires id in before && id in after && tx in byTx
  {
    || SweptTo(before[id], after[id], id, byTx[tx], tx, lookup(tx), resolvers)
    || (tx in erred && after[id] == before[id])
  }

  // One receipt lookup a transaction; a transaction that errs does not stop the others.
  method ReconcileOnce(store: Store, listed: seq<(Id, TxHash)>, lookup: TxHash -> Lookup, resolvers: seq<Resolver>)
    returns (ghost byTx: map<TxHash, seq<Id>>, ghost erred: set<TxHash>)
    requires forall i, j :: 0 <= i < j < |listed| ==> listed[i].0 != listed[j].0
    modifies store
    ensures Grouped(listed, byTx) && store.rows.Keys == old(store.rows).Keys
    ensures forall id, tx :: id in store.rows && (id, tx) in listed ==>
              tx in byTx && SweepsRow(old(store.rows), store.rows, id, tx, byTx, erred, lookup, resolvers)
    ensures forall id :: id in store.rows && (forall tx :: (id, tx) !in listed) ==> store.rows[id] == old(store.rows)[id]
    ensures |erred| <= Errors(old(store.answers))
  {
    var groups := GroupByTx(listed);
    byTx, erred := groups, {};
    ghost var before := store.rows;
    var left := groups.Keys;
    while left != {}
      invariant left <= groups.Keys && SweptSoFar(before, store.rows, groups, left, erred, lookup, resolvers)
      invariant |erred| + Errors(store.answers) <= Errors(old(store.answers))
      decreases |left|
    {
      var tx :| tx in left;
      ghost var rows, errors := store.rows, Errors(store.answers);
      assert forall t, id :: t in groups && id in groups[t] && id in groups[tx] ==> (id, t) in listed && (id, tx) in listed;
      var terminal, err := ReconcileReceipt(store, lookup(tx), groups[tx], tx, resolvers);
      ghost var erring := if Errors(store.answers) < errors then erred + {tx} else erred;
      OneMoreSwept(before, rows, store.rows, groups, left, tx, erred, erring, lookup, resolvers);
      erred := erring;
      left := left - {tx};
    }
  }

  // Rows of the transactions still to be swept, and rows not listed, are as they were.
  ghost predicate SweptSoFar(before: Rows, rows: Rows, groups: map<TxHash, seq<Id>>, left: set<TxHash>, erred: set<TxHash>, lookup: TxHash -> Lookup,
                             resolvers: seq<Resolver>)
  {
    && rows.Keys == before.Keys
    && (forall tx, id :: tx in groups && id in groups[tx] && id in before ==>
          if tx in left then rows[id] == before[id] else SweepsRow(before, rows, id, tx, groups, erred, lookup, resolvers))
    && (forall id :: id in before && (forall tx :: tx in groups ==> id !in groups[tx]) ==> rows[id] == before[id])
  }

  lemma OneMoreSwept(before: Rows, rows: Rows, after: Rows, groups: map<TxHash, seq<Id>>, left: set<TxHash>, tx: TxHash, erred: set<TxHash>,
                     erring: set<TxHash>, lookup: TxHash -> Lookup, resolvers: seq<Resolver>)
    requires SweptSoFar(before, rows, groups, left, erred, lookup, resolvers) && tx in left && tx in groups
    requires forall t, id :: t in groups && id in groups[t] && id in groups[tx] ==> t == tx
    requires PartlySwept(rows, after, groups[tx], tx, lookup(tx), resolvers) && erred <= erring
    requires tx !in erring ==> AllSwept(rows, after, groups[tx], tx, lookup(tx), resolvers)
    ensures SweptSoFar(before, after, groups, left - {tx}, erring, lookup, resolvers)
  {
    forall t, id | t in groups && id in groups[t] && id in before
      ensures if t in left - {tx} then after[id] == before[id] else SweepsRow(before, after, id, t, groups, erring, lookup, resolvers)
    {
      if t != tx {
        assert id !in groups[tx] && after[id] == rows[id];
      }
    }
  }

  method GroupByTx(listed: seq<(Id, TxHash)>) returns (byTx: map<TxHash, seq<Id>>)
    ensures Grouped(listed, byTx)
  {
    byTx := map[];
    var i := 0;
    while i < |listed|
      invariant 0 <= i <= |listed| && Grouped(listed[..i], byTx)
    {
      var id, tx := listed[i].0, listed[i].1;
      assert listed[..i + 1] == listed[..i] + [(id, tx)];
      byTx := byTx[tx := (if tx in byTx then byTx[tx] else []) + [id]];
      i := i + 1;
    }
    assert listed[..i] == listed;
  }
}
