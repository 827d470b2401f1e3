// Settling the actions of a mined transaction: outcomes from receipt logs and contract state, then
// one statement for the applied actions and one per refusal reason
// (ledger-adapter/internal/consumer/reconcile.go, ledger-adapter/internal/chain/{warehouseactions,actioncontract}.go).
module Settling {
  import opened Basics
  import opened EventStore
  import opened ActionOutcomes

  // ------------------------------------------------------------------------- receipt logs

  datatype Event = ActionApplied | ActionRejected | OtherEvent

  // id is missing when the log has no second topic, reason when its data does not unpack.
  datatype Log = Log(address: nat, event: Event, id: Option<Id>, reason: Option<nat>)

  predicate Concerns(l: Log, address: nat) {
    l.address == address && l.event != OtherEvent
  }

  predicate Malformed(l: Log, address: nat) {
    Concerns(l, address) && (l.id == None || (l.event == ActionRejected && l.reason == None))
  }

  function OutcomeOf(l: Log): Outcome
    requires l.event != OtherEvent && (l.event == ActionRejected ==> l.reason.Some?)
  {
    if l.event == ActionApplied then Applied else Rejected(l.reason.value)
  }

  // Log i is this contract's ActionApplied for the action, or its ActionRejected with the reason.
  ghost predicate LogReports(logs: seq<Log>, address: nat, i: int, id: Id, o: Outcome) {
    && 0 <= i < |logs| && logs[i].address == address && logs[i].id == Some(id)
    && match o
       case Applied => logs[i].event == ActionApplied
       case Rejected(reason) => logs[i].event == ActionRejected && logs[i].reason == Some(reason)
  }

  // The last log of an action counts.
  ghost predicate IsLogOutcome(logs: seq<Log>, address: nat, id: Id, o: Outcome) {
    exists i :: LogReports(logs, address, i, id, o) && forall j, p :: i < j && LogReports(logs, address, j, id, p) ==> p == o
  }

  ghost predicate LogOutcomesAre(logs: seq<Log>, address: nat, outcomes: map<Id, Outcome>) {
    && (forall id :: id in outcomes ==> IsLogOutcome(logs, address, id, outcomes[id]))
    && (forall i, id, o :: LogReports(logs, address, i, id, o) ==> id in outcomes)
  }

  lemma LogOutcomesUnique(logs: seq<Log>, address: nat, a: map<Id, Outcome>, b: map<Id, Outcome>)
    requires LogOutcomesAre(logs, address, a) && LogOutcomesAre(logs, address, b)
    ensures a == b
  {
  }

  method LogOutcomes(address: nat, logs: seq<Log>) returns (outcomes: Option<map<Id, Outcome>>)
    ensures outcomes == None <==> exists i :: 0 <= i < |logs| && Malformed(logs[i], address)
    ensures outcomes.Some? ==> LogOutcomesAre(logs, address, outcomes.value)
  {
    var found: map<Id, Outcome> := map[];
    var i := 0;
    while i < |logs|
      invariant 0 <= i <= |logs|
      invariant forall j :: 0 <= j < i ==> !Malformed(logs[j], address)
      invariant LogOutcomesAre(logs[..i], address, found)
    {
      var l := logs[i];
      if Malformed(l, address) {
        return None;
      }
      LogOutcomesSnoc(logs[..i], l, address, found);
      assert logs[..i + 1] == logs[..i] + [l];
      if Concerns(l, address) {
        found := found[l.id.value := OutcomeOf(l)];
      }
      i := i + 1;
    }
    assert logs[..i] == logs;
    outcomes := Some(found);
  }

  lemma LogOutcomesSnoc(logs: seq<Log>, l: Log, address: nat, found: map<Id, Outcome>)
    requires LogOutcomesAre(logs, address, found) && !Malformed(l, address)
    ensures LogOutcomesAre(logs + [l], address, if Concerns(l, address) then found[l.id.value := OutcomeOf(l)] else found)
  {
    var more, next := logs + [l], if Concerns(l, address) then found[l.id.value := OutcomeOf(l)] else found;
    assert forall i, id: Id, o :: LogReports(more, address, i, id, o) <==>
             LogReports(logs, address, i, id, o) || (i == |logs| && Concerns(l, address) && l.id == Some(id) && OutcomeOf(l) == o);
    forall id | id in next
      ensures IsLogOutcome(more, address, id, next[id])
    {
      if Concerns(l, address) && l.id == Some(id) {
        assert LogReports(more, address, |logs|, id, next[id]);
      } else {
        var i :| LogReports(logs, address, i, id, found[id]) && forall j, p :: i < j && LogReports(logs, address, j, id, p) ==> p == found[id];
        assert LogReports(more, address, i, id, next[id]);
      }
    }
  }

  // What the contract does with a list of actions, one after another: an action with a state is passed over,
  // an accepted one logged and recorded, a refused one logged and, unless its signer did not verify, recorded.
  // noise stands for what else is logged on the way, the moves of an action's items first of all.
  function Process(address: nat, state: map<Id, Outcome>, ids: seq<Id>, judge: Id -> Verdict, noise: Id -> seq<Log>): (map<Id, Outcome>, seq<Log>) {
    if ids == [] then (state, [])
    else
      var id := ids[|ids| - 1];
      var (now, logs) := Process(address, state, ids[..|ids| - 1], judge, noise);
      if id in now then (now, logs)
      else
        var more := logs + noise(id) + [LogOf(address, id, judge(id))];
        match judge(id)
        case Accept => (now[id := Applied], more)
        case Refuse(reason, recorded) => (if recorded then now[id := Rejected(reason)] else now, more)
  }

  // Events of other kinds, or of other contracts.
  ghost predicate IsNoise(logs: seq<Log>, address: nat) {
    forall l :: l in logs ==> l.address != address || l.event == OtherEvent
  }

  lemma {:induction false} NoiseReportsNothing(logs: seq<Log>, more: seq<Log>, address: nat, outcomes: map<Id, Outcome>)
    requires LogOutcomesAre(logs, address, outcomes) && IsNoise(more, address)
    ensures LogOutcomesAre(logs + more, address, outcomes)
    decreases |more|
  {
    if more == [] {
      assert logs + more == logs;
    } else {
      var front, last := more[..|more| - 1], more[|more| - 1];
      NoiseReportsNothing(logs, front, address, outcomes);
      LogOutcomesSnoc(logs + front, last, address, outcomes);
      assert logs + more == logs + front + [last];
    }
  }

  // Processing a list leaves the state and the logs of the batch as the delivery machine has them.
  lemma {:induction false} ProcessIsBatch(address: nat, state: map<Id, Outcome>, ids: seq<Id>, judge: Id -> Verdict, noise: Id -> seq<Log>)
    requires forall id :: IsNoise(noise(id), address)
    ensures var (now, logs) := Process(address, state, ids, judge, noise);
            && now == StateAfter(state, Elems(ids), judge)
            && (forall l :: l in logs ==> !Malformed(l, address))
            && LogOutcomesAre(logs, address, LogsOf(state, Elems(ids), judge))
    decreases |ids|
  {
    if ids != [] {
      var front, id := ids[..|ids| - 1], ids[|ids| - 1];
      ProcessIsBatch(address, state, front, judge, noise);
      var (now, logs) := Process(address, state, front, judge, noise);
      assert ids == front + [id];
      OneMoreInBatch(state, front, id, judge);
      if id !in now {
        NoiseReportsNothing(logs, noise(id), address, LogsOf(state, Elems(front), judge));
        LogOutcomesSnoc(logs + noise(id), LogOf(address, id, judge(id)), address, LogsOf(state, Elems(front), judge));
      }
    }
  }

  function LogOf(address: nat, id: Id, v: Verdict): Log {
    match v
    case Accept => Log(address, ActionApplied, Some(id), None)
    case Refuse(reason, _) => Log(address, ActionRejected, Some(id), Some(reason))
  }

  lemma OneMoreInBatch(state: map<Id, Outcome>, front: seq<Id>, id: Id, judge: Id -> Verdict)
    ensures var ids, now, v := Elems(front + [id]), StateAfter(state, Elems(front), judge), judge(id);
            && StateAfter(state, ids, judge) == (if id in now || (v.Refuse? && !v.recorded) then now else now[id := OutcomeOfVerdict(v)])
            && LogsOf(state, ids, judge) == (if id in now then LogsOf(state, Elems(front), judge) else LogsOf(state, Elems(front), judge)[id := OutcomeOfVerdict(v)])
  {
    assert Elems(front + [id]) == Elems(front) + {id};
    OneMoreState(state, Elems(front), id, judge);
    OneMoreLog(state, Elems(front), id, judge);
  }

  lemma OneMoreState(state: map<Id, Outcome>, front: set<Id>, id: Id, judge: Id -> Verdict)
    ensures var now, v := StateAfter(state, front, judge), judge(id);
            StateAfter(state, front + {id}, judge) == if id in now || (v.Refuse? && !v.recorded) then now else now[id := OutcomeOfVerdict(v)]
  {
  }

  lemma OneMoreLog(state: map<Id, Outcome>, front: set<Id>, id: Id, judge: Id -> Verdict)
    ensures LogsOf(state, front + {id}, judge) ==
            if id in StateAfter(state, front, judge) then LogsOf(state, front, judge) else LogsOf(state, front, judge)[id := OutcomeOfVerdict(judge(id))]
  {
  }

  // From a receipt of the contract's own making LogOutcomes reads exactly what the contract decided.
  method ReadsBack(address: nat, state: map<Id, Outcome>, ids: seq<Id>, judge: Id -> Verdict, noise: Id -> seq<Log>)
    returns (outcomes: map<Id, Outcome>)
    requires forall id :: IsNoise(noise(id), address)
    ensures forall id :: id in outcomes <==> id in ids && id !in state
    ensures forall id :: id in outcomes ==>
              match judge(id)
              case Accept => outcomes[id] == Applied
              case Refuse(reason, _) => outcomes[id] == Rejected(reason)
    ensures outcomes == LogsOf(state, Elems(ids), judge)
  {
    ProcessIsBatch(address, state, ids, judge, noise);
    var logs := Process(address, state, ids, judge, noise).1;
    var read := LogOutcomes(address, logs);
    outcomes := read.value;
    LogOutcomesUnique(logs, address, outcomes, LogsOf(state, Elems(ids), judge));
  }

  // ---------------------------------------------------------------------------- resolving

  // A contract that may know an action: its address for logs, its actionState; fails: ids whose state
  // call errs.
  datatype Resolver = Resolver(address: nat, state: map<Id, Outcome>, fails: set<Id>)

  ghost predicate InLogs(resolvers: seq<Resolver>, logs: seq<Log>, k: int, id: Id, o: Outcome) {
    0 <= k < |resolvers| && IsLogOutcome(logs, resolvers[k].address, id, o)
  }

  // Logs beat state; among logs and among states the earliest resolver wins.
  ghost predicate ByLog(resolvers: seq<Resolver>, logs: seq<Log>, id: Id, o: Outcome) {
    exists k :: InLogs(resolvers, logs, k, id, o) && forall j, p :: 0 <= j < k ==> !InLogs(resolvers, logs, j, id, p)
  }

  ghost predicate Logged(resolvers: seq<Resolver>, logs: seq<Log>, id: Id) {
    exists k, o :: InLogs(resolvers, logs, k, id, o)
  }

  ghost predicate ByState(resolvers: seq<Resolver>, id: Id, o: Outcome) {
    exists k :: StateKnown(resolvers, k, id, o) && forall j :: 0 <= j < k ==> id !in resolvers[j].state && id !in resolvers[j].fails
  }

  ghost predicate StateKnown(resolvers: seq<Resolver>, k: int, id: Id, o: Outcome) {
    0 <= k < |resolvers| && id !in resolvers[k].fails && id in resolvers[k].state && resolvers[k].state[id] == o
  }

  ghost predicate Resolves(resolvers: seq<Resolver>, logs: seq<Log>, id: Id, o: Outcome) {
    ByLog(resolvers, logs, id, o) || (!Logged(resolvers, logs, id) && ByState(resolvers, id, o))
  }

  method StateOutcome(r: Resolver, id: Id) returns (o: Option<Outcome>, err: bool)
    ensures err <==> id in r.fails
    ensures !err ==> o == if id in r.state then Some(r.state[id]) else None
  {
    if id in r.fails {
      return None, true;
    }
    if id in r.state {
      return Some(r.state[id]), false;
    }
    return None, false;
  }

  ghost predicate LogsReadable(resolvers: seq<Resolver>, logs: seq<Log>) {
    forall k, i :: 0 <= k < |resolvers| && 0 <= i < |logs| ==> !Malformed(logs[i], resolvers[k].address)
  }

  function Merged(first: map<Id, Outcome>, second: map<Id, Outcome>): map<Id, Outcome> {
    map id | id in first.Keys + second.Keys :: if id in first then first[id] else second[id]
  }

  // The first loop: logs of all resolvers, the first found outcome kept.
  method CollectLogs(resolvers: seq<Resolver>, logs: seq<Log>) returns (outcomes: Option<map<Id, Outcome>>)
    ensures outcomes.Some? <==> LogsReadable(resolvers, logs)
    ensures outcomes.Some? ==> forall id :: (id in outcomes.value <==> Logged(resolvers, logs, id))
                                            && (id in outcomes.value ==> ByLog(resolvers, logs, id, outcomes.value[id]))
  {
    var found: map<Id, Outcome> := map[];
    var k := 0;
    while k < |resolvers|
      invariant 0 <= k <= |resolvers| && LogsReadable(resolvers[..k], logs)
      invariant forall id :: (id in found <==> Logged(resolvers[..k], logs, id)) && (id in found ==> ByLog(resolvers[..k], logs, id, found[id]))
    {
      var fromLogs := LogOutcomes(resolvers[k].address, logs);
      assert resolvers[..k + 1] == resolvers[..k] + [resolvers[k]];
      if fromLogs == None {
        return None;
      }
      CollectOneMore(resolvers[..k], resolvers[k], logs, found, fromLogs.value);
      found := Merged(found, fromLogs.value);
      k := k + 1;
    }
    assert resolvers[..k] == resolvers;
    outcomes := Some(found);
  }

  lemma CollectOneMore(resolvers: seq<Resolver>, r: Resolver, logs: seq<Log>, found: map<Id, Outcome>, fromLogs: map<Id, Outcome>)
    requires LogOutcomesAre(logs, r.address, fromLogs)
    requires forall id :: (id in found <==> Logged(resolvers, logs, id)) && (id in found ==> ByLog(resolvers, logs, id, found[id]))
    ensures var next := Merged(found, fromLogs);
            forall id :: (id in next <==> Logged(resolvers + [r], logs, id)) && (id in next ==> ByLog(resolvers + [r], logs, id, next[id]))
  {
    var more := resolvers + [r];
    assert forall k, id: Id, o :: InLogs(more, logs, k, id, o) <==> InLogs(resolvers, logs, k, id, o) || (k == |resolvers| && IsLogOutcome(logs, r.address, id, o));
    forall id
      ensures (id in found || id in fromLogs) <==> Logged(more, logs, id)
      ensures id in found ==> ByLog(more, logs, id, found[id])
      ensures id !in found && id in fromLogs ==> ByLog(more, logs, id, fromLogs[id])
    {
      if id in found {
        var k :| InLogs(resolvers, logs, k, id, found[id]) && forall j, p :: 0 <= j < k ==> !InLogs(resolvers, logs, j, id, p);
        assert InLogs(more, logs, k, id, found[id]);
      } else if id in fromLogs {
        assert InLogs(more, logs, |resolvers|, id, fromLogs[id]);
      }
    }
  }

  // The state fallback for one action; None when no resolver knows it or one asked before errs.
  method AskStates(resolvers: seq<Resolver>, id: Id) returns (o: Option<Outcome>)
    ensures o.Some? ==> ByState(resolvers, id, o.value)
    ensures o == None ==> forall p :: !ByState(resolvers, id, p)
  {
    var k := 0;
    while k < |resolvers|
      invariant 0 <= k <= |resolvers|
      invariant forall j :: 0 <= j < k ==> id !in resolvers[j].state && id !in resolvers[j].fails
    {
      var known, err := StateOutcome(resolvers[k], id);
      if err {
        return None;
      }
      if known.Some? {
        assert StateKnown(resolvers, k, id, known.value);
        return known;
      }
      k := k + 1;
    }
    return None;
  }

  // Every id is resolved, or nothing is returned.
  method ResolveActionOutcomes(resolvers: seq<Resolver>, logs: seq<Log>, ids: seq<Id>) returns (outcomes: Option<map<Id, Outcome>>)
    ensures outcomes.Some? <==> LogsReadable(resolvers, logs) && forall id :: id in ids ==> exists o :: Resolves(resolvers, logs, id, o)
    ensures outcomes.Some? ==> forall id :: id in ids ==> id in outcomes.value && Resolves(resolvers, logs, id, outcomes.value[id])
  {
    outcomes := CollectLogs(resolvers, logs);
    if outcomes == None {
      return;
    }
    var found := outcomes.value;
    var i := 0;
    while i < |ids|
      invariant 0 <= i <= |ids| && outcomes.Some? && outcomes.value.Keys <= found.Keys
      invariant forall id :: id in outcomes.value ==> found[id] == outcomes.value[id]
      invariant forall j :: 0 <= j < i ==> ids[j] in found
      invariant forall id :: id in found ==> Resolves(resolvers, logs, id, found[id])
    {
      if ids[i] !in found {
        var o := AskStates(resolvers, ids[i]);
        if o == None {
          assert ids[i] in ids && forall p :: !Resolves(resolvers, logs, ids[i], p);
          return None;
        }
        found := found[ids[i] := o.value];
      }
      i := i + 1;
    }
    outcomes := Some(found);
  }

  // Only one outcome per action, however it was found.
  lemma ResolvesUnique(resolvers: seq<Resolver>, logs: seq<Log>, id: Id, a: Outcome, b: Outcome)
    requires Resolves(resolvers, logs, id, a) && Resolves(resolvers, logs, id, b)
    ensures a == b
  {
  }

  // Seen as one journal and one state map, the resolvers answer as the delivery machine's chain does.
  lemma AsOneContract(resolvers: seq<Resolver>, logs: seq<Log>, journal: map<Id, Outcome>, state: map<Id, Outcome>, id: Id, o: Outcome)
    requires id in journal <==> Logged(resolvers, logs, id)
    requires id in journal ==> ByLog(resolvers, logs, id, journal[id])
    requires id in state <==> exists p :: ByState(resolvers, id, p)
    requires id in state ==> ByState(resolvers, id, state[id])
    ensures Resolves(resolvers, logs, id, o) <==> Resolve(journal, state, id) == Some(o)
  {
  }
}
