// The collector as it runs: confirm every transaction of a batch, then commit its offsets
// (ledger-adapter/internal/consumer/{pipeline,flusher_confirm,reconcile}.go).
module AdapterCollector {
  import opened Basics
  import opened EventStore
  import opened ActionChunks
  import opened ActionOutcomes
  import opened DeliveryMachine
  import opened DeliveryInvariants
  import opened DeliverySteps
  import opened DeliveryLedgerSteps
  import opened DeliveryChainSteps
  import opened AdapterWorld

  predicate CollectorIsOther(st: Step) {
    !st.Take? && !st.ConfirmWrite? && !st.ConfirmError? && !st.Commit? && !st.StopCollector? && !st.Restart?
  }

  // The batch in hand stays, evidence on chain only grows.
  ghost predicate Untouched(s: State, s': State) {
    && s'.pipe.current == s.pipe.current && s'.pipe.dead == s.pipe.dead && s'.pipe.commits == s.pipe.commits
    && s'.committed == s.committed && s.pipe.queue <= s'.pipe.queue && ChainGrows(s.chain, s'.chain)
  }

  lemma OthersLeaveBatch(topic: Topic, window: nat, s: State, st: Step)
    requires CollectorIsOther(st) && Enabled(topic, window, s, st)
    ensures Untouched(s, Apply(topic, window, s, st))
  {
    ChainStepGrows(topic, window, s, st);
    MarkMoves(topic, window, s, st);
  }

  lemma GrowthChains(a: Chain, b: Chain, c: Chain)
    requires ChainGrows(a, b) && ChainGrows(b, c)
    ensures ChainGrows(a, c)
  {
  }

  // What Confirm of one transaction came to.
  datatype Confirmed = CONFIRMED | STALLED | ERRED

  datatype Ended = COMMITTED_BATCH | PIPELINE_STALLED | CONFIRM_ERROR | COMMIT_ERROR

  // One goroutine of confirmAndCommit: waiting for the receipt, writing outcomes, or done.
  datatype Worker = Waiting | Writing(left: set<Id>) | Returned(result: Confirmed)

  // Came back without having settled its transaction.
  predicate Broken(x: Worker) {
    x.Returned? && x.result != CONFIRMED
  }

  predicate Running(x: Worker) {
    !x.Returned?
  }

  // What is left to do, for the loop to end.
  function Work(batch: Batch, workers: seq<Worker>): nat
    requires |workers| == |batch.txs|
    decreases |workers|
  {
    if workers == [] then 0
    else
      var k := |workers| - 1;
      Work(batch.(txs := batch.txs[..k]), workers[..k]) + WorkOf(workers[k], batch.txs[k])
  }

  function WorkOf(x: Worker, f: Inflight): nat {
    match x
    case Waiting => |Ids(f.msgs)| + 2
    case Writing(left) => |left| + 1
    case Returned(_) => 0
  }

  lemma {:induction false} WorkShrinks(batch: Batch, workers: seq<Worker>, j: nat, x: Worker)
    requires |workers| == |batch.txs| && j < |workers| && WorkOf(x, batch.txs[j]) < WorkOf(workers[j], batch.txs[j])
    ensures Work(batch, workers[j := x]) < Work(batch, workers)
    decreases |workers|
  {
    var k := |workers| - 1;
    assert workers[j := x][..k] == if j < k then workers[..k][j := x] else workers[..k];
    if j < k {
      WorkShrinks(batch.(txs := batch.txs[..k]), workers[..k], j, x);
    }
  }

  // What worker x of transaction f has made sure of, settled being what it has written.
  ghost predicate WorkerOk(chain: Chain, f: Inflight, x: Worker, settled: set<Id>) {
    match x
    case Waiting => settled == {}
    case Writing(left) => left <= Ids(f.msgs) && settled == Ids(f.msgs) - left && AllKnown(chain, f.tx, Ids(f.msgs))
    case Returned(result) => result == CONFIRMED ==> settled == Ids(f.msgs)
  }

  // Every action of a mined transaction has an outcome.
  ghost predicate AllKnown(chain: Chain, tx: TxHash, ids: set<Id>) {
    tx in chain.receipts && chain.receipts[tx].Mined? && forall id :: id in ids ==> OutcomeAt(chain, tx, id).Some?
  }

  lemma WorkerStays(c: Chain, c': Chain, f: Inflight, x: Worker, settled: set<Id>)
    requires ChainGrows(c, c') && WorkerOk(c, f, x, settled)
    ensures WorkerOk(c', f, x, settled)
  {
  }

  ghost predicate WorkersOk(chain: Chain, batch: Batch, workers: seq<Worker>, settled: seq<set<Id>>) {
    |workers| == |batch.txs| == |settled| && forall i :: 0 <= i < |workers| ==> WorkerOk(chain, batch.txs[i], workers[i], settled[i])
  }

  lemma WorkersStay(c: Chain, c': Chain, batch: Batch, workers: seq<Worker>, settled: seq<set<Id>>, j: nat, x: Worker, done: set<Id>)
    requires ChainGrows(c, c') && WorkersOk(c, batch, workers, settled) && j < |workers| && WorkerOk(c', batch.txs[j], x, done)
    ensures WorkersOk(c', batch, workers[j := x], settled[j := done])
  {
    forall i | 0 <= i < |workers|
      ensures WorkerOk(c', batch.txs[i], workers[j := x][i], settled[j := done][i])
    {
      if i != j {
        WorkerStays(c, c', batch.txs[i], workers[i], settled[i]);
      }
    }
  }

  // Some goroutine returned something else than success.
  ghost predicate SomeFailed(workers: seq<Worker>) {
    exists i :: 0 <= i < |workers| && workers[i].Returned? && workers[i].result != CONFIRMED
  }

  lemma FailedGrows(workers: seq<Worker>, j: nat, x: Worker)
    requires j < |workers| && Running(workers[j])
    ensures SomeFailed(workers[j := x]) <==> SomeFailed(workers) || (x.Returned? && x.result != CONFIRMED)
  {
    var after := workers[j := x];
    if SomeFailed(workers) {
      var i :| 0 <= i < |workers| && workers[i].Returned? && workers[i].result != CONFIRMED;
      assert after[i] == workers[i];
    }
    if x.Returned? && x.result != CONFIRMED {
      assert after[j] == x;
    }
  }

  class Collector {
    const w: World

    constructor (world: World)
      ensures w == world
    {
      w := world;
    }

    method Others()
      requires w.Valid()
      modifies w
      ensures w.Valid() && Untouched(old(w.s), w.s) && w.record == old(w.record)
    {
      var n: nat := *;
      while n > 0
        invariant w.Valid() && Untouched(old(w.s), w.s) && w.record == old(w.record)
      {
        var st: Step := *;
        if CollectorIsOther(st) && Enabled(w.topic, w.window, w.s, st) {
          ghost var before := w.s;
          OthersLeaveBatch(w.topic, w.window, w.s, st);
          w.Do(st);
          GrowthChains(old(w.s).chain, before.chain, w.s.chain);
        }
        n := n - 1;
      }
    }

    // The batch in hand, and what of each of its transactions is written.
    static ghost predicate Holds(s: State, batch: Batch, settled: seq<set<Id>>, failed: bool) {
      s.pipe.current == Some(Confirming(batch, settled, failed)) && |settled| == |batch.txs|
    }

    // One terminal statement for some actions of transaction j.
    method Write(ghost batch: Batch, ghost settled: seq<set<Id>>, ghost failed: bool, j: nat, wr: DeliveryMachine.Write) returns (ok: bool)
      requires w.Valid() && Holds(w.s, batch, settled, failed) && j < |batch.txs|
      requires wr.tx == batch.txs[j].tx && wr.ids <= Ids(batch.txs[j].msgs) && Justified(w.s.chain, wr)
      modifies w
      ensures w.Valid() && ChainGrows(old(w.s).chain, w.s.chain) && SamePipe(old(w.s), w.s)
      ensures ok ==> Holds(w.s, batch, settled[j := settled[j] + wr.ids], failed)
      ensures !ok ==> Holds(w.s, batch, settled, true)
      ensures w.record == Asked(old(w.record), ok)
    {
      ghost var before := w.s.chain;
      Others();
      EvidenceStable(before, w.s.chain, wr);
      ok := w.Ask();
      var applied := w.Effect(ok);
      var published := false;
      if wr.outcome == None {
        published := w.Effect(applied);
      }
      ghost var here := w.s.chain;
      ConfirmWriteKeeps(w.topic, w.window, w.s, j, wr, ok, applied, published);
      w.Do(ConfirmWrite(j, wr, ok, applied, published));
      GrowthChains(before, here, w.s.chain);
    }

    static ghost predicate SamePipe(s: State, s': State) {
      && s'.committed == s.committed && s'.pipe.commits == s.pipe.commits && s'.pipe.dead == s.pipe.dead
      && s.pipe.queue <= s'.pipe.queue
    }

    static lemma ConfirmWriteKeeps(topic: Topic, window: nat, s: State, j: nat, wr: DeliveryMachine.Write, ok: bool, applied: bool, published: bool)
      requires Enabled(topic, window, s, ConfirmWrite(j, wr, ok, applied, published))
      ensures var s' := Apply(topic, window, s, ConfirmWrite(j, wr, ok, applied, published)); s'.chain == s.chain && SamePipe(s, s')
    {
    }

    // Nothing arrived in time, or the database or the resolvers erred.
    method Fail(ghost batch: Batch, ghost settled: seq<set<Id>>, ghost failed: bool)
      requires w.Valid() && Holds(w.s, batch, settled, failed)
      modifies w
      ensures w.Valid() && Holds(w.s, batch, settled, true) && SamePipe(old(w.s), w.s) && w.s.chain == old(w.s).chain
      ensures w.record == old(w.record)
    {
      w.Do(ConfirmError);
    }

    // One turn of a goroutine that waits for its receipt: none in time, outcomes that cannot be found, a
    // revert that fails every action at once, or outcomes to write.
    method Await(ghost batch: Batch, ghost settled: seq<set<Id>>, ghost failed: bool, j: nat, f: Inflight)
      returns (x: Worker, ghost done: set<Id>)
      requires w.Valid() && Holds(w.s, batch, settled, failed) && j < |batch.txs| && f == batch.txs[j] && settled[j] == {}
      modifies w
      ensures w.Valid() && SamePipe(old(w.s), w.s) && ChainGrows(old(w.s).chain, w.s.chain) && WorkerOk(w.s.chain, f, x, done)
      ensures Holds(w.s, batch, settled[j := done], failed || Broken(x))
      ensures !x.Waiting? && (x.Writing? ==> x.left == Ids(f.msgs))
      ensures x == Returned(CONFIRMED) ==> f.tx in w.s.chain.receipts && w.s.chain.receipts[f.tx].Reverted?
      ensures x.Writing? ==> f.tx in w.s.chain.receipts && w.s.chain.receipts[f.tx].Mined?
      ensures w.record == Asked(old(w.record), !Broken(x))
    {
      done := {};
      assert settled[j := done] == settled;
      Others();
      if f.tx !in w.s.chain.receipts {
        w.CutOff(f.tx);
        Fail(batch, settled, failed);
        return Returned(STALLED), done;
      }
      var answered := w.Ask();
      if !answered {
        Fail(batch, settled, failed);
        return Returned(STALLED), done;
      }
      if w.s.chain.receipts[f.tx].Mined? {
        var resolved := w.Ask();
        if !resolved {
          Fail(batch, settled, failed);
          return Returned(ERRED), done;
        }
        MinedIsKnown(batch, settled, failed, j);
        return Writing(Ids(f.msgs)), done;
      }
      ghost var before := w.s.chain;
      var ok := Write(batch, settled, failed, j, DeliveryMachine.Write(f.tx, Ids(f.msgs), None));
      GrowthChains(old(w.s).chain, before, w.s.chain);
      if ok {
        done := Ids(f.msgs);
        assert settled[j] + Ids(f.msgs) == done;
      }
      x := Returned(if ok then CONFIRMED else ERRED);
    }

    // One turn of a goroutine that writes: one statement for the actions of one outcome, or nothing left.
    method WriteGroup(ghost batch: Batch, ghost settled: seq<set<Id>>, ghost failed: bool, j: nat, f: Inflight, left: set<Id>)
      returns (x: Worker, ghost done: set<Id>)
      requires w.Valid() && Holds(w.s, batch, settled, failed) && j < |batch.txs| && f == batch.txs[j]
      requires WorkerOk(w.s.chain, f, Writing(left), settled[j])
      modifies w
      ensures w.Valid() && SamePipe(old(w.s), w.s) && ChainGrows(old(w.s).chain, w.s.chain) && WorkerOk(w.s.chain, f, x, done)
      ensures Holds(w.s, batch, settled[j := done], failed || Broken(x))
      ensures x == Returned(CONFIRMED) <==> left == {}
      ensures !x.Waiting?
      ensures x.Writing? ==> x.left < left
      ensures w.record == Asked(old(w.record), !Broken(x))
    {
      done := settled[j];
      assert settled[j := done] == settled;
      if left == {} {
        return Returned(CONFIRMED), done;
      }
      var id :| id in left;
      var o := OutcomeAt(w.s.chain, f.tx, id);
      var group := set y | y in left && OutcomeAt(w.s.chain, f.tx, y) == o;
      assert id in group && left == (left - group) + group;
      var ok := Write(batch, settled, failed, j, DeliveryMachine.Write(f.tx, group, Some(o.value)));
      WorkerStays(old(w.s).chain, w.s.chain, f, Writing(left), settled[j]);
      if !ok {
        return Returned(ERRED), done;
      }
      done := settled[j] + group;
      x := Writing(left - group);
      assert done == Ids(f.msgs) - x.left;
    }

    lemma MinedIsKnown(batch: Batch, settled: seq<set<Id>>, failed: bool, j: nat)
      requires w.Valid() && Holds(w.s, batch, settled, failed) && j < |batch.txs| && batch.txs[j].tx in w.s.chain.receipts
      requires w.s.chain.receipts[batch.txs[j].tx].Mined?
      ensures AllKnown(w.s.chain, batch.txs[j].tx, Ids(batch.txs[j].msgs))
    {
      RunKeepsInv(w.topic, w.window, w.states, w.steps, |w.steps|);
      BatchTxKnown(w.s, batch.txs[j]);
    }

    static lemma BatchTxKnown(s: State, f: Inflight)
      requires PipeInv(s) && ChainInv(s.chain) && s.pipe.current.Some? && f in s.pipe.current.value.batch.txs
      requires f.tx in s.chain.receipts && s.chain.receipts[f.tx].Mined?
      ensures AllKnown(s.chain, f.tx, Ids(f.msgs))
    {
      assert IsBatch(s, s.pipe.current.value.batch);
      assert InflightOk(s.rows, s.chain.sent, f);
    }

    // One turn of any running goroutine, which brings it nearer to its end.
    method TakeTurn(ghost batch: Batch, ghost settled: seq<set<Id>>, ghost failed: bool, j: nat, f: Inflight, worker: Worker)
      returns (x: Worker, ghost done: set<Id>)
      requires w.Valid() && Holds(w.s, batch, settled, failed) && j < |batch.txs| && f == batch.txs[j] && Running(worker)
      requires WorkerOk(w.s.chain, f, worker, settled[j])
      modifies w
      ensures w.Valid() && SamePipe(old(w.s), w.s) && ChainGrows(old(w.s).chain, w.s.chain) && WorkerOk(w.s.chain, f, x, done)
      ensures Holds(w.s, batch, settled[j := done], failed || Broken(x))
      ensures WorkOf(x, f) < WorkOf(worker, f)
      ensures w.record == Asked(old(w.record), !Broken(x))
    {
      if worker.Waiting? {
        x, done := Await(batch, settled, failed, j, f);
      } else {
        x, done := WriteGroup(batch, settled, failed, j, f, worker.left);
        SmallerSet(x, worker.left);
      }
    }

    // Something failed if and only if a call did.
    static predicate Faulted(r: Record, r': Record, failed: bool) {
      r'.refusals == r.refusals && if failed then r'.faults > r.faults else r'.faults == r.faults
    }

    // The goroutines of a batch, their turns taken in any order, until all have returned.
    method ConfirmAll(batch: Batch) returns (results: seq<Confirmed>, ghost settled: seq<set<Id>>)
      requires w.Valid() && Holds(w.s, batch, seq(|batch.txs|, _ => {}), false)
      modifies w
      ensures w.Valid() && SamePipe(old(w.s), w.s) && |results| == |batch.txs|
      ensures Holds(w.s, batch, settled, exists i :: 0 <= i < |results| && results[i] != CONFIRMED)
      ensures forall i :: 0 <= i < |results| && results[i] == CONFIRMED ==> settled[i] == Ids(batch.txs[i].msgs)
      ensures Faulted(old(w.record), w.record, exists i :: 0 <= i < |results| && results[i] != CONFIRMED)
    {
      var workers: seq<Worker> := seq(|batch.txs|, _ => Waiting);
      settled := seq(|batch.txs|, _ => {});
      while exists j :: 0 <= j < |workers| && Running(workers[j])
        invariant w.Valid() && SamePipe(old(w.s), w.s) && WorkersOk(w.s.chain, batch, workers, settled)
        invariant Holds(w.s, batch, settled, SomeFailed(workers)) && Faulted(old(w.record), w.record, SomeFailed(workers))
        decreases Work(batch, workers)
      {
        var j: nat :| j < |workers| && Running(workers[j]);
        ghost var chain := w.s.chain;
        var x;
        ghost var done;
        x, done := TakeTurn(batch, settled, SomeFailed(workers), j, batch.txs[j], workers[j]);
        FailedGrows(workers, j, x);
        WorkShrinks(batch, workers, j, x);
        WorkersStay(chain, w.s.chain, batch, workers, settled, j, x, done);
        workers, settled := workers[j := x], settled[j := done];
      }
      results := seq(|workers|, i requires 0 <= i < |workers| => if workers[i].Returned? then workers[i].result else ERRED);
      assert forall i :: 0 <= i < |workers| ==> !Running(workers[i]) && workers[i] == Returned(results[i]);
      assert SomeFailed(workers) <==> exists i :: 0 <= i < |results| && results[i] != CONFIRMED;
    }

    static lemma SmallerSet(x: Worker, left: set<Id>)
      ensures x.Writing? && x.left < left ==> |x.left| < |left|
    {
      if x.Writing? && x.left < left {
        assert left == x.left + (left - x.left);
        assert left - x.left != {};
      }
    }

    // Confirms the batch in hand and commits its offsets if every transaction was settled; otherwise
    // stops without committing. A stall outranks other errors.
    method ConfirmAndCommit(batch: Batch) returns (r: Ended, results: seq<Confirmed>)
      requires w.Valid() && Holds(w.s, batch, seq(|batch.txs|, _ => {}), false)
      modifies w
      ensures w.Valid() && w.s.pipe.current == None
      ensures r == COMMITTED_BATCH ==> w.s.committed == HighWater(batch.offs, old(w.s.committed))
      ensures r == COMMITTED_BATCH ==> w.s.pipe.commits == old(w.s.pipe.commits) + 1 && w.s.pipe.dead == old(w.s.pipe.dead)
      ensures r != COMMITTED_BATCH ==> w.s.pipe.dead && w.s.pipe.commits == old(w.s.pipe.commits)
      ensures r in {PIPELINE_STALLED, CONFIRM_ERROR} ==> w.s.committed == old(w.s.committed)
      ensures |results| == |batch.txs| && (r == PIPELINE_STALLED <==> STALLED in results)
      ensures r == CONFIRM_ERROR <==> ERRED in results && STALLED !in results
      ensures Faulted(old(w.record), w.record, r != COMMITTED_BATCH) && old(w.s.pipe.queue) <= w.s.pipe.queue
    {
      ghost var settled;
      results, settled := ConfirmAll(batch);
      var stalled := Contains(results, STALLED);
      var erred := Contains(results, ERRED);
      if stalled || erred {
        StopsFailed(w.s, batch, settled, results);
        w.Do(StopCollector);
        r := if stalled then PIPELINE_STALLED else CONFIRM_ERROR;
        return;
      }
      assert forall i :: 0 <= i < |results| ==> results[i] in results && results[i] == CONFIRMED;
      Others();
      var ok := w.Ask();
      var applied := w.Effect(ok);
      w.Do(Commit(ok, applied));
      r := if ok then COMMITTED_BATCH else COMMIT_ERROR;
    }

    static lemma StopsFailed(s: State, batch: Batch, settled: seq<set<Id>>, results: seq<Confirmed>)
      requires Holds(s, batch, settled, exists i :: 0 <= i < |results| && results[i] != CONFIRMED) && (STALLED in results || ERRED in results)
      ensures s.pipe.current.Some? && s.pipe.current.value.failed
    {
      var c := if STALLED in results then STALLED else ERRED;
      var i :| 0 <= i < |results| && results[i] == c;
      assert results[i] != CONFIRMED;
    }

    static method Contains(results: seq<Confirmed>, c: Confirmed) returns (found: bool)
      ensures found <==> c in results
    {
      var i := 0;
      while i < |results|
        invariant 0 <= i <= |results| && c !in results[..i]
      {
        if results[i] == c {
          return true;
        }
        i := i + 1;
      }
      found := false;
    }

    // The loop of the one collector: batches strictly one after another, in the order submitted, until
    // one does not commit. Every round that finds a batch commits it, unless a call failed.
    method Run(rounds: nat) returns (ended: Ended)
      requires w.Valid() && w.s.pipe.current == None && !w.s.pipe.dead
      modifies w
      ensures w.Valid() && w.s.pipe.current == None
      ensures ended != COMMITTED_BATCH <==> w.s.pipe.dead
      ensures Faulted(old(w.record), w.record, ended != COMMITTED_BATCH)
      ensures old(w.s.pipe.commits) <= w.s.pipe.commits <= old(w.s.pipe.commits) + rounds
      ensures ended == COMMITTED_BATCH ==>
                w.s.pipe.commits >= old(w.s.pipe.commits) + if rounds < |old(w.s.pipe.queue)| then rounds else |old(w.s.pipe.queue)|
    {
      ended := COMMITTED_BATCH;
      var n := rounds;
      ghost var queue, base := w.s.pipe.queue, w.s.pipe.commits;
      while n > 0
        invariant 0 <= n <= rounds && w.Valid() && w.s.pipe.current == None && !w.s.pipe.dead && ended == COMMITTED_BATCH
        invariant w.record == old(w.record) && base <= w.s.pipe.commits <= base + rounds - n
        invariant w.s.pipe.commits < base + |queue| ==> w.s.pipe.commits == base + rounds - n && queue[rounds - n..] <= w.s.pipe.queue
      {
        Others();
        if w.s.pipe.queue != [] {
          var batch := w.s.pipe.queue[0];
          ghost var before := w.s.pipe.queue;
          w.Do(Take);
          assert w.s.pipe.current.value.settled == seq(|batch.txs|, _ => {});
          var results;
          ended, results := ConfirmAndCommit(batch);
          if ended != COMMITTED_BATCH {
            return;
          }
        }
        n := n - 1;
      }
    }
  }
}
