// What holds over every run of the adapter: arbitrary failures of the chain, the table, the DLQ and
// offset commits, any interleaving of consumer, collector and reconciler, any restarts.
module DeliveryTheorems {
  import opened Basics
  import opened EventStore
  import opened ActionChunks
  import opened ActionOutcomes
  import opened DeliveryMachine
  import opened DeliveryInvariants
  import opened DeliverySteps
  import opened DeliveryLedgerSteps
  import opened DeliveryChainSteps

  lemma {:induction false} AdvancesCompose(rows: seq<Rows>, i: nat, j: nat)
    requires i <= j < |rows| && forall k: nat :: k < |rows| - 1 ==> Advances(rows[k], rows[k + 1])
    ensures Advances(rows[i], rows[j])
    decreases j
  {
    if i < j {
      AdvancesCompose(rows, i, j - 1);
      assert Advances(rows[j - 1], rows[j - 1 + 1]);
    }
  }

  function Tables(states: seq<State>): (r: seq<Rows>)
    ensures |r| == |states|
  {
    seq(|states|, k requires 0 <= k < |states| => states[k].rows)
  }

  // The rows and the pipeline at one point of a run, without the rest of the invariant.
  lemma RunKeepsLedger(topic: Topic, window: nat, states: seq<State>, steps: seq<Step>, k: nat)
    requires IsRun(topic, window, states, steps) && k < |states|
    ensures PhaseInv(states[k]) && PipeInv(states[k]) && RowsInv(states[k])
  {
    RunKeepsInv(topic, window, states, steps, k);
  }

  lemma RunStepAdvances(topic: Topic, window: nat, states: seq<State>, steps: seq<Step>, k: nat)
    requires IsRun(topic, window, states, steps) && k < |steps|
    ensures Advances(states[k].rows, states[k + 1].rows)
  {
    RunKeepsLedger(topic, window, states, steps, k);
    StepAdvances(topic, window, states[k], steps[k]);
  }

  // Along a run no row disappears, a recorded hash never changes, COMMITTED rows never change again,
  // and a terminal row stays terminal, whatever late MarkSent, MarkFailed or MarkRejected arrives.
  lemma RowsOnlyAdvance(topic: Topic, window: nat, states: seq<State>, steps: seq<Step>, i: nat, j: nat)
    requires IsRun(topic, window, states, steps) && i <= j < |states|
    ensures Advances(states[i].rows, states[j].rows)
  {
    forall k: nat | k < |states| - 1
      ensures Advances(Tables(states)[k], Tables(states)[k + 1])
    {
      RunStepAdvances(topic, window, states, steps, k);
    }
    AdvancesCompose(Tables(states), i, j);
  }

  // ------------------------------------------------------------------ no event lost

  // When a batch's offsets are committed, every parsed message in it has a row that is COMMITTED,
  // FAILED or carries a hash, every transaction of the batch is settled action by action, and both
  // hold in every later state.
  lemma NoEventLost(topic: Topic, window: nat, states: seq<State>, steps: seq<Step>, k: nat, j: nat, o: nat)
    requires IsRun(topic, window, states, steps) && k < j < |states|
    requires steps[k].Commit? && states[k].pipe.current.Some? && o in states[k].pipe.current.value.batch.offs
    ensures o < |topic|
    ensures topic[o].Good? ==> Closed(states[j].rows, topic[o].id)
    ensures forall f, id :: f in states[k].pipe.current.value.batch.txs && id in Ids(f.msgs) ==>
              Terminal(states[j].rows, id) && states[j].rows[id].tx == Some(f.tx)
  {
    var s, b := states[k], states[k].pipe.current.value.batch;
    RunKeepsInv(topic, window, states, steps, k);
    RowsOnlyAdvance(topic, window, states, steps, k, j);
    assert IsBatch(s, b);
    forall f, id | f in b.txs && id in Ids(f.msgs)
      ensures Terminal(states[j].rows, id) && states[j].rows[id].tx == Some(f.tx)
    {
      var n :| 0 <= n < |b.txs| && b.txs[n] == f;
      assert s.pipe.current.value.settled[n] == Ids(f.msgs);
      assert Terminal(s.rows, id) && InflightOk(s.rows, s.chain.sent, f);
    }
  }

  // ------------------------------------------------------------- table and chain agree

  // COMMITTED means the chain applied the action, announced by a log of a mined transaction.
  lemma CommittedIsApplied(topic: Topic, window: nat, states: seq<State>, steps: seq<Step>, k: nat, id: Id)
    requires IsRun(topic, window, states, steps) && k < |states|
    requires id in states[k].rows && states[k].rows[id].status == COMMITTED
    ensures id in states[k].chain.state && states[k].chain.state[id] == Applied
    ensures exists t :: LoggedAt(states[k].chain, t, id, Applied)
  {
    RunKeepsInv(topic, window, states, steps, k);
    CommittedRowIsApplied(states[k], id);
  }

  lemma CommittedRowIsApplied(s: State, id: Id)
    requires RowsInv(s) && ChainInv(s.chain) && id in s.rows && s.rows[id].status == COMMITTED
    ensures id in s.chain.state && s.chain.state[id] == Applied
    ensures exists t :: LoggedAt(s.chain, t, id, Applied)
  {
  }

  // A stored reason is the chain's own for the row's transaction, and the action was never applied,
  // not by any other broadcast of it either.
  lemma ReasonIsTheChains(topic: Topic, window: nat, states: seq<State>, steps: seq<Step>, k: nat, id: Id)
    requires IsRun(topic, window, states, steps) && k < |states|
    requires id in states[k].rows && states[k].rows[id].reason.Some?
    ensures var s, r := states[k], states[k].rows[id];
            && r.status == FAILED && r.tx.Some?
            && OutcomeAt(s.chain, r.tx.value, id) == Some(Rejected(r.reason.value))
            && (id in s.chain.state ==> s.chain.state[id].Rejected?)
  {
    RunKeepsInv(topic, window, states, steps, k);
    RejectedIsFinal(states[k], id);
  }

  // A FAILED row's action is applied on chain exactly when a broadcast of the event, whose hash was
  // lost, was mined and applied it; then no reason is stored.
  lemma FailedButAppliedIffLost(topic: Topic, window: nat, states: seq<State>, steps: seq<Step>, k: nat, id: Id)
    requires IsRun(topic, window, states, steps) && k < |states|
    requires id in states[k].rows && states[k].rows[id].status == FAILED
    ensures (id in states[k].chain.state && states[k].chain.state[id] == Applied)
            <==> exists t :: t in states[k].hist.lost && LoggedAt(states[k].chain, t, id, Applied)
    ensures id in states[k].chain.state && states[k].chain.state[id] == Applied ==> states[k].rows[id].reason == None
  {
    RunKeepsInv(topic, window, states, steps, k);
    if id in states[k].chain.state && states[k].chain.state[id] == Applied {
      FailedButApplied(states[k], id);
    }
    LogsAreState(states[k].chain, id);
  }

  lemma LogsAreState(c: Chain, id: Id)
    requires ChainInv(c)
    ensures (exists t :: LoggedAt(c, t, id, Applied)) ==> id in c.state && c.state[id] == Applied
  {
  }

  lemma FailedButApplied(s: State, id: Id)
    requires PhaseInv(s) && RowsInv(s) && CountInv(s) && ChainInv(s.chain)
    requires id in s.rows && s.rows[id].status == FAILED && id in s.chain.state && s.chain.state[id] == Applied
    ensures s.rows[id].reason == None
    ensures exists t :: t in s.hist.lost && LoggedAt(s.chain, t, id, Applied)
  {
    if s.rows[id].reason.Some? {
      RejectedIsFinal(s, id);
    } else {
      var t: TxHash :| LoggedAt(s.chain, t, id, Applied);
      assert id in Ids(s.chain.sent[t].msgs);
      if BeingRecorded(s, t) {
        BeingRecordedIsNew(s, t, id);
      }
      assert RowOk(s.chain, id, s.rows[id]);
    }
  }

  lemma RejectedIsFinal(s: State, id: Id)
    requires RowsInv(s) && CountInv(s) && ChainInv(s.chain) && id in s.rows && s.rows[id].reason.Some?
    ensures s.rows[id].status == FAILED && s.rows[id].tx.Some?
    ensures OutcomeAt(s.chain, s.rows[id].tx.value, id) == Some(Rejected(s.rows[id].reason.value))
    ensures id in s.chain.state ==> s.chain.state[id].Rejected?
  {
  }

  lemma BeingRecordedIsNew(s: State, t: TxHash, id: Id)
    requires PhaseInv(s) && t < |s.chain.sent| && id in Ids(s.chain.sent[t].msgs) && BeingRecorded(s, t)
    ensures id in s.rows && s.rows[id] == NEW_ROW
  {
  }

  // ------------------------------------------------------------------ broadcast once

  // Of all broadcasts of one event only the last can have its hash recorded: each earlier one was
  // lost (its acceptance, its MarkSent or the process failed right then).
  lemma OnlyLostBroadcastsRepeat(topic: Topic, window: nat, states: seq<State>, steps: seq<Step>, k: nat, t: TxHash, u: TxHash, id: Id)
    requires IsRun(topic, window, states, steps) && k < |states|
    requires t < u < |states[k].chain.sent| && id in Ids(states[k].chain.sent[t].msgs) && id in Ids(states[k].chain.sent[u].msgs)
    ensures t in states[k].hist.lost
    ensures id in states[k].rows && states[k].rows[id].tx != Some(t)
  {
    RunKeepsInv(topic, window, states, steps, k);
    EarlierIsLost(states[k], t, u, id);
  }

  lemma EarlierIsLost(s: State, t: TxHash, u: TxHash, id: Id)
    requires PhaseInv(s) && CountInv(s)
    requires t < u < |s.chain.sent| && id in Ids(s.chain.sent[t].msgs) && id in Ids(s.chain.sent[u].msgs)
    ensures t in s.hist.lost && id in s.rows && s.rows[id].tx != Some(t)
  {
  }

  // The three ways a broadcast gets lost.
  lemma LostOnlyThen(topic: Topic, window: nat, s: State, st: Step, t: TxHash)
    requires Enabled(topic, window, s, st) && t !in s.hist.lost && t in Apply(topic, window, s, st).hist.lost
    ensures || (st.Broadcast? && !st.acked && t == |s.chain.sent|)
            || (st.RecordSent? && !st.applied && BeingRecorded(s, t))
            || (st.Restart? && BeingRecorded(s, t))
  {
  }

  // An event with a recorded hash, or failed for good, never enters calldata again.
  lemma SettledNeverResent(topic: Topic, window: nat, states: seq<State>, steps: seq<Step>, i: nat, j: nat, id: Id)
    requires IsRun(topic, window, states, steps) && i <= j < |steps|
    requires Closed(states[i].rows, id) && steps[j].Broadcast?
    ensures |states[j + 1].chain.sent| == |states[j].chain.sent| + 1
    ensures id !in Ids(states[j + 1].chain.sent[|states[j].chain.sent|].msgs)
  {
    RowsOnlyAdvance(topic, window, states, steps, i, j);
    RunKeepsInv(topic, window, states, steps, j);
    BroadcastFacts(topic, window, states[j], steps[j]);
    ChunkRowsNew(states[j], steps[j].n);
  }

  // ----------------------------------------------------------------------------- order

  // m travels in transaction t and its event in none before.
  ghost predicate FirstBroadcast(sent: seq<Sent>, t: nat, m: Msg) {
    t < |sent| && m in sent[t].msgs && forall u :: 0 <= u < t ==> m.id !in Ids(sent[u].msgs)
  }

  // First broadcasts follow Kafka arrival order, one kind per transaction, and nonces never go back;
  // after an acknowledged broadcast they strictly grow.
  lemma FirstBroadcastsInArrivalOrder(topic: Topic, window: nat, states: seq<State>, steps: seq<Step>, k: nat)
    requires IsRun(topic, window, states, steps) && k < |states|
    ensures InArrivalOrder(states[k].chain.sent)
  {
    RunKeepsInv(topic, window, states, steps, k);
    SentInOrder(topic, states[k]);
  }

  ghost predicate InArrivalOrder(sent: seq<Sent>) {
    && (forall t, u, m, m' :: 0 <= t < u < |sent| && m in sent[t].msgs && FirstBroadcast(sent, u, m') ==> m.off < m'.off)
    && (forall t :: 0 <= t < |sent| ==> Ascending(sent[t].msgs) && Homogeneous(sent[t].msgs))
    && (forall t, u :: 0 <= t < u < |sent| ==>
          sent[t].nonce <= sent[u].nonce && (sent[t].acked ==> sent[t].nonce < sent[u].nonce))
  }

  lemma SentInOrder(topic: Topic, s: State)
    requires OrderInv(topic, s) && KindInv(s.chain.sent) && NonceInv(s)
    ensures InArrivalOrder(s.chain.sent)
  {
    var sent := s.chain.sent;
    forall t, u, m, m' | 0 <= t < u < |sent| && m in sent[t].msgs && FirstBroadcast(sent, u, m')
      ensures m.off < m'.off
    {
      assert m'.id !in Ids(sent[t].msgs);
      assert MsgOk(topic, m) && MsgOk(topic, m');
    }
  }

  // The same on chain: whichever broadcasts were mined, an action processed in a later transaction
  // than a younger one was already in that younger one's transaction. So no key action overtakes an
  // older warehouse action, nor the other way round.
  lemma ChainFollowsArrivalOrder(topic: Topic, window: nat, states: seq<State>, steps: seq<Step>, k: nat, i: nat, j: nat, m: Msg, m': Msg)
    requires IsRun(topic, window, states, steps) && k < |states|
    requires i < j < |states[k].chain.mined|
    requires states[k].chain.mined[i] < |states[k].chain.sent| && m' in states[k].chain.sent[states[k].chain.mined[i]].msgs
    requires states[k].chain.mined[j] < |states[k].chain.sent| && m in states[k].chain.sent[states[k].chain.mined[j]].msgs
    requires m.off < m'.off
    ensures m.id in Ids(states[k].chain.sent[states[k].chain.mined[i]].msgs)
  {
    RunKeepsInv(topic, window, states, steps, k);
  }

  // The signer's nonce never runs ahead of the node's pending nonce, whoever else sends with the same
  // key: a broadcast leaves no gap below it.
  lemma NonceNeverAhead(topic: Topic, window: nat, states: seq<State>, steps: seq<Step>, k: nat)
    requires IsRun(topic, window, states, steps) && k < |states|
    ensures states[k].nonce.Some? ==> states[k].nonce.value <= states[k].chain.pending
    ensures forall t :: 0 <= t < |states[k].chain.sent| ==> states[k].chain.sent[t].nonce < states[k].chain.pending
    ensures forall t :: t in states[k].chain.receipts ==>
              t < |states[k].chain.sent| && states[k].chain.sent[t].nonce < states[k].chain.account
  {
    RunKeepsInv(topic, window, states, steps, k);
  }

  // -------------------------------------------------------------------------- pipeline

  // Batches are committed in the order they were submitted: a commit takes the oldest batch not yet
  // committed, and at most `window` batches are submitted and unsettled.
  lemma CommitsAreFifoPrefix(topic: Topic, window: nat, states: seq<State>, steps: seq<Step>, k: nat)
    requires IsRun(topic, window, states, steps) && k < |states|
    ensures CommitsInOrder(window, states[k].pipe)
    ensures k < |steps| && steps[k].Commit? ==> OldestIsNext(states[k].pipe)
  {
    RunKeepsFifo(topic, window, states, steps, k);
    if k < |steps| && steps[k].Commit? {
      CurrentIsOldest(window, states[k]);
    }
  }

  ghost predicate CommitsInOrder(window: nat, p: Pipe) {
    |Unsettled(p)| <= Cap(window) && p.commits <= |p.submitted| && (!p.dead ==> p.submitted[p.commits..] == Unsettled(p))
  }

  ghost predicate OldestIsNext(p: Pipe) {
    !p.dead && p.commits < |p.submitted| && p.current.Some? && p.current.value.batch == p.submitted[p.commits]
  }

  lemma RunKeepsFifo(topic: Topic, window: nat, states: seq<State>, steps: seq<Step>, k: nat)
    requires IsRun(topic, window, states, steps) && k < |states|
    ensures FifoInv(window, states[k])
    ensures k < |steps| && steps[k].Commit? ==> states[k].pipe.current.Some?
  {
    RunKeepsInv(topic, window, states, steps, k);
  }

  lemma CurrentIsOldest(window: nat, s: State)
    requires FifoInv(window, s) && s.pipe.current.Some?
    ensures OldestIsNext(s.pipe)
  {
  }

  // After a stall or a failed commit this process commits nothing more.
  lemma NothingCommitsAfterStall(topic: Topic, window: nat, states: seq<State>, steps: seq<Step>, k: nat)
    requires IsRun(topic, window, states, steps) && k < |steps| && states[k].pipe.dead && !steps[k].Restart?
    ensures states[k + 1].pipe.dead && states[k + 1].committed == states[k].committed
  {
    RunKeepsFifo(topic, window, states, steps, k);
    DeadStaysDead(topic, window, states[k], steps[k]);
  }

  lemma DeadStaysDead(topic: Topic, window: nat, s: State, st: Step)
    requires FifoInv(window, s) && s.pipe.dead && Enabled(topic, window, s, st)
    ensures !st.Restart? ==> Apply(topic, window, s, st).pipe.dead && Apply(topic, window, s, st).committed == s.committed
  {
  }
}
