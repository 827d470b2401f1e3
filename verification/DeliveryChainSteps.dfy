// Broadcast counting, nonces, the chain itself and the committed mark: every step keeps them.
module DeliveryChainSteps {
  import opened Basics
  import opened EventStore
  import opened ActionChunks
  import opened ActionOutcomes
  import opened DeliveryMachine
  import opened DeliveryInvariants
  import opened DeliverySteps
  import opened DeliveryLedgerSteps

  // ------------------------------------------------------------ broadcasts per event

  lemma CountStep(topic: Topic, window: nat, s: State, st: Step)
    requires Inv(topic, window, s) && Enabled(topic, window, s, st)
    ensures CountInv(Apply(topic, window, s, st))
  {
    var s' := Apply(topic, window, s, st);
    StepAdvances(topic, window, s, st);
    if st.Broadcast? {
      BroadcastCount(topic, window, s, st);
    } else {
      BroadcastsStay(topic, window, s, st);
      RecordingEnds(topic, window, s, st);
      LastStaysLast(topic, window, s, st);
      CountKept(s, s');
    }
  }

  // A broadcast stops being recorded when its hash is in the table or is lost.
  lemma RecordingEnds(topic: Topic, window: nat, s: State, st: Step)
    requires PhaseInv(s) && Enabled(topic, window, s, st) && !st.Broadcast?
    ensures var s' := Apply(topic, window, s, st);
            && s.hist.lost <= s'.hist.lost
            && (forall t :: BeingRecorded(s, t) ==>
                  BeingRecorded(s', t) || t in s'.hist.lost || (st.RecordSent? && st.applied && forall id :: id in Ids(Chunk(s)) ==> id in s'.rows && s'.rows[id].tx == Some(t)))
  {
    if st.RecordSent? {
      ChunkIsNew(s);
    } else if ConsumerIsOther(st) || st.SeedNonce? {
      HistoryStays(topic, window, s, st);
    }
  }

  lemma HistoryStays(topic: Topic, window: nat, s: State, st: Step)
    requires Enabled(topic, window, s, st) && (ConsumerIsOther(st) || st.SeedNonce?)
    ensures Apply(topic, window, s, st).hist.lost == s.hist.lost && Apply(topic, window, s, st).con == s.con
  {
    if ConsumerIsOther(st) {
      OthersMove(topic, window, s, st);
      LostStays(topic, window, s, st);
    }
  }

  lemma LostStays(topic: Topic, window: nat, s: State, st: Step)
    requires Enabled(topic, window, s, st) && ConsumerIsOther(st)
    ensures Apply(topic, window, s, st).hist.lost == s.hist.lost
  {
  }

  // A hash appears on a row only as the newest broadcast.
  lemma LastStaysLast(topic: Topic, window: nat, s: State, st: Step)
    requires Inv(topic, window, s) && Enabled(topic, window, s, st) && !st.Broadcast?
    ensures var s' := Apply(topic, window, s, st);
            forall id :: id in s'.rows && s'.rows[id].tx.Some? ==>
              (id in s.rows && s.rows[id].tx == s'.rows[id].tx) || s'.rows[id].tx.value + 1 == |s.chain.sent|
  {
    RowsMove(topic, window, s, st);
    WritesAim(topic, window, s, st);
    HashOrigin(s, st, Apply(topic, window, s, st).rows);
  }

  lemma HashOrigin(s: State, st: Step, rows': Rows)
    requires PhaseInv(s)
    requires rows' == s.rows || (StepStatement(s, st).Some? && rows' == Execute(s.rows, StepStatement(s, st).value))
    requires SettlingWrite(st).Some? ==> AimsAt(s.rows, SettlingWrite(st).value)
    ensures forall id :: id in rows' && rows'[id].tx.Some? ==>
              (id in s.rows && s.rows[id].tx == rows'[id].tx) || rows'[id].tx.value + 1 == |s.chain.sent|
  {
  }

  lemma CountKept(s: State, s': State)
    requires CountInv(s) && PhaseInv(s) && s'.chain.sent == s.chain.sent && Advances(s.rows, s'.rows)
    requires s.hist.lost <= s'.hist.lost
    requires forall t :: BeingRecorded(s, t) ==>
               BeingRecorded(s', t) || t in s'.hist.lost || (ChunkInRange(s) && forall id :: id in Ids(Chunk(s)) ==> id in s'.rows && s'.rows[id].tx == Some(t))
    requires forall id :: id in s'.rows && s'.rows[id].tx.Some? ==>
               (id in s.rows && s.rows[id].tx == s'.rows[id].tx) || s'.rows[id].tx.value + 1 == |s.chain.sent|
    ensures CountInv(s')
  {
    forall t, id | 0 <= t < |s'.chain.sent| && id in Ids(s'.chain.sent[t].msgs)
      ensures id in s'.rows && (s'.rows[id].tx == Some(t) || t in s'.hist.lost || BeingRecorded(s', t))
    {
      assert id in s.rows;
      if BeingRecorded(s, t) {
        assert Chunk(s) == s.chain.sent[t].msgs;
      }
    }
  }

  lemma BroadcastCount(topic: Topic, window: nat, s: State, st: Step)
    requires Inv(topic, window, s) && Enabled(topic, window, s, st) && st.Broadcast?
    ensures CountInv(Apply(topic, window, s, st))
  {
    ChunkRowsNew(s, st.n);
    BroadcastFacts(topic, window, s, st);
    BroadcastCounted(s, Apply(topic, window, s, st), Sent(NextChunk(s, st.n), s.nonce.value, st.acked));
  }

  lemma BroadcastFacts(topic: Topic, window: nat, s: State, st: Step)
    requires Enabled(topic, window, s, st) && st.Broadcast?
    ensures var s' := Apply(topic, window, s, st);
            && s'.chain.sent == s.chain.sent + [Sent(NextChunk(s, st.n), s.nonce.value, st.acked)]
            && s'.rows == s.rows && s.hist.lost <= s'.hist.lost
            && (|s.chain.sent| in s'.hist.lost || BeingRecorded(s', |s.chain.sent|))
            && !(s.con.Working? && s.con.phase.Marking?)
            && s'.chain.receipts == s.chain.receipts && s'.chain.mined == s.chain.mined && s'.chain.state == s.chain.state
            && s'.chain.account == s.chain.account
            && s'.chain.pending == (if s.nonce.value >= s.chain.pending then s.nonce.value + 1 else s.chain.pending)
            && s'.nonce == (if st.acked then Some(s.nonce.value + 1) else s.nonce)
  {
  }

  lemma BroadcastCounted(s: State, s': State, last: Sent)
    requires CountInv(s) && s'.rows == s.rows && s.hist.lost <= s'.hist.lost
    requires s'.chain.sent == s.chain.sent + [last]
    requires |s.chain.sent| in s'.hist.lost || BeingRecorded(s', |s.chain.sent|)
    requires !(s.con.Working? && s.con.phase.Marking?)
    requires forall id :: id in Ids(last.msgs) ==> id in s.rows && s.rows[id] == NEW_ROW
    ensures CountInv(s')
  {
  }

  // Nothing with a recorded hash ever enters calldata again.
  lemma ChunkRowsNew(s: State, n: nat)
    requires PhaseInv(s) && AtSend(s) && s.con.phase.i + n <= |s.con.phase.pending|
    ensures forall id :: id in Ids(NextChunk(s, n)) ==> id in s.rows && s.rows[id] == NEW_ROW
  {
  }

  // ---------------------------------------------------------------------- nonces

  lemma NonceStep(topic: Topic, window: nat, s: State, st: Step)
    requires Inv(topic, window, s) && Enabled(topic, window, s, st)
    ensures NonceInv(Apply(topic, window, s, st))
  {
    if st.Broadcast? {
      NonceSpent(topic, window, s, st);
    } else {
      NonceRest(topic, window, s, st);
    }
  }

  lemma NonceSpent(topic: Topic, window: nat, s: State, st: Step)
    requires NonceInv(s) && Enabled(topic, window, s, st) && st.Broadcast?
    ensures NonceInv(Apply(topic, window, s, st))
  {
  }

  lemma NonceRest(topic: Topic, window: nat, s: State, st: Step)
    requires NonceInv(s) && Enabled(topic, window, s, st) && !st.Broadcast?
    ensures NonceInv(Apply(topic, window, s, st))
  {
    BroadcastsStay(topic, window, s, st);
    NonceMoves(topic, window, s, st);
    AccountMoves(topic, window, s, st);
    NonceKept(s, Apply(topic, window, s, st));
  }

  lemma AccountMoves(topic: Topic, window: nat, s: State, st: Step)
    requires NonceInv(s) && Enabled(topic, window, s, st) && !st.Broadcast?
    ensures var c := Apply(topic, window, s, st).chain; c.account <= c.pending && s.chain.pending <= c.pending
  {
    if !st.Mine? {
      ChainStays(topic, window, s, st);
    }
  }

  lemma NonceMoves(topic: Topic, window: nat, s: State, st: Step)
    requires Enabled(topic, window, s, st) && !st.Broadcast?
    ensures var s' := Apply(topic, window, s, st);
            s'.nonce == s.nonce || s'.nonce == None || s'.nonce == Some(s.chain.pending)
  {
  }

  lemma NonceKept(s: State, s': State)
    requires NonceInv(s) && s'.chain.sent == s.chain.sent
    requires s'.chain.account <= s'.chain.pending && s.chain.pending <= s'.chain.pending
    requires s'.nonce == s.nonce || s'.nonce == None || s'.nonce == Some(s.chain.pending)
    ensures NonceInv(s')
  {
  }

  // ----------------------------------------------------------------------- chain

  lemma ChainStep(topic: Topic, window: nat, s: State, st: Step)
    requires Inv(topic, window, s) && Enabled(topic, window, s, st)
    ensures ChainInv(Apply(topic, window, s, st).chain)
  {
    if st.Mine? {
      MineChain(topic, window, s, st);
    } else if st.Broadcast? {
      BroadcastsGrow(topic, window, s, st);
      BroadcastFacts(topic, window, s, st);
      SentLonger(s.chain, Apply(topic, window, s, st).chain);
    } else {
      ChainStays(topic, window, s, st);
      ChainKept(s.chain, Apply(topic, window, s, st).chain);
    }
  }

  lemma StatesKept(c: Chain, c': Chain)
    requires StateLogged(c) && c'.receipts == c.receipts && c'.state == c.state
    ensures StateLogged(c')
  {
    forall id | id in c'.state
      ensures exists t :: LoggedAt(c', t, id, c'.state[id])
    {
      var t :| LoggedAt(c, t, id, c.state[id]);
      assert LoggedAt(c', t, id, c'.state[id]);
    }
  }

  lemma ChainKept(c: Chain, c': Chain)
    requires ChainInv(c) && c'.sent == c.sent && c'.receipts == c.receipts && c'.mined == c.mined && c'.state == c.state
    requires c.account <= c'.account
    ensures ChainInv(c')
  {
    StatesKept(c, c');
    assert forall t, id :: OutcomeAt(c', t, id) == OutcomeAt(c, t, id);
  }

  lemma SentLonger(c: Chain, c': Chain)
    requires ChainInv(c) && Extends(c.sent, c'.sent)
    requires c'.receipts == c.receipts && c'.mined == c.mined && c'.state == c.state && c'.account == c.account
    ensures ChainInv(c')
  {
    StatesKept(c, c');
    assert forall t :: 0 <= t < |c.sent| ==> c'.sent[t] == c'.sent[..|c.sent|][t] == c.sent[t];
    assert forall t, id :: OutcomeAt(c', t, id) == OutcomeAt(c, t, id);
    RefusalsKept(c, c');
  }

  // More broadcasts leave fewer refusals to be final.
  lemma RefusalsKept(c: Chain, c': Chain)
    requires MinedInOrder(c) && MinedInOrder(c') && RefusalFinal(c) && |c.sent| <= |c'.sent|
    requires forall t :: 0 <= t < |c.sent| ==> c'.sent[t] == c.sent[t]
    requires c'.receipts == c.receipts && c'.state == c.state
    ensures RefusalFinal(c')
  {
  }

  lemma MineChain(topic: Topic, window: nat, s: State, st: Step)
    requires Inv(topic, window, s) && Enabled(topic, window, s, st) && st.Mine?
    ensures ChainInv(Apply(topic, window, s, st).chain)
  {
    MineOrder(s, st.tx);
    var c' := MinedChain(s.chain, st.tx, st.reverted, st.judge);
    MinedAscend(s.chain.mined, st.tx);
    ReceiptAdded(s.chain, c', st.tx);
    MinedReadable(s.chain, st.tx, st.reverted, st.judge);
    MinedLogs(s.chain, st.tx, st.reverted, st.judge);
    MinedFinality(s.chain, st.tx, st.reverted, st.judge);
    MinedStates(s.chain, st.tx, st.reverted, st.judge);
  }

  lemma MinedStates(c: Chain, tx: TxHash, reverted: bool, judge: Id -> Verdict)
    requires StateLogged(c) && tx < |c.sent| && tx !in c.receipts
    ensures StateLogged(MinedChain(c, tx, reverted, judge))
  {
    var c' := MinedChain(c, tx, reverted, judge);
    forall id | id in c'.state
      ensures exists t :: LoggedAt(c', t, id, c'.state[id])
    {
      if id in c.state {
        var t :| LoggedAt(c, t, id, c.state[id]);
        assert LoggedAt(c', t, id, c'.state[id]);
      } else {
        assert LoggedAt(c', tx, id, c'.state[id]);
      }
    }
  }

  // Blocks take nonces in order, so transactions are mined in the order they were broadcast.
  lemma MineOrder(s: State, tx: TxHash)
    requires ChainInv(s.chain) && NonceInv(s)
    requires tx < |s.chain.sent| && tx !in s.chain.receipts && s.chain.sent[tx].nonce == s.chain.account
    ensures forall t :: t in s.chain.mined ==> t < tx
  {
  }

  lemma MinedAscend(mined: seq<TxHash>, tx: TxHash)
    requires forall i, j :: 0 <= i < j < |mined| ==> mined[i] < mined[j]
    requires forall t :: t in mined ==> t < tx
    ensures forall i, j :: 0 <= i < j < |mined + [tx]| ==> (mined + [tx])[i] < (mined + [tx])[j]
  {
    assert forall i :: 0 <= i < |mined| ==> mined[i] in mined;
  }

  lemma ReceiptAdded(c: Chain, c': Chain, tx: TxHash)
    requires MinedInOrder(c) && tx < |c.sent| && c.sent[tx].nonce == c.account
    requires c'.sent == c.sent && c'.receipts.Keys == c.receipts.Keys + {tx} && c'.mined == c.mined + [tx] && c'.account == c.account + 1
    requires forall i, j :: 0 <= i < j < |c'.mined| ==> c'.mined[i] < c'.mined[j]
    ensures MinedInOrder(c')
  {
  }

  lemma MinedReadable(c: Chain, tx: TxHash, reverted: bool, judge: Id -> Verdict)
    requires ChainInv(c) && tx < |c.sent| && tx !in c.receipts && MinedInOrder(MinedChain(c, tx, reverted, judge))
    ensures Readable(MinedChain(c, tx, reverted, judge))
  {
  }

  lemma MinedLogs(c: Chain, tx: TxHash, reverted: bool, judge: Id -> Verdict)
    requires MinedInOrder(c) && LogsHold(c) && tx < |c.sent| && tx !in c.receipts && MinedInOrder(MinedChain(c, tx, reverted, judge))
    ensures LogsHold(MinedChain(c, tx, reverted, judge))
  {
    if reverted {
      LogsAdded(c, MinedChain(c, tx, true, judge), tx, map[]);
    } else {
      AppliedIsState(c.state, Ids(c.sent[tx].msgs), judge);
      LogsAdded(c, MinedChain(c, tx, false, judge), tx, LogsOf(c.state, Ids(c.sent[tx].msgs), judge));
    }
  }

  lemma AppliedIsState(state: map<Id, Outcome>, ids: set<Id>, judge: Id -> Verdict)
    ensures forall id :: id in LogsOf(state, ids, judge) ==>
              id in ids && (LogsOf(state, ids, judge)[id].Applied? ==> id in StateAfter(state, ids, judge) && StateAfter(state, ids, judge)[id].Applied?)
    ensures forall id :: id in state ==> id in StateAfter(state, ids, judge) && StateAfter(state, ids, judge)[id] == state[id]
  {
  }

  lemma LogsAdded(c: Chain, c': Chain, tx: TxHash, logs: map<Id, Outcome>)
    requires MinedInOrder(c) && LogsHold(c) && tx < |c.sent| && tx !in c.receipts && MinedInOrder(c')
    requires c'.sent == c.sent && (forall t :: t in c'.receipts && t != tx ==> t in c.receipts && c'.receipts[t] == c.receipts[t])
    requires tx in c'.receipts && (c'.receipts[tx].Mined? ==> c'.receipts[tx].logs == logs)
    requires forall id :: id in c.state ==> id in c'.state && c'.state[id] == c.state[id]
    requires forall id :: id in logs ==> id in Ids(c.sent[tx].msgs) && (logs[id].Applied? ==> id in c'.state && c'.state[id].Applied?)
    ensures LogsHold(c')
  {
  }

  lemma MinedFinality(c: Chain, tx: TxHash, reverted: bool, judge: Id -> Verdict)
    requires ChainInv(c) && tx < |c.sent| && tx !in c.receipts && MinedInOrder(MinedChain(c, tx, reverted, judge))
    requires forall t :: t in c.mined ==> t < tx
    ensures RefusalFinal(MinedChain(c, tx, reverted, judge))
  {
  }

  lemma KindStep(topic: Topic, window: nat, s: State, st: Step)
    requires MemInv(topic, s) && PhaseInv(s) && KindInv(s.chain.sent) && Enabled(topic, window, s, st)
    ensures KindInv(Apply(topic, window, s, st).chain.sent)
  {
    if st.Broadcast? {
      BroadcastFacts(topic, window, s, st);
      ChunkHomogeneous(s, st.n);
    } else {
      BroadcastsStay(topic, window, s, st);
    }
  }

  lemma ChunkHomogeneous(s: State, n: nat)
    requires s.con.Working? && PhaseInv(s) && AtSend(s) && n > 0 && s.con.phase.i + n <= |s.con.phase.pending|
    requires s.con.a < s.con.b == RunEnd(s.con.win, s.con.a)
    ensures Homogeneous(NextChunk(s, n))
  {
    forall m | m in NextChunk(s, n)
      ensures m.kind == s.con.win[s.con.a].kind
    {
      var x := PendingIndex(s, n, m);
      var y := WindowIndex(s, m);
    }
  }

  // --------------------------------------------------------- unparsable messages

  lemma BadStep(topic: Topic, window: nat, s: State, st: Step)
    requires Inv(topic, window, s) && Enabled(topic, window, s, st)
    requires MemInv(topic, Apply(topic, window, s, st))
    ensures BadInv(Apply(topic, window, s, st))
  {
    var s' := Apply(topic, window, s, st);
    BadMoves(topic, window, s, st);
    forall o | BadPending(s', o)
      ensures s'.committed <= o && forall b, x :: IsBatch(s', b) && x in b.offs ==> x < o
    {
      BadMark(topic, window, s, st, o);
      forall b, x | IsBatch(s', b) && x in b.offs
        ensures x < o
      {
        BadBehind(topic, window, s, st, o, b, x);
      }
    }
  }

  lemma BadMark(topic: Topic, window: nat, s: State, st: Step, o: nat)
    requires MemInv(topic, s) && BadInv(s) && Enabled(topic, window, s, st)
    requires BadPending(s, o) || (st.Fetch? && o == s.next)
    ensures Apply(topic, window, s, st).committed <= o
  {
    MarkMoves(topic, window, s, st);
    if st.Commit? {
      var b := s.pipe.current.value.batch;
      assert IsBatch(s, b);
    }
  }

  lemma BadBehind(topic: Topic, window: nat, s: State, st: Step, o: nat, b: Batch, x: nat)
    requires MemInv(topic, s) && BadInv(s) && Enabled(topic, window, s, st) && !st.PublishBad?
    requires BadPending(s, o) || (st.Fetch? && o == s.next)
    requires IsBatch(Apply(topic, window, s, st), b) && x in b.offs
    ensures x < o
  {
    BatchOrigin(topic, window, s, st, b);
    if !IsBatch(s, b) {
      OffsetsAt(s.con.win, x);
      var q :| 0 <= q < |s.con.win| && s.con.win[q].off == x;
      assert s.con.win[q] in Mem(s);
    }
  }

  lemma BadMoves(topic: Topic, window: nat, s: State, st: Step)
    requires MemInv(topic, s) && Enabled(topic, window, s, st)
    ensures var s' := Apply(topic, window, s, st);
            forall o :: BadPending(s', o) ==> !st.Restart? && !st.PublishBad? && (BadPending(s, o) || (st.Fetch? && o == s.next))
  {
    ConsumerMoves(topic, window, s, st);
    if st.Fetch? || st.Flush? || st.Offer? || st.PublishBad? || st.Restart? {
      BadTurns(topic, window, s, st);
    }
  }

  lemma BadTurns(topic: Topic, window: nat, s: State, st: Step)
    requires Enabled(topic, window, s, st) && (st.Fetch? || st.Flush? || st.Offer? || st.PublishBad? || st.Restart?)
    ensures var s' := Apply(topic, window, s, st);
            && (forall o :: BadPending(s', o) ==> !st.Restart? && !st.PublishBad? && (BadPending(s, o) || (st.Fetch? && o == s.next)))
            && (st.Fetch? && topic[s.next].Bad? ==> BadPending(s', s.next))
            && (st.Flush? || st.Offer? ==> forall o :: BadPending(s, o) ==> BadPending(s', o))
            && (st.PublishBad? ==> forall o :: BadPending(s, o) ==> o == s.con.off)
            && (st.Fetch? || st.Flush? ==> s.con.Idle?)
  {
  }

  // ------------------------------------------------------------- first in, first out

  lemma FifoStep(topic: Topic, window: nat, s: State, st: Step)
    requires Inv(topic, window, s) && Enabled(topic, window, s, st)
    ensures FifoInv(window, Apply(topic, window, s, st))
  {
    if st.Offer? {
      OfferFifo(topic, window, s);
    } else if st.Take? {
      TakeFifo(topic, window, s);
    } else if st.Commit? || st.StopCollector? || st.Restart? {
      LeaveFifo(topic, window, s, st);
    } else {
      PipeStays(topic, window, s, st);
      FifoKept(window, s, Apply(topic, window, s, st));
    }
  }

  lemma FifoKept(window: nat, s: State, s': State)
    requires FifoInv(window, s)
    requires s'.pipe.queue == s.pipe.queue && s'.pipe.dead == s.pipe.dead && s'.pipe.submitted == s.pipe.submitted && s'.pipe.commits == s.pipe.commits
    requires s'.pipe.current.Some? == s.pipe.current.Some? && (s.pipe.current.Some? ==> s'.pipe.current.value.batch == s.pipe.current.value.batch)
    ensures FifoInv(window, s')
  {
  }

  lemma OfferFifo(topic: Topic, window: nat, s: State)
    requires FifoInv(window, s) && Enabled(topic, window, s, Offer)
    ensures FifoInv(window, Apply(topic, window, s, Offer))
  {
  }

  lemma TakeFifo(topic: Topic, window: nat, s: State)
    requires FifoInv(window, s) && Enabled(topic, window, s, Take)
    ensures FifoInv(window, Apply(topic, window, s, Take))
  {
  }

  lemma LeaveFifo(topic: Topic, window: nat, s: State, st: Step)
    requires FifoInv(window, s) && Enabled(topic, window, s, st) && (st.Commit? || st.StopCollector? || st.Restart?)
    ensures FifoInv(window, Apply(topic, window, s, st))
  {
  }

  lemma PipeStays(topic: Topic, window: nat, s: State, st: Step)
    requires Enabled(topic, window, s, st)
    requires !st.Offer? && !st.Take? && !st.Commit? && !st.StopCollector? && !st.Restart?
    ensures var p, p' := s.pipe, Apply(topic, window, s, st).pipe;
            && p'.queue == p.queue && p'.dead == p.dead && p'.submitted == p.submitted && p'.commits == p.commits
            && p'.current.Some? == p.current.Some? && (p.current.Some? ==> p'.current.value.batch == p.current.value.batch)
  {
  }

  // ------------------------------------------------------------------ all together

  lemma InvStep(topic: Topic, window: nat, s: State, st: Step)
    requires Inv(topic, window, s) && Enabled(topic, window, s, st)
    ensures Inv(topic, window, Apply(topic, window, s, st))
  {
    MemStep(topic, window, s, st);
    PhaseStep(topic, window, s, st);
    RowsStep(topic, window, s, st);
    PipeStep(topic, window, s, st);
    CoverStep(topic, window, s, st);
    OrderStep(topic, window, s, st);
    CountStep(topic, window, s, st);
    NonceStep(topic, window, s, st);
    ChainStep(topic, window, s, st);
    KindStep(topic, window, s, st);
    BadStep(topic, window, s, st);
    FifoStep(topic, window, s, st);
  }

  lemma InvInitial(topic: Topic, window: nat, pending: nat)
    ensures Inv(topic, window, Initial(pending))
  {
  }

  lemma {:induction false} RunKeepsInv(topic: Topic, window: nat, states: seq<State>, steps: seq<Step>, k: nat)
    requires IsRun(topic, window, states, steps) && k < |states|
    ensures Inv(topic, window, states[k])
  {
    if k == 0 {
      var p :| states[0] == Initial(p);
      InvInitial(topic, window, p);
    } else {
      RunKeepsInv(topic, window, states, steps, k - 1);
      InvStep(topic, window, states[k - 1], steps[k - 1]);
    }
  }
}
