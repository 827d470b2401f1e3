// Table against chain, coverage, order, counting, nonces and offsets: every step keeps them too.
module DeliveryLedgerSteps {
  import opened Basics
  import opened EventStore
  import opened ActionChunks
  import opened ActionOutcomes
  import opened DeliveryMachine
  import opened DeliveryInvariants
  import opened DeliverySteps

  // ------------------------------------------------------- table against chain

  // Receipts are final and outcomes, once readable, never change.
  ghost predicate ChainGrows(c: Chain, c': Chain) {
    && Extends(c.sent, c'.sent)
    && (forall t :: t in c.receipts ==> t in c'.receipts && c'.receipts[t] == c.receipts[t])
    && (forall t, id :: OutcomeAt(c, t, id).Some? ==> OutcomeAt(c', t, id) == OutcomeAt(c, t, id))
  }

  lemma MiningGrows(c: Chain, tx: TxHash, reverted: bool, judge: Id -> Verdict)
    requires tx < |c.sent| && tx !in c.receipts
    ensures ChainGrows(c, MinedChain(c, tx, reverted, judge))
  {
  }

  lemma ChainStepGrows(topic: Topic, window: nat, s: State, st: Step)
    requires Enabled(topic, window, s, st)
    ensures ChainGrows(s.chain, Apply(topic, window, s, st).chain)
  {
    if st.Mine? {
      MiningGrows(s.chain, st.tx, st.reverted, st.judge);
    } else if st.Broadcast? {
      BroadcastsGrow(topic, window, s, st);
    } else {
      ChainStays(topic, window, s, st);
    }
  }

  lemma ChainStays(topic: Topic, window: nat, s: State, st: Step)
    requires Enabled(topic, window, s, st) && !st.Mine? && !st.Broadcast?
    ensures var c, c' := s.chain, Apply(topic, window, s, st).chain;
            c'.sent == c.sent && c'.receipts == c.receipts && c'.state == c.state && c'.mined == c.mined
            && (c'.account == c.account || (st.OtherMined? && c'.account == c.account + 1))
            && (c'.pending == c.pending || (st.OtherSend? && c'.pending == c.pending + 1))
  {
  }

  // Evidence a settler has read stays valid until it writes.
  lemma EvidenceStable(c: Chain, c': Chain, w: Write)
    requires ChainGrows(c, c') && Justified(c, w)
    ensures Justified(c', w)
  {
  }

  lemma RowOkGrows(c: Chain, c': Chain, id: Id, r: Row)
    requires ChainGrows(c, c') && RowOk(c, id, r)
    ensures RowOk(c', id, r)
  {
  }

  lemma SettledRowOk(chain: Chain, id: Id, r: Row, w: Write)
    requires RowOk(chain, id, r) && id in w.ids && r.tx == Some(w.tx) && Justified(chain, w)
    ensures RowOk(chain, id, UpdatedRow(r, StatementOf(w)))
  {
  }

  lemma RowsStep(topic: Topic, window: nat, s: State, st: Step)
    requires Inv(topic, window, s) && Enabled(topic, window, s, st)
    ensures RowsInv(Apply(topic, window, s, st))
  {
    var s' := Apply(topic, window, s, st);
    ChainStepGrows(topic, window, s, st);
    forall id | id in s'.rows
      ensures RowOk(s'.chain, id, s'.rows[id])
    {
      RowStep(topic, window, s, st, id);
      RowOkGrows(s.chain, s'.chain, id, s'.rows[id]);
    }
  }

  // The write a settling step makes, if any.
  function SettlingWrite(st: Step): Option<Write> {
    match st
    case ConfirmWrite(_, w, _, _, _) => Some(w)
    case SweepWrite(w) => Some(w)
    case FilterReconcile(write, _) => write
    case _ => None
  }

  // The table changes by one statement per step.
  function StepStatement(s: State, st: Step): Option<Statement> {
    if SettlingWrite(st).Some? then Some(StatementOf(SettlingWrite(st).value))
    else if st.FilterInsert? && AtMessage(s) then Some(InsertPending(Current(s).id))
    else if st.RecordFailure? && ChunkInRange(s) then Some(MarkFailed(Ids(Chunk(s)), None))
    else if st.RecordSent? && ChunkInRange(s) && s.con.phase.Marking? then Some(MarkSent(Ids(Chunk(s)), s.con.phase.tx))
    else None
  }

  lemma RowsMove(topic: Topic, window: nat, s: State, st: Step)
    requires Enabled(topic, window, s, st)
    ensures var rows' := Apply(topic, window, s, st).rows;
            rows' == s.rows || (StepStatement(s, st).Some? && rows' == Execute(s.rows, StepStatement(s, st).value))
  {
    match st
    case ConfirmWrite(_, _, _, _, _) => ConfirmedRows(topic, window, s, st);
    case SweepWrite(_) =>
    case FilterReconcile(_, _) => FilteredRows(topic, window, s, st);
    case FilterInsert(_, _) => FilteredRows(topic, window, s, st);
    case RecordFailure(_, _, _) => RecordedRows(topic, window, s, st);
    case RecordSent(_, _) => RecordedRows(topic, window, s, st);
    case _ => RowsStay(topic, window, s, st);
  }

  lemma FilteredRows(topic: Topic, window: nat, s: State, st: Step)
    requires Enabled(topic, window, s, st) && (st.FilterReconcile? || st.FilterInsert?)
    ensures var rows' := Apply(topic, window, s, st).rows;
            rows' == s.rows || (StepStatement(s, st).Some? && rows' == Execute(s.rows, StepStatement(s, st).value))
  {
  }

  lemma RecordedRows(topic: Topic, window: nat, s: State, st: Step)
    requires Enabled(topic, window, s, st) && (st.RecordFailure? || st.RecordSent?)
    ensures var rows' := Apply(topic, window, s, st).rows;
            rows' == s.rows || (StepStatement(s, st).Some? && rows' == Execute(s.rows, StepStatement(s, st).value))
  {
  }

  lemma ConfirmedRows(topic: Topic, window: nat, s: State, st: Step)
    requires Enabled(topic, window, s, st) && st.ConfirmWrite?
    ensures Apply(topic, window, s, st).rows == if st.applied then Execute(s.rows, StatementOf(st.w)) else s.rows
  {
  }

  lemma RowsStay(topic: Topic, window: nat, s: State, st: Step)
    requires Enabled(topic, window, s, st)
    requires !st.ConfirmWrite? && !st.SweepWrite? && !st.FilterReconcile? && !st.FilterInsert? && !st.RecordFailure? && !st.RecordSent?
    ensures Apply(topic, window, s, st).rows == s.rows
  {
  }

  lemma WritesJustified(topic: Topic, window: nat, s: State, st: Step)
    requires Enabled(topic, window, s, st)
    ensures SettlingWrite(st).Some? ==> Justified(s.chain, SettlingWrite(st).value)
  {
  }

  // The new row is right for the chain as it was: no step writes rows and moves the chain at once.
  lemma RowStep(topic: Topic, window: nat, s: State, st: Step, id: Id)
    requires Inv(topic, window, s) && Enabled(topic, window, s, st)
    requires id in Apply(topic, window, s, st).rows
    ensures RowOk(s.chain, id, Apply(topic, window, s, st).rows[id])
  {
    RowsMove(topic, window, s, st);
    WritesJustified(topic, window, s, st);
    WritesAim(topic, window, s, st);
    StatementRowOk(s, st, Apply(topic, window, s, st).rows, id);
  }

  lemma StatementRowOk(s: State, st: Step, rows': Rows, id: Id)
    requires RowsInv(s) && PhaseInv(s)
    requires rows' == s.rows || (StepStatement(s, st).Some? && rows' == Execute(s.rows, StepStatement(s, st).value))
    requires SettlingWrite(st).Some? ==> Justified(s.chain, SettlingWrite(st).value) && AimsAt(s.rows, SettlingWrite(st).value)
    requires id in rows'
    ensures RowOk(s.chain, id, rows'[id])
  {
    if rows' == s.rows {
    } else if SettlingWrite(st).Some? {
      var w := SettlingWrite(st).value;
      if id in w.ids {
        SettledRowOk(s.chain, id, s.rows[id], w);
      }
    } else if st.FilterInsert? {
    } else {
      ChunkRowOk(s, id, StepStatement(s, st).value);
    }
  }

  lemma ChunkRowOk(s: State, id: Id, stmt: Statement)
    requires RowsInv(s) && PhaseInv(s) && ChunkInRange(s) && id in s.rows
    requires stmt == MarkFailed(Ids(Chunk(s)), None) || (s.con.phase.Marking? && stmt == MarkSent(Ids(Chunk(s)), s.con.phase.tx))
    ensures RowOk(s.chain, id, Execute(s.rows, stmt)[id])
  {
  }

  // ------------------------------------------------------------------- pipeline

  lemma PipeStep(topic: Topic, window: nat, s: State, st: Step)
    requires Inv(topic, window, s) && Enabled(topic, window, s, st)
    ensures PipeInv(Apply(topic, window, s, st))
  {
    var s' := Apply(topic, window, s, st);
    StepAdvances(topic, window, s, st);
    BroadcastsGrow(topic, window, s, st);
    forall b, f | IsBatch(s', b) && f in b.txs
      ensures InflightOk(s'.rows, s'.chain.sent, f)
    {
      BatchOrigin(topic, window, s, st, b);
      InflightKept(s.rows, s'.rows, s.chain.sent, s'.chain.sent, f);
    }
    SettledStep(topic, window, s, st);
    SweepStep(topic, window, s, st);
  }

  lemma SettledStep(topic: Topic, window: nat, s: State, st: Step)
    requires Inv(topic, window, s) && Enabled(topic, window, s, st)
    ensures var s' := Apply(topic, window, s, st);
            s'.pipe.current.Some? ==>
              var c := s'.pipe.current.value;
              && |c.settled| == |c.batch.txs|
              && (forall j :: 0 <= j < |c.settled| ==> c.settled[j] <= Ids(c.batch.txs[j].msgs))
              && (forall j, id :: 0 <= j < |c.settled| && id in c.settled[j] ==> Terminal(s'.rows, id))
  {
    if st.ConfirmWrite? {
      ConfirmSettles(topic, window, s, st);
    } else if st.Take? {
    } else {
      StepAdvances(topic, window, s, st);
      CurrentStays(topic, window, s, st);
      SettledKept(s, Apply(topic, window, s, st));
    }
  }

  lemma SettledKept(s: State, s': State)
    requires PipeInv(s) && Advances(s.rows, s'.rows)
    requires s'.pipe.current.Some? ==> s.pipe.current.Some? && s'.pipe.current.value.settled == s.pipe.current.value.settled
                                       && s'.pipe.current.value.batch == s.pipe.current.value.batch
    ensures s'.pipe.current.Some? ==>
              var c := s'.pipe.current.value;
              && |c.settled| == |c.batch.txs|
              && (forall j :: 0 <= j < |c.settled| ==> c.settled[j] <= Ids(c.batch.txs[j].msgs))
              && (forall j, id :: 0 <= j < |c.settled| && id in c.settled[j] ==> Terminal(s'.rows, id))
  {
  }

  lemma ConfirmSettles(topic: Topic, window: nat, s: State, st: Step)
    requires PipeInv(s) && RowsInv(s) && Enabled(topic, window, s, st) && st.ConfirmWrite?
    ensures var s' := Apply(topic, window, s, st);
            s'.pipe.current.Some? ==>
              var c := s'.pipe.current.value;
              && |c.settled| == |c.batch.txs|
              && (forall j :: 0 <= j < |c.settled| ==> c.settled[j] <= Ids(c.batch.txs[j].msgs))
              && (forall j, id :: 0 <= j < |c.settled| && id in c.settled[j] ==> Terminal(s'.rows, id))
  {
    WriteSettles(topic, window, s, st);
    ConfirmMoves(topic, window, s, st);
    WrittenSettled(s, Apply(topic, window, s, st), st.j, st.w, st.ok);
  }

  lemma WriteSettles(topic: Topic, window: nat, s: State, st: Step)
    requires PipeInv(s) && RowsInv(s) && Enabled(topic, window, s, st) && st.ConfirmWrite?
    ensures var s' := Apply(topic, window, s, st);
            Advances(s.rows, s'.rows) && (st.ok ==> forall id :: id in st.w.ids ==> Terminal(s'.rows, id))
  {
    WritesAim(topic, window, s, st);
    SettlingAdvances(s.rows, st.w);
  }

  lemma ConfirmMoves(topic: Topic, window: nat, s: State, st: Step)
    requires Enabled(topic, window, s, st) && st.ConfirmWrite?
    ensures var s' := Apply(topic, window, s, st);
            && s.pipe.current.Some? && s'.pipe.current.Some? && ConfirmsTx(s, st.j)
            && s'.pipe.current.value.batch == s.pipe.current.value.batch
            && s'.pipe.current.value.settled ==
               (if st.ok then s.pipe.current.value.settled[st.j := s.pipe.current.value.settled[st.j] + st.w.ids] else s.pipe.current.value.settled)
            && st.w.ids <= Ids(s.pipe.current.value.batch.txs[st.j].msgs)
  {
  }

  lemma WrittenSettled(s: State, s': State, j: nat, w: Write, ok: bool)
    requires PipeInv(s) && Advances(s.rows, s'.rows) && ConfirmsTx(s, j) && s'.pipe.current.Some?
    requires w.ids <= Ids(s.pipe.current.value.batch.txs[j].msgs)
    requires ok ==> forall id :: id in w.ids ==> Terminal(s'.rows, id)
    requires s'.pipe.current.value.batch == s.pipe.current.value.batch
    requires s'.pipe.current.value.settled
             == if ok then s.pipe.current.value.settled[j := s.pipe.current.value.settled[j] + w.ids] else s.pipe.current.value.settled
    ensures var c := s'.pipe.current.value;
            && |c.settled| == |c.batch.txs|
            && (forall j :: 0 <= j < |c.settled| ==> c.settled[j] <= Ids(c.batch.txs[j].msgs))
            && (forall j, id :: 0 <= j < |c.settled| && id in c.settled[j] ==> Terminal(s'.rows, id))
  {
    var c, c' := s.pipe.current.value, s'.pipe.current.value;
    forall k, id | 0 <= k < |c'.settled| && id in c'.settled[k]
      ensures Terminal(s'.rows, id)
    {
      if id in c.settled[k] {
        assert Terminal(s.rows, id);
      } else {
        assert k == j && id in w.ids;
      }
    }
  }

  lemma CurrentStays(topic: Topic, window: nat, s: State, st: Step)
    requires Enabled(topic, window, s, st) && !st.ConfirmWrite? && !st.Take?
    ensures var p' := Apply(topic, window, s, st).pipe;
            p'.current.Some? ==> s.pipe.current.Some? && p'.current.value.settled == s.pipe.current.value.settled
                                 && p'.current.value.batch == s.pipe.current.value.batch
  {
  }

  lemma SweepStep(topic: Topic, window: nat, s: State, st: Step)
    requires Inv(topic, window, s) && Enabled(topic, window, s, st)
    ensures var s' := Apply(topic, window, s, st);
            forall p :: p in s'.sweep ==> p.0 in s'.rows && s'.rows[p.0].tx == Some(p.1)
  {
    StepAdvances(topic, window, s, st);
    SweepMoves(topic, window, s, st);
    RowsOfSweep(s, st, Apply(topic, window, s, st));
  }

  lemma SweepMoves(topic: Topic, window: nat, s: State, st: Step)
    requires Enabled(topic, window, s, st)
    ensures var s' := Apply(topic, window, s, st);
            s'.sweep == (if st.SweepList? then st.pairs else if st.Restart? then {} else s.sweep)
            && (st.SweepList? ==> forall p :: p in st.pairs ==> Reconcilable(s.rows, p.0, p.1))
  {
  }

  lemma RowsOfSweep(s: State, st: Step, s': State)
    requires PipeInv(s) && Advances(s.rows, s'.rows)
    requires s'.sweep == if st.SweepList? then st.pairs else if st.Restart? then {} else s.sweep
    requires st.SweepList? ==> forall p :: p in st.pairs ==> Reconcilable(s.rows, p.0, p.1)
    ensures forall p :: p in s'.sweep ==> p.0 in s'.rows && s'.rows[p.0].tx == Some(p.1)
  {
  }

  // -------------------------------------------------------------- no event lost

  lemma FinishingCloses(s: State, st: Step)
    requires PhaseInv(s) && Finishing(s, st) && (st.SendDone? ==> s.con.phase.Sending? && s.con.phase.i == |s.con.phase.pending|)
    requires st.FilterDone? ==> s.con.phase.k == s.con.b
    ensures forall q :: 0 <= q < |s.con.win| ==> Closed(s.rows, s.con.win[q].id)
  {
  }

  lemma OffsetsAt(ms: seq<Msg>, o: nat)
    requires o in Offsets(ms)
    ensures exists q :: 0 <= q < |ms| && ms[q].off == o
  {
  }

  lemma CoverStep(topic: Topic, window: nat, s: State, st: Step)
    requires Inv(topic, window, s) && Enabled(topic, window, s, st)
    requires MemInv(topic, Apply(topic, window, s, st))
    ensures CoverInv(topic, Apply(topic, window, s, st))
  {
    var s' := Apply(topic, window, s, st);
    CoverRange(topic, window, s, st);
    forall b, o | IsBatch(s', b) && o in b.offs && o < s'.next && topic[o].Good?
      ensures Closed(s'.rows, topic[o].id)
    {
      BatchCovered(topic, window, s, st, b, o);
    }
  }

  lemma CoverRange(topic: Topic, window: nat, s: State, st: Step)
    requires Inv(topic, window, s) && Enabled(topic, window, s, st)
    requires MemInv(topic, Apply(topic, window, s, st))
    ensures var s' := Apply(topic, window, s, st);
            forall o :: s'.committed <= o < s'.next && topic[o].Good? ==> MsgAt(topic, o) in Mem(s') || Closed(s'.rows, topic[o].id)
  {
    var s' := Apply(topic, window, s, st);
    StepAdvances(topic, window, s, st);
    MemoryStep(topic, window, s, st);
    MarkMoves(topic, window, s, st);
    if Finishing(s, st) {
      FinishingCloses(s, st);
      assert Mem(s) == s.con.win;
    }
    CoverKept(topic, s, s', st.Fetch?, st.Restart?);
  }

  lemma CoverKept(topic: Topic, s: State, s': State, fetched: bool, restarted: bool)
    requires MemInv(topic, s) && CoverInv(topic, s) && MemInv(topic, s')
    requires Advances(s.rows, s'.rows) && s.committed <= s'.committed
    requires restarted ==> s'.next == s'.committed
    requires !restarted ==> s'.next == if fetched then s.next + 1 else s.next
    requires !restarted ==> (forall m :: m in Mem(s) ==> m in Mem(s') || Closed(s.rows, m.id))
    requires fetched && !restarted && topic[s.next].Good? ==> MsgAt(topic, s.next) in Mem(s')
    ensures forall o :: s'.committed <= o < s'.next && topic[o].Good? ==> MsgAt(topic, o) in Mem(s') || Closed(s'.rows, topic[o].id)
  {
  }

  lemma BatchCovered(topic: Topic, window: nat, s: State, st: Step, b: Batch, o: nat)
    requires Inv(topic, window, s) && Enabled(topic, window, s, st)
    requires IsBatch(Apply(topic, window, s, st), b) && o in b.offs && o < |topic| && topic[o].Good?
    ensures Closed(Apply(topic, window, s, st).rows, topic[o].id)
  {
    StepAdvances(topic, window, s, st);
    BatchOrigin(topic, window, s, st, b);
    if IsBatch(s, b) {
      assert o < s.next;
    } else if Finishing(s, st) && b == Batch(s.con.inflight, Offsets(s.con.win)) {
      FinishingCloses(s, st);
      OffsetsAt(s.con.win, o);
      var q :| 0 <= q < |s.con.win| && s.con.win[q].off == o;
      assert s.con.win[q] in Mem(s);
    }
  }

  // ---------------------------------------------------------------------- order

  lemma OrderStep(topic: Topic, window: nat, s: State, st: Step)
    requires Inv(topic, window, s) && Enabled(topic, window, s, st)
    ensures OrderInv(topic, Apply(topic, window, s, st))
  {
    var s' := Apply(topic, window, s, st);
    StepAdvances(topic, window, s, st);
    LiveShrinks(topic, window, s, st);
    if st.Broadcast? {
      assert s'.chain.sent == s.chain.sent + [Sent(NextChunk(s, st.n), s.nonce.value, st.acked)] && s'.rows == s.rows;
      BroadcastOrder(topic, s, s', st.n, st.acked);
    } else {
      BroadcastsStay(topic, window, s, st);
      OrderKept(topic, s, s');
    }
  }

  function NextChunk(s: State, n: nat): seq<Msg>
    requires AtSend(s) && s.con.phase.i + n <= |s.con.phase.pending|
  {
    s.con.phase.pending[s.con.phase.i..s.con.phase.i + n]
  }

  lemma LiveShrinks(topic: Topic, window: nat, s: State, st: Step)
    requires MemInv(topic, s) && Enabled(topic, window, s, st)
    ensures var s' := Apply(topic, window, s, st);
            forall o: nat :: o < |topic| && Live(topic, s', o) ==> Live(topic, s, o)
  {
    var s' := Apply(topic, window, s, st);
    MemoryStep(topic, window, s, st);
    MarkMoves(topic, window, s, st);
    forall o: nat | o < |topic| && Live(topic, s', o)
      ensures Live(topic, s, o)
    {
      if s'.committed > o && st.Fetch? {
        assert MsgAt(topic, o) in Mem(s) || o == s.next;
      }
    }
  }

  lemma OrderKept(topic: Topic, s: State, s': State)
    requires OrderInv(topic, s) && s'.chain.sent == s.chain.sent && Advances(s.rows, s'.rows)
    requires forall o: nat :: o < |topic| && Live(topic, s', o) ==> Live(topic, s, o)
    ensures OrderInv(topic, s')
  {
  }

  // What the chunk leaves behind it is settled or travels with it.
  lemma LiveIsCovered(topic: Topic, s: State, o: nat)
    requires MemInv(topic, s) && CoverInv(topic, s) && o < s.next && Live(topic, s, o)
    ensures MsgAt(topic, o) in Mem(s) || Closed(s.rows, topic[o].id)
  {
  }

  lemma WindowAscends(topic: Topic, s: State, q: nat, y: nat)
    requires MemInv(topic, s) && s.con.Working? && q < |s.con.win| && y < |s.con.win| && s.con.win[q].off < s.con.win[y].off
    ensures q < y && s.con.win[y].off < s.next
  {
    assert Mem(s) == s.con.win && s.con.win[y] in Mem(s);
  }

  lemma ChunkCovers(topic: Topic, s: State, n: nat, m: Msg, o: nat)
    requires MemInv(topic, s) && PhaseInv(s) && CoverInv(topic, s)
    requires AtSend(s) && s.con.phase.i + n <= |s.con.phase.pending|
    requires m in NextChunk(s, n) && o < m.off && o < |topic| && Live(topic, s, o)
    ensures Closed(s.rows, topic[o].id) || topic[o].id in Ids(NextChunk(s, n))
  {
    var x := PendingIndex(s, n, m);
    var y := WindowIndex(s, m);
    assert Mem(s) == s.con.win && s.con.win[y] in Mem(s);
    LiveIsCovered(topic, s, o);
    if MsgAt(topic, o) in s.con.win {
      var q :| 0 <= q < |s.con.win| && s.con.win[q] == MsgAt(topic, o);
      WindowAscends(topic, s, q, y);
      WindowCovers(s, n, x, y, q);
    }
  }

  lemma WindowCovers(s: State, n: nat, x: nat, y: nat, q: nat)
    requires PhaseInv(s) && AtSend(s) && s.con.phase.i + n <= |s.con.phase.pending|
    requires s.con.phase.i <= x < s.con.phase.i + n && q < y < s.con.b
    requires s.con.win[q].off < s.con.phase.pending[x].off
    ensures Closed(s.rows, s.con.win[q].id) || s.con.win[q].id in Ids(NextChunk(s, n))
  {
  }

  lemma PendingIndex(s: State, n: nat, m: Msg) returns (x: nat)
    requires AtSend(s) && s.con.phase.i + n <= |s.con.phase.pending| && m in NextChunk(s, n)
    ensures s.con.phase.i <= x < s.con.phase.i + n && s.con.phase.pending[x] == m
  {
    var k :| 0 <= k < |NextChunk(s, n)| && NextChunk(s, n)[k] == m;
    x := s.con.phase.i + k;
  }

  lemma WindowIndex(s: State, m: Msg) returns (y: nat)
    requires s.con.Working? && PhaseShape(s) && m in Pend(s.con.phase)
    ensures s.con.a <= y < Upto(s) && s.con.win[y] == m
  {
    var part := s.con.win[s.con.a..Upto(s)];
    assert m in part;
    var k :| 0 <= k < |part| && part[k] == m;
    y := s.con.a + k;
  }

  lemma ChunkIsFresh(topic: Topic, s: State, n: nat)
    requires MemInv(topic, s) && PhaseInv(s) && AtSend(s) && s.con.phase.i + n <= |s.con.phase.pending|
    ensures forall m :: m in NextChunk(s, n) ==> MsgOk(topic, m) && Live(topic, s, m.off) && !Closed(s.rows, m.id)
  {
    forall m | m in NextChunk(s, n)
      ensures MsgOk(topic, m) && Live(topic, s, m.off) && !Closed(s.rows, m.id)
    {
      var x := PendingIndex(s, n, m);
      var y := WindowIndex(s, m);
      assert m in Mem(s);
    }
  }

  lemma EarlierCarriesChunk(topic: Topic, s: State, n: nat)
    requires OrderInv(topic, s) && AtSend(s) && s.con.phase.i + n <= |s.con.phase.pending|
    requires forall m :: m in NextChunk(s, n) ==> MsgOk(topic, m) && Live(topic, s, m.off) && !Closed(s.rows, m.id)
    ensures forall t, m', m :: 0 <= t < |s.chain.sent| && m' in s.chain.sent[t].msgs && m in NextChunk(s, n) && m.off < m'.off
              ==> m.id in Ids(s.chain.sent[t].msgs)
  {
    forall t, m', m | 0 <= t < |s.chain.sent| && m' in s.chain.sent[t].msgs && m in NextChunk(s, n) && m.off < m'.off
      ensures m.id in Ids(s.chain.sent[t].msgs)
    {
      assert Live(topic, s, m.off) && !Closed(s.rows, topic[m.off].id);
    }
  }

  lemma OlderCovered(topic: Topic, s: State, s': State, n: nat, t: nat, m: Msg, o: nat)
    requires MemInv(topic, s) && PhaseInv(s) && CoverInv(topic, s) && OrderInv(topic, s)
    requires AtSend(s) && n > 0 && s.con.phase.i + n <= |s.con.phase.pending|
    requires |s'.chain.sent| == |s.chain.sent| + 1 && s'.chain.sent[..|s.chain.sent|] == s.chain.sent
    requires s'.chain.sent[|s.chain.sent|].msgs == NextChunk(s, n) && s'.rows == s.rows
    requires t < |s'.chain.sent| && m in s'.chain.sent[t].msgs && o < m.off && o < |topic| && Live(topic, s, o)
    ensures Closed(s'.rows, topic[o].id) || topic[o].id in Ids(s'.chain.sent[t].msgs)
  {
    if t == |s.chain.sent| {
      ChunkCovers(topic, s, n, m, o);
    } else {
      assert s'.chain.sent[t] == s.chain.sent[t];
    }
  }

  lemma BroadcastOrder(topic: Topic, s: State, s': State, n: nat, acked: bool)
    requires MemInv(topic, s) && PhaseInv(s) && CoverInv(topic, s) && OrderInv(topic, s)
    requires AtSend(s) && n > 0 && s.con.phase.i + n <= |s.con.phase.pending| && s.nonce.Some?
    requires s'.chain.sent == s.chain.sent + [Sent(NextChunk(s, n), s.nonce.value, acked)] && s'.rows == s.rows
    requires forall o: nat :: o < |topic| && Live(topic, s', o) ==> Live(topic, s, o)
    ensures OrderInv(topic, s')
  {
    ChunkIsFresh(topic, s, n);
    EarlierCarriesChunk(topic, s, n);
    forall t: nat, m, o: nat | t < |s'.chain.sent| && m in s'.chain.sent[t].msgs && o < m.off && o < |topic| && Live(topic, s', o)
      ensures Closed(s'.rows, topic[o].id) || topic[o].id in Ids(s'.chain.sent[t].msgs)
    {
      OlderCovered(topic, s, s', n, t, m, o);
    }
    NoOvertakingGrows(s.chain.sent, s'.chain.sent[|s.chain.sent|]);
    ChunkAscends(s, n);
    SentStaysGood(topic, s.chain.sent, s'.chain.sent[|s.chain.sent|]);
  }

  lemma ChunkAscends(s: State, n: nat)
    requires PhaseInv(s) && AtSend(s) && n > 0 && s.con.phase.i + n <= |s.con.phase.pending|
    ensures NextChunk(s, n) != [] && Ascending(NextChunk(s, n))
  {
  }

  ghost predicate SentGood(topic: Topic, sent: seq<Sent>) {
    && (forall t :: 0 <= t < |sent| ==> sent[t].msgs != [] && Ascending(sent[t].msgs))
    && (forall t, m :: 0 <= t < |sent| && m in sent[t].msgs ==> MsgOk(topic, m))
  }

  lemma SentStaysGood(topic: Topic, sent: seq<Sent>, last: Sent)
    requires SentGood(topic, sent) && last.msgs != [] && Ascending(last.msgs) && forall m :: m in last.msgs ==> MsgOk(topic, m)
    ensures SentGood(topic, sent + [last])
  {
  }

  // The new transaction overtakes none before it.
  lemma NoOvertakingGrows(sent: seq<Sent>, last: Sent)
    requires NoOvertaking(sent)
    requires forall t, m', m :: 0 <= t < |sent| && m' in sent[t].msgs && m in last.msgs && m.off < m'.off ==> m.id in Ids(sent[t].msgs)
    ensures NoOvertaking(sent + [last])
  {
  }
}
