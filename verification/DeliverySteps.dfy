// Every step of the delivery machine keeps the invariants.
module DeliverySteps {
  import opened Basics
  import opened EventStore
  import opened ActionChunks
  import opened ActionOutcomes
  import opened DeliveryMachine
  import opened DeliveryInvariants

  // ------------------------------------------------------------ how rows evolve

  ghost predicate Advances(r: Rows, r': Rows) {
    forall id :: id in r ==>
      && id in r'
      && (r[id].tx.Some? ==> r'[id].tx == r[id].tx)
      && (Closed(r, id) ==> Closed(r', id))
      && (r[id].status == COMMITTED ==> r'[id] == r[id])
      && (Terminal(r, id) ==> Terminal(r', id))
  }

  ghost predicate AimsAt(rows: Rows, w: Write) {
    forall id :: id in w.ids ==> id in rows && rows[id].tx == Some(w.tx)
  }

  lemma SettlingAdvances(rows: Rows, w: Write)
    requires AimsAt(rows, w)
    ensures var after := Execute(rows, StatementOf(w));
            && Advances(rows, after)
            && after.Keys == rows.Keys
            && (forall id :: id in rows ==> after[id].tx == rows[id].tx)
            && (forall id :: id in rows && id !in w.ids ==> after[id] == rows[id])
            && (forall id :: id in w.ids ==> Terminal(after, id))
  {
  }

  lemma WritesAim(topic: Topic, window: nat, s: State, st: Step)
    requires PipeInv(s) && RowsInv(s) && Enabled(topic, window, s, st)
    ensures st.ConfirmWrite? ==> AimsAt(s.rows, st.w)
    ensures st.SweepWrite? ==> AimsAt(s.rows, st.w)
    ensures st.FilterReconcile? && st.write.Some? ==> AimsAt(s.rows, st.write.value)
  {
    if st.ConfirmWrite? {
      var cur := s.pipe.current.value;
      assert IsBatch(s, cur.batch);
      var f := cur.batch.txs[st.j];
      assert f in cur.batch.txs && InflightOk(s.rows, s.chain.sent, f);
    }
  }

  lemma StepAdvances(topic: Topic, window: nat, s: State, st: Step)
    requires PhaseInv(s) && PipeInv(s) && RowsInv(s) && Enabled(topic, window, s, st)
    ensures Advances(s.rows, Apply(topic, window, s, st).rows)
  {
    if st.ConfirmWrite? || st.SweepWrite? || st.FilterReconcile? {
      WriteAdvances(topic, window, s, st);
    } else if st.RecordFailure? || st.RecordSent? {
      ChunkAdvances(topic, window, s, st);
    } else {
      RowsStay(topic, window, s, st);
    }
  }

  lemma ChunkAdvances(topic: Topic, window: nat, s: State, st: Step)
    requires PhaseInv(s) && Enabled(topic, window, s, st) && (st.RecordFailure? || st.RecordSent?)
    ensures Advances(s.rows, Apply(topic, window, s, st).rows)
  {
    ChunkIsNew(s);
  }

  lemma WriteAdvances(topic: Topic, window: nat, s: State, st: Step)
    requires PipeInv(s) && RowsInv(s) && Enabled(topic, window, s, st) && (st.ConfirmWrite? || st.SweepWrite? || st.FilterReconcile?)
    ensures Advances(s.rows, Apply(topic, window, s, st).rows)
  {
    WritesAim(topic, window, s, st);
    match st
    case ConfirmWrite(_, w, _, _, _) => SettlingAdvances(s.rows, w);
    case SweepWrite(w) => SettlingAdvances(s.rows, w);
    case FilterReconcile(write, _) => if write.Some? { SettlingAdvances(s.rows, write.value); }
  }

  lemma RowsStay(topic: Topic, window: nat, s: State, st: Step)
    requires Enabled(topic, window, s, st)
    requires !st.ConfirmWrite? && !st.SweepWrite? && !st.FilterReconcile? && !st.RecordFailure? && !st.RecordSent?
    ensures var rows := Apply(topic, window, s, st).rows;
            rows == s.rows || (st.FilterInsert? && AtMessage(s) && rows == Execute(s.rows, InsertPending(Current(s).id)))
  {
  }

  lemma ChunkIsNew(s: State)
    requires PhaseInv(s) && ChunkInRange(s)
    ensures forall id :: id in Ids(Chunk(s)) ==> id in s.rows && s.rows[id] == NEW_ROW
  {
  }

  // Which steps change the messages in memory.
  predicate Finishing(s: State, st: Step) {
    InSegment(s) && s.con.b == |s.con.win|
    && (st.SendDone? || (st.FilterDone? && s.con.phase.Filtering? && s.con.phase.pending == []))
  }

  predicate ConsumerIsOther(st: Step) {
    || st.Take? || st.ConfirmWrite? || st.ConfirmError? || st.Commit? || st.StopCollector? || st.SweepList? || st.SweepWrite?
    || st.Mine? || st.OtherSend? || st.OtherMined?
  }

  predicate WorksOnWindow(st: Step) {
    || st.FilterSkip? || st.FilterInsert? || st.FilterResend? || st.FilterReconcile? || st.FilterError? || st.FilterDone?
    || st.Refuse? || st.RecordFailure? || st.SeedNonce? || st.Broadcast? || st.SendTransient? || st.RecordSent? || st.SendDone?
  }

  predicate SameWindow(s: State, s': State) {
    && s.con.Working? && s'.con.Working? && s'.con.win == s.con.win && s'.con.bad == s.con.bad && s'.batcher == s.batcher
  }

  predicate PutBack(s: State, s': State) {
    s.con.Working? && s'.con == AfterDrain(s.con.bad) && s'.batcher == s.con.win + s.batcher
  }

  predicate Finished(s: State, s': State) {
    && s.con.Working? && s'.con == Offering(Batch(s.con.inflight, Offsets(s.con.win)), s.con.bad) && s'.batcher == s.batcher
  }

  lemma ConsumerMoves(topic: Topic, window: nat, s: State, st: Step)
    requires Enabled(topic, window, s, st)
    ensures var s' := Apply(topic, window, s, st);
            && (ConsumerIsOther(st) ==> s'.con == s.con && s'.batcher == s.batcher)
            && (WorksOnWindow(st) ==> if Finishing(s, st) then Finished(s, s') else SameWindow(s, s') || PutBack(s, s'))
            && (ConsumerIsOther(st) || WorksOnWindow(st) || st.Fetch? || st.Flush? || st.Offer? || st.PublishBad? || st.Restart?)
  {
    if WorksOnWindow(st) {
      WindowMoves(topic, window, s, st);
    } else if ConsumerIsOther(st) {
      OthersMove(topic, window, s, st);
    }
  }

  lemma OthersMove(topic: Topic, window: nat, s: State, st: Step)
    requires ConsumerIsOther(st) && Enabled(topic, window, s, st)
    ensures var s' := Apply(topic, window, s, st); s'.con == s.con && s'.batcher == s.batcher
  {
  }

  lemma WindowMoves(topic: Topic, window: nat, s: State, st: Step)
    requires WorksOnWindow(st) && Enabled(topic, window, s, st)
    ensures var s' := Apply(topic, window, s, st);
            if Finishing(s, st) then Finished(s, s') else SameWindow(s, s') || PutBack(s, s')
  {
  }

  lemma MarkMoves(topic: Topic, window: nat, s: State, st: Step)
    requires Enabled(topic, window, s, st)
    ensures var s' := Apply(topic, window, s, st);
            && s'.next == (if st.Fetch? then s.next + 1 else if st.Restart? then s.committed else s.next)
            && s.committed <= s'.committed
            && (s'.committed != s.committed ==> st.Commit? && s'.committed == HighWater(s.pipe.current.value.batch.offs, s.committed))
  {
  }

  lemma MemoryStep(topic: Topic, window: nat, s: State, st: Step)
    requires MemInv(topic, s) && Enabled(topic, window, s, st)
    ensures var s' := Apply(topic, window, s, st);
            && (st.Fetch? ==> Mem(s') == Mem(s) + if topic[s.next].Good? then [MsgAt(topic, s.next)] else [])
            && (st.Restart? || Finishing(s, st) ==> Mem(s') == [])
            && (!st.Fetch? && !st.Restart? && !Finishing(s, st) ==> Mem(s') == Mem(s))
  {
    ConsumerMoves(topic, window, s, st);
  }

  lemma MemStep(topic: Topic, window: nat, s: State, st: Step)
    requires MemInv(topic, s) && Enabled(topic, window, s, st)
    ensures MemInv(topic, Apply(topic, window, s, st))
  {
    var s' := Apply(topic, window, s, st);
    BatchOffsetsStep(topic, window, s, st);
    BoundsStep(topic, window, s, st);
    if st.Restart? {
      assert Mem(s') == [];
    } else {
      MemMessagesStep(topic, window, s, st);
      WindowStep(topic, window, s, st);
    }
  }

  lemma BoundsStep(topic: Topic, window: nat, s: State, st: Step)
    requires MemInv(topic, s) && Enabled(topic, window, s, st)
    ensures var s' := Apply(topic, window, s, st); s'.committed <= s'.next <= |topic|
  {
    MarkMoves(topic, window, s, st);
    if st.Commit? {
      var b := s.pipe.current.value.batch;
      assert IsBatch(s, b);
    }
  }

  lemma MemMessagesStep(topic: Topic, window: nat, s: State, st: Step)
    requires MemInv(topic, s) && Enabled(topic, window, s, st) && !st.Restart?
    ensures var s' := Apply(topic, window, s, st);
            (forall m :: m in Mem(s') ==> MsgOk(topic, m) && m.off < s'.next) && Ascending(Mem(s'))
  {
    MemoryStep(topic, window, s, st);
    MarkMoves(topic, window, s, st);
    MessagesKept(topic, s, Apply(topic, window, s, st), st.Fetch?);
  }

  lemma MessagesKept(topic: Topic, s: State, s': State, fetched: bool)
    requires MemInv(topic, s)
    requires if fetched then s.next < |topic| && s'.next == s.next + 1
                             && Mem(s') == Mem(s) + (if topic[s.next].Good? then [MsgAt(topic, s.next)] else [])
             else (Mem(s') == [] || Mem(s') == Mem(s)) && s'.next == s.next
    ensures (forall m :: m in Mem(s') ==> MsgOk(topic, m) && m.off < s'.next) && Ascending(Mem(s'))
  {
  }

  // The consumer's own shape: where the window is cut and which bad message waits.
  lemma WindowStep(topic: Topic, window: nat, s: State, st: Step)
    requires MemInv(topic, s) && Enabled(topic, window, s, st) && !st.Restart?
    ensures var s' := Apply(topic, window, s, st);
            && (s'.con.Working? ==> s'.batcher == [] && s'.con.a < s'.con.b <= |s'.con.win| && s'.con.b == RunEnd(s'.con.win, s'.con.a))
            && (s'.con.Working? ==> BadWaits(topic, s', s'.con.bad))
            && (s'.con.Offering? ==> BadWaits(topic, s', s'.con.bad))
            && (s'.con.Publishing? ==> BadWaits(topic, s', Some(s'.con.off)))
  {
    var s' := Apply(topic, window, s, st);
    SegmentStep(topic, window, s, st);
    ConsumerMoves(topic, window, s, st);
    MemoryStep(topic, window, s, st);
    MarkMoves(topic, window, s, st);
    if st.Fetch? {
      FetchBad(topic, window, s);
    } else if st.Flush? || st.Offer? || st.PublishBad? {
      TurnStep(topic, window, s, st);
    } else {
      BadKept(topic, s, s');
    }
  }

  predicate Cut(s: State) {
    s.con.Working? ==> s.batcher == [] && s.con.a < s.con.b <= |s.con.win| && s.con.b == RunEnd(s.con.win, s.con.a)
  }

  lemma SegmentStep(topic: Topic, window: nat, s: State, st: Step)
    requires MemInv(topic, s) && Enabled(topic, window, s, st) && !st.Restart?
    ensures var s' := Apply(topic, window, s, st);
            s'.con.Working? ==> s'.batcher == [] && s'.con.a < s'.con.b <= |s'.con.win| && s'.con.b == RunEnd(s'.con.win, s'.con.a)
  {
    if st.SendDone? || st.FilterDone? {
      NextSegmentCut(s);
    } else if st.Fetch? || st.Flush? {
      DrainCut(topic, window, s, st);
    } else {
      CutStays(topic, window, s, st);
    }
  }

  lemma NextSegmentCut(s: State)
    requires InSegment(s) && s.batcher == [] && Cut(s)
    ensures Cut(NextSegment(s))
  {
  }

  lemma DrainCut(topic: Topic, window: nat, s: State, st: Step)
    requires MemInv(topic, s) && Enabled(topic, window, s, st) && (st.Fetch? || st.Flush?)
    ensures Cut(Apply(topic, window, s, st))
  {
  }

  lemma CutStays(topic: Topic, window: nat, s: State, st: Step)
    requires Cut(s) && Enabled(topic, window, s, st) && !st.Restart? && !st.SendDone? && !st.FilterDone? && !st.Fetch? && !st.Flush?
    ensures Cut(Apply(topic, window, s, st))
  {
  }

  lemma FetchBad(topic: Topic, window: nat, s: State)
    requires MemInv(topic, s) && Enabled(topic, window, s, Fetch)
    ensures var s' := Apply(topic, window, s, Fetch);
            && (s'.con.Working? ==> BadWaits(topic, s', s'.con.bad))
            && !s'.con.Offering?
            && (s'.con.Publishing? ==> BadWaits(topic, s', Some(s'.con.off)))
  {
  }

  lemma TurnStep(topic: Topic, window: nat, s: State, st: Step)
    requires MemInv(topic, s) && Enabled(topic, window, s, st) && (st.Flush? || st.Offer? || st.PublishBad?)
    ensures var s' := Apply(topic, window, s, st);
            && (s'.con.Working? ==> BadWaits(topic, s', s'.con.bad))
            && (s'.con.Offering? ==> BadWaits(topic, s', s'.con.bad))
            && (s'.con.Publishing? ==> BadWaits(topic, s', Some(s'.con.off)))
  {
  }

  lemma BadKept(topic: Topic, s: State, s': State)
    requires MemInv(topic, s) && s'.next == s.next && (Mem(s') == Mem(s) || Mem(s') == [])
    requires SameWindow(s, s') || PutBack(s, s') || Finished(s, s') || s'.con == s.con
    ensures s'.con.Working? ==> BadWaits(topic, s', s'.con.bad)
    ensures s'.con.Offering? ==> BadWaits(topic, s', s'.con.bad)
    ensures s'.con.Publishing? ==> BadWaits(topic, s', Some(s'.con.off))
  {
  }

  lemma BatchOffsetsStep(topic: Topic, window: nat, s: State, st: Step)
    requires MemInv(topic, s) && Enabled(topic, window, s, st)
    ensures var s' := Apply(topic, window, s, st); forall b, o :: IsBatch(s', b) && o in b.offs ==> o < s'.next
  {
    var s' := Apply(topic, window, s, st);
    forall b, o | IsBatch(s', b) && o in b.offs
      ensures o < s'.next
    {
      BatchOrigin(topic, window, s, st, b);
    }
  }

  // A batch is either an old one, the window just finished, or one bad offset.
  lemma BatchOrigin(topic: Topic, window: nat, s: State, st: Step, b: Batch)
    requires MemInv(topic, s) && Enabled(topic, window, s, st)
    requires IsBatch(Apply(topic, window, s, st), b)
    ensures !st.Restart?
    ensures || IsBatch(s, b)
            || (Finishing(s, st) && b == Batch(s.con.inflight, Offsets(s.con.win)))
            || (st.PublishBad? && b == Batch([], [s.con.off]))
  {
    if WorksOnWindow(st) {
      WindowBatchOrigin(topic, window, s, st, b);
    }
  }

  lemma WindowBatchOrigin(topic: Topic, window: nat, s: State, st: Step, b: Batch)
    requires WorksOnWindow(st) && Enabled(topic, window, s, st)
    requires IsBatch(Apply(topic, window, s, st), b)
    ensures IsBatch(s, b) || (Finishing(s, st) && b == Batch(s.con.inflight, Offsets(s.con.win)))
  {
  }

  // ---------------------------------------------------------- progress in the window

  // A row nobody has sent or failed is touched by the consumer alone.
  ghost predicate KeepsNew(r: Rows, r': Rows) {
    forall id :: id in r && r[id] == NEW_ROW ==> id in r' && r'[id] == NEW_ROW
  }

  lemma WriteKeepsNew(rows: Rows, w: Write)
    requires AimsAt(rows, w)
    ensures KeepsNew(rows, Execute(rows, StatementOf(w)))
  {
    SettlingAdvances(rows, w);
  }

  lemma OthersKeepNew(topic: Topic, window: nat, s: State, st: Step)
    requires PipeInv(s) && RowsInv(s) && Enabled(topic, window, s, st)
    requires ConsumerIsOther(st) || st.FilterReconcile?
    ensures KeepsNew(s.rows, Apply(topic, window, s, st).rows)
  {
    if st.ConfirmWrite? || st.SweepWrite? || st.FilterReconcile? {
      WritesAim(topic, window, s, st);
      match st
      case ConfirmWrite(_, w, _, _, _) => WriteKeepsNew(s.rows, w);
      case SweepWrite(w) => WriteKeepsNew(s.rows, w);
      case FilterReconcile(write, _) => if write.Some? { WriteKeepsNew(s.rows, write.value); }
    } else {
      RowsStay(topic, window, s, st);
    }
  }

  ghost predicate Extends(sent: seq<Sent>, sent': seq<Sent>) {
    |sent| <= |sent'| && sent'[..|sent|] == sent
  }

  lemma BroadcastsGrow(topic: Topic, window: nat, s: State, st: Step)
    requires Enabled(topic, window, s, st)
    ensures var s' := Apply(topic, window, s, st);
            && Extends(s.chain.sent, s'.chain.sent)
            && (!st.Broadcast? ==> s'.chain.sent == s.chain.sent)
  {
    if st.Broadcast? {
      var ph := s.con.phase;
      var last := Sent(ph.pending[ph.i..ph.i + st.n], s.nonce.value, st.acked);
      assert Apply(topic, window, s, st).chain.sent == s.chain.sent + [last];
      SnocExtends(s.chain.sent, last);
    } else {
      BroadcastsStay(topic, window, s, st);
    }
  }

  lemma SnocExtends(sent: seq<Sent>, last: Sent)
    ensures Extends(sent, sent + [last])
  {
  }

  lemma BroadcastsStay(topic: Topic, window: nat, s: State, st: Step)
    requires Enabled(topic, window, s, st) && !st.Broadcast?
    ensures Apply(topic, window, s, st).chain.sent == s.chain.sent
  {
  }

  lemma InflightKept(rows: Rows, rows': Rows, sent: seq<Sent>, sent': seq<Sent>, f: Inflight)
    requires Advances(rows, rows') && Extends(sent, sent') && InflightOk(rows, sent, f)
    ensures InflightOk(rows', sent', f)
  {
  }

  lemma RowsKept(s: State, s': State)
    requires s.con.Working? && PhaseInv(s)
    requires s'.con == s.con && s'.chain.sent == s.chain.sent
    requires Advances(s.rows, s'.rows) && KeepsNew(s.rows, s'.rows)
    ensures PhaseInv(s')
  {
  }

  lemma PhaseStep(topic: Topic, window: nat, s: State, st: Step)
    requires Inv(topic, window, s) && Enabled(topic, window, s, st)
    ensures PhaseInv(Apply(topic, window, s, st))
  {
    if Apply(topic, window, s, st).con.Working? {
      if ConsumerIsOther(st) || st.SeedNonce? {
        OtherPhase(topic, window, s, st);
      } else if st.Fetch? || st.Flush? {
        FreshPhase(topic, window, s, st);
      } else if st.FilterDone? || st.SendDone? || st.Refuse? {
        TurnPhase(topic, window, s, st);
      } else if st.Broadcast? {
        BroadcastPhase(topic, window, s, st);
      } else if st.RecordFailure? || st.RecordSent? {
        SendPhase(topic, window, s, st);
      } else {
        StaysWorking(topic, window, s, st);
        FilterPhase(topic, window, s, st);
      }
    }
  }

  lemma StaysWorking(topic: Topic, window: nat, s: State, st: Step)
    requires Enabled(topic, window, s, st) && Apply(topic, window, s, st).con.Working?
    ensures !st.FilterError? && !st.SendTransient? && !st.Offer? && !st.PublishBad? && !st.Restart?
  {
  }

  lemma FreshPhase(topic: Topic, window: nat, s: State, st: Step)
    requires Enabled(topic, window, s, st) && (st.Fetch? || st.Flush?)
    ensures PhaseInv(Apply(topic, window, s, st))
  {
  }

  lemma OtherPhase(topic: Topic, window: nat, s: State, st: Step)
    requires PhaseInv(s) && PipeInv(s) && RowsInv(s) && Enabled(topic, window, s, st) && (ConsumerIsOther(st) || st.SeedNonce?)
    requires s.con.Working?
    ensures PhaseInv(Apply(topic, window, s, st))
  {
    var s' := Apply(topic, window, s, st);
    StepAdvances(topic, window, s, st);
    BroadcastsStay(topic, window, s, st);
    ConsumerMoves(topic, window, s, st);
    if !st.SeedNonce? {
      OthersKeepNew(topic, window, s, st);
    }
    RowsKept(s, s');
  }

  lemma BroadcastPhase(topic: Topic, window: nat, s: State, st: Step)
    requires PhaseInv(s) && PipeInv(s) && RowsInv(s) && Enabled(topic, window, s, st) && st.Broadcast?
    requires Apply(topic, window, s, st).con.Working?
    ensures PhaseInv(Apply(topic, window, s, st))
  {
  }

  lemma TurnPhase(topic: Topic, window: nat, s: State, st: Step)
    requires PhaseInv(s) && MemInv(topic, s) && Enabled(topic, window, s, st)
    requires st.FilterDone? || st.SendDone? || st.Refuse?
    ensures PhaseInv(Apply(topic, window, s, st))
  {
    var s' := Apply(topic, window, s, st);
    assert s'.rows == s.rows && s'.chain == s.chain;
    if s'.con.Working? && s'.con.phase.Filtering? {
      assert forall q :: s.con.a <= q < s.con.b ==> Closed(s.rows, s.con.win[q].id);
    }
  }

  lemma SeenIsPassed(s: State)
    requires AtMessage(s) && SeenBefore(s)
    ensures exists q :: s.con.a <= q < s.con.phase.k && s.con.win[q].id == Current(s).id
  {
  }

  // Passing win[k] over: it is closed, or something earlier already stands for it.
  lemma FilterPhase(topic: Topic, window: nat, s: State, st: Step)
    requires MemInv(topic, s) && PhaseInv(s) && PipeInv(s) && RowsInv(s) && Enabled(topic, window, s, st)
    requires st.FilterSkip? || st.FilterInsert? || st.FilterResend? || st.FilterReconcile?
    requires Apply(topic, window, s, st).con.Working?
    ensures PhaseInv(Apply(topic, window, s, st))
  {
    var s' := Apply(topic, window, s, st);
    StepAdvances(topic, window, s, st);
    BroadcastsStay(topic, window, s, st);
    InflightsKept(s, s');
    WindowAscends(topic, s);
    if st.FilterInsert? || st.FilterResend? {
      ResendIsNew(topic, window, s, st);
      Appended(s, s');
    } else {
      PassOver(topic, window, s, st);
      Skipped(s, s');
    }
  }

  lemma WindowAscends(topic: Topic, s: State)
    requires MemInv(topic, s) && s.con.Working?
    ensures Ascending(s.con.win)
  {
    assert Mem(s) == s.con.win;
  }

  lemma PassOver(topic: Topic, window: nat, s: State, st: Step)
    requires PipeInv(s) && RowsInv(s) && Enabled(topic, window, s, st) && (st.FilterSkip? || st.FilterReconcile?)
    requires Apply(topic, window, s, st).con.Working?
    ensures var s' := Apply(topic, window, s, st);
            && KeepsNew(s.rows, s'.rows)
            && s'.con == s.con.(phase := s.con.phase.(k := s.con.phase.k + 1))
            && (SeenBefore(s) || Closed(s.rows, Current(s).id))
  {
  }

  lemma ResendIsNew(topic: Topic, window: nat, s: State, st: Step)
    requires RowsInv(s) && Enabled(topic, window, s, st) && (st.FilterInsert? || st.FilterResend?)
    requires Apply(topic, window, s, st).con.Working?
    ensures var s' := Apply(topic, window, s, st);
            && KeepsNew(s.rows, s'.rows)
            && Current(s).id in s'.rows && s'.rows[Current(s).id] == NEW_ROW
            && s'.con == s.con.(phase := Filtering(s.con.phase.k + 1, s.con.phase.pending + [Current(s)]))
  {
  }

  lemma InflightsKept(s: State, s': State)
    requires s.con.Working? && PhaseInv(s)
    requires Advances(s.rows, s'.rows) && Extends(s.chain.sent, s'.chain.sent)
    ensures forall f :: f in s.con.inflight ==> InflightOk(s'.rows, s'.chain.sent, f)
  {
  }

  lemma Appended(s: State, s': State)
    requires AtMessage(s) && PhaseInv(s) && !SeenBefore(s) && Ascending(s.con.win)
    requires s'.con == s.con.(phase := Filtering(s.con.phase.k + 1, s.con.phase.pending + [Current(s)]))
    requires Advances(s.rows, s'.rows) && KeepsNew(s.rows, s'.rows)
    requires Current(s).id in s'.rows && s'.rows[Current(s).id] == NEW_ROW
    requires forall f :: f in s.con.inflight ==> InflightOk(s'.rows, s'.chain.sent, f)
    ensures PhaseInv(s')
  {
    AppendedShape(s, s');
    AppendedRows(s, s');
  }

  lemma AppendedShape(s: State, s': State)
    requires AtMessage(s) && PhaseInv(s) && !SeenBefore(s) && Ascending(s.con.win)
    requires s'.con == s.con.(phase := Filtering(s.con.phase.k + 1, s.con.phase.pending + [Current(s)]))
    ensures PhaseShape(s')
  {
    PendSnoc(s.con.win, s.con.a, s.con.phase.k, s.con.phase.pending);
  }

  // What is to be sent, one message later in the window.
  lemma PendSnoc(win: seq<Msg>, a: nat, k: nat, pend: seq<Msg>)
    requires a <= k < |win| && Ascending(win) && Ascending(pend) && win[k].id !in Ids(win[a..k])
    requires forall p :: p in pend ==> p in win[a..k]
    requires forall x, y :: 0 <= x < y < |pend| ==> pend[x].id != pend[y].id
    ensures var pend' := pend + [win[k]];
            && (forall p :: p in pend' ==> p in win[a..k + 1])
            && Ascending(pend')
            && (forall x, y :: 0 <= x < y < |pend'| ==> pend'[x].id != pend'[y].id)
  {
    var passed, m, pend' := win[a..k], win[k], pend + [win[k]];
    assert win[a..k + 1] == passed + [m];
    forall x | 0 <= x < |pend|
      ensures pend'[x] == pend[x] && pend[x].off < m.off && pend[x].id != m.id
    {
      assert pend[x] in pend;
      var y :| 0 <= y < |passed| && passed[y] == pend[x];
      assert win[a + y] == pend[x] && pend[x].id in Ids(passed);
    }
  }

  lemma AppendedRows(s: State, s': State)
    requires AtMessage(s) && PhaseInv(s) && !SeenBefore(s)
    requires s'.con == s.con.(phase := Filtering(s.con.phase.k + 1, s.con.phase.pending + [Current(s)]))
    requires Advances(s.rows, s'.rows) && KeepsNew(s.rows, s'.rows)
    requires Current(s).id in s'.rows && s'.rows[Current(s).id] == NEW_ROW
    requires forall f :: f in s.con.inflight ==> InflightOk(s'.rows, s'.chain.sent, f)
    requires PhaseShape(s')
    ensures PhaseRows(s')
  {
    var c, k, m, pend, pend' := s.con, s.con.phase.k, Current(s), s.con.phase.pending, s'.con.phase.pending;
    forall q | c.a <= q < k + 1
      ensures Closed(s'.rows, c.win[q].id) || Awaits(pend', 0, c.win[q])
    {
      if q == k {
        assert pend'[|pend|] == m;
      } else if !Closed(s.rows, c.win[q].id) {
        var j :| 0 <= j < |pend| && pend[j].id == c.win[q].id && pend[j].off <= c.win[q].off;
        assert pend'[j] == pend[j];
      }
    }
    forall j | 0 <= j < |pend'|
      ensures pend'[j].id in s'.rows && s'.rows[pend'[j].id] == NEW_ROW
    {
      if j < |pend| {
        assert pend'[j] == pend[j];
      }
    }
  }

  lemma Skipped(s: State, s': State)
    requires AtMessage(s) && PhaseInv(s) && Ascending(s.con.win)
    requires s'.con == s.con.(phase := s.con.phase.(k := s.con.phase.k + 1))
    requires Advances(s.rows, s'.rows) && KeepsNew(s.rows, s'.rows)
    requires SeenBefore(s) || Closed(s.rows, Current(s).id)
    requires forall f :: f in s.con.inflight ==> InflightOk(s'.rows, s'.chain.sent, f)
    ensures PhaseInv(s')
  {
    var c, k, m, pend := s.con, s.con.phase.k, Current(s), s.con.phase.pending;
    assert c.win[c.a..k + 1] == c.win[c.a..k] + [m];
    if !Closed(s.rows, m.id) {
      SeenIsAwaited(s);
    }
  }

  lemma SeenIsAwaited(s: State)
    requires AtMessage(s) && PhaseInv(s) && Ascending(s.con.win) && SeenBefore(s) && !Closed(s.rows, Current(s).id)
    ensures Awaits(s.con.phase.pending, 0, Current(s))
  {
    SeenIsPassed(s);
    var q :| s.con.a <= q < s.con.phase.k && s.con.win[q].id == Current(s).id;
    assert Awaits(s.con.phase.pending, 0, s.con.win[q]);
  }

  // The send loop moves past a chunk only when its rows are closed.
  lemma SendPhase(topic: Topic, window: nat, s: State, st: Step)
    requires PhaseInv(s) && PipeInv(s) && RowsInv(s) && Enabled(topic, window, s, st)
    requires st.RecordFailure? || st.RecordSent?
    requires Apply(topic, window, s, st).con.Working?
    ensures PhaseInv(Apply(topic, window, s, st))
  {
    var s' := Apply(topic, window, s, st);
    StepAdvances(topic, window, s, st);
    InflightsKept(s, s');
    ChunkRecorded(topic, window, s, st);
    ChunkPassed(s, s');
  }

  lemma ChunkRecorded(topic: Topic, window: nat, s: State, st: Step)
    requires PhaseInv(s) && Enabled(topic, window, s, st)
    requires (st.RecordFailure? || st.RecordSent?) && st.applied
    ensures var s' := Apply(topic, window, s, st);
            && (forall id :: id in Ids(Chunk(s)) ==> Closed(s'.rows, id))
            && (forall id :: id in s.rows && id !in Ids(Chunk(s)) ==> s'.rows[id] == s.rows[id])
            && (st.RecordSent? ==> InflightOk(s'.rows, s'.chain.sent, Inflight(s.con.phase.tx, Chunk(s))))
  {
    ChunkIsNew(s);
  }

  lemma ChunkPassed(s: State, s': State)
    requires ChunkInRange(s) && PhaseInv(s)
    requires s'.con.Working? && s'.con.win == s.con.win && s'.con.a == s.con.a && s'.con.b == s.con.b
    requires s'.con.phase == Sending(s.con.phase.pending, s.con.phase.i + s.con.phase.n)
    requires Advances(s.rows, s'.rows)
    requires forall id :: id in Ids(Chunk(s)) ==> Closed(s'.rows, id)
    requires forall id :: id in s.rows && id !in Ids(Chunk(s)) ==> s'.rows[id] == s.rows[id]
    requires forall f :: f in s'.con.inflight ==> InflightOk(s'.rows, s'.chain.sent, f)
    ensures PhaseInv(s')
  {
  }
}
