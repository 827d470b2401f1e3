// What every state of every run of the delivery machine satisfies.
module DeliveryInvariants {
  import opened Basics
  import opened EventStore
  import opened ActionChunks
  import opened ActionOutcomes
  import opened DeliveryMachine

  // -------------------------------------------------- messages held in memory

  predicate MsgOk(topic: Topic, m: Msg) {
    m.off < |topic| && topic[m.off] == Good(m.id, m.kind)
  }

  ghost predicate Ascending(ms: seq<Msg>) {
    forall i, j :: 0 <= i < j < |ms| ==> ms[i].off < ms[j].off
  }

  function Win(s: State): seq<Msg> {
    if s.con.Working? then s.con.win else []
  }

  // Fetched and not yet handed to the pipeline, in arrival order.
  function Mem(s: State): seq<Msg> {
    Win(s) + s.batcher
  }

  // The unparsable message comes after everything in memory.
  ghost predicate BadWaits(topic: Topic, s: State, bad: Option<nat>) {
    bad.Some? ==> bad.value < s.next && bad.value < |topic| && topic[bad.value].Bad? && forall m :: m in Mem(s) ==> m.off < bad.value
  }

  ghost predicate IsBatch(s: State, b: Batch) {
    || (s.con.Offering? && b == s.con.batch)
    || (s.pipe.current.Some? && b == s.pipe.current.value.batch)
    || b in s.pipe.queue
  }

  ghost predicate MemInv(topic: Topic, s: State) {
    && s.committed <= s.next <= |topic|
    && (forall m :: m in Mem(s) ==> MsgOk(topic, m) && m.off < s.next)
    && Ascending(Mem(s))
    && (s.con.Working? ==> s.batcher == [] && s.con.a < s.con.b <= |s.con.win| && s.con.b == RunEnd(s.con.win, s.con.a))
    && (s.con.Working? ==> BadWaits(topic, s, s.con.bad))
    && (s.con.Offering? ==> BadWaits(topic, s, s.con.bad))
    && (s.con.Publishing? ==> BadWaits(topic, s, Some(s.con.off)))
    && (forall b, o :: IsBatch(s, b) && o in b.offs ==> o < s.next)
  }

  // ------------------------------------------------- progress in the window

  function Pend(ph: Phase): seq<Msg> {
    ph.pending
  }

  function From(ph: Phase): nat {
    if ph.Filtering? then 0 else ph.i
  }

  function Upto(s: State): nat
    requires s.con.Working?
  {
    if s.con.phase.Filtering? then s.con.phase.k else s.con.b
  }

  ghost predicate Awaits(pending: seq<Msg>, from: nat, m: Msg) {
    exists j :: from <= j < |pending| && pending[j].id == m.id && pending[j].off <= m.off
  }

  predicate InflightOk(rows: Rows, sent: seq<Sent>, f: Inflight) {
    && f.tx < |sent| && sent[f.tx].msgs == f.msgs
    && forall id | id in Ids(f.msgs) :: id in rows && rows[id].tx == Some(f.tx)
  }

  const NEW_ROW := Row(PENDING, None, None)

  ghost predicate PhaseShape(s: State)
    requires s.con.Working?
  {
    var c, ph := s.con, s.con.phase;
    && c.a <= Upto(s) <= c.b <= |c.win|
    && From(ph) <= |Pend(ph)|
    && (ph.Marking? || ph.Failing? ==> ph.n > 0 && ph.i + ph.n <= |ph.pending|)
    && (ph.Marking? ==> ph.tx + 1 == |s.chain.sent| && s.chain.sent[ph.tx].msgs == ph.pending[ph.i..ph.i + ph.n])
    && (forall p :: p in Pend(ph) ==> p in c.win[c.a..Upto(s)])
    && Ascending(Pend(ph))
    && (forall x, y :: 0 <= x < y < |Pend(ph)| ==> Pend(ph)[x].id != Pend(ph)[y].id)
  }

  // What is still to be sent has a fresh row; what the loop has passed is closed or still to be sent.
  ghost predicate PhaseRows(s: State)
    requires s.con.Working? && PhaseShape(s)
  {
    var c, ph := s.con, s.con.phase;
    && (forall j :: From(ph) <= j < |Pend(ph)| ==> Pend(ph)[j].id in s.rows && s.rows[Pend(ph)[j].id] == NEW_ROW)
    && (forall q :: c.a <= q < Upto(s) ==> Closed(s.rows, c.win[q].id) || Awaits(Pend(ph), From(ph), c.win[q]))
    && (forall q :: 0 <= q < c.a ==> Closed(s.rows, c.win[q].id))
    && (forall f :: f in c.inflight ==> InflightOk(s.rows, s.chain.sent, f))
  }

  ghost predicate PhaseInv(s: State) {
    s.con.Working? ==> PhaseShape(s) && PhaseRows(s)
  }

  // -------------------------------------------------- table against chain

  ghost predicate RowOk(chain: Chain, id: Id, r: Row) {
    && (r.tx.Some? ==> r.tx.value < |chain.sent| && id in Ids(chain.sent[r.tx.value].msgs))
    && match r.status
       case PENDING => r.tx == None && r.reason == None
       case SENT => r.tx.Some? && r.reason == None
       case COMMITTED => r.tx.Some? && r.reason == None && OutcomeAt(chain, r.tx.value, id) == Some(Applied)
       case FAILED =>
         match r.reason
         case Some(why) => r.tx.Some? && OutcomeAt(chain, r.tx.value, id) == Some(Rejected(why))
         case None => r.tx.Some? ==> r.tx.value in chain.receipts && chain.receipts[r.tx.value].Reverted?
  }

  ghost predicate RowsInv(s: State) {
    forall id :: id in s.rows ==> RowOk(s.chain, id, s.rows[id])
  }

  // ------------------------------------------------- the pipeline and the sweep

  predicate Terminal(rows: Rows, id: Id) {
    id in rows && rows[id].status in {COMMITTED, FAILED}
  }

  ghost predicate PipeInv(s: State) {
    && (forall b, f :: IsBatch(s, b) && f in b.txs ==> InflightOk(s.rows, s.chain.sent, f))
    && (s.pipe.current.Some? ==>
          var c := s.pipe.current.value;
          && |c.settled| == |c.batch.txs|
          && (forall j :: 0 <= j < |c.settled| ==> c.settled[j] <= Ids(c.batch.txs[j].msgs))
          && (forall j, id :: 0 <= j < |c.settled| && id in c.settled[j] ==> Terminal(s.rows, id)))
    && (forall p :: p in s.sweep ==> p.0 in s.rows && s.rows[p.0].tx == Some(p.1))
  }

  // ------------------------------------------------------------- no event lost

  ghost predicate CoverInv(topic: Topic, s: State)
    requires s.next <= |topic|
  {
    && (forall o :: s.committed <= o < s.next && topic[o].Good? ==> MsgAt(topic, o) in Mem(s) || Closed(s.rows, topic[o].id))
    && (forall b, o :: IsBatch(s, b) && o in b.offs && o < s.next && topic[o].Good? ==> Closed(s.rows, topic[o].id))
  }

  // -------------------------------------------------------------- order of sending

  ghost predicate Live(topic: Topic, s: State, o: nat)
    requires o < |topic|
  {
    topic[o].Good? && (s.committed <= o || MsgAt(topic, o) in Mem(s))
  }

  // Anything older than a message already broadcast, and still reachable, is settled for sending or
  // travelled in that same transaction.
  ghost predicate OrderInv(topic: Topic, s: State) {
    && (forall t :: 0 <= t < |s.chain.sent| ==> s.chain.sent[t].msgs != [] && Ascending(s.chain.sent[t].msgs))
    && (forall t, m :: 0 <= t < |s.chain.sent| && m in s.chain.sent[t].msgs ==> MsgOk(topic, m))
    && (forall t, m, o: nat :: 0 <= t < |s.chain.sent| && m in s.chain.sent[t].msgs && o < m.off && o < |topic| && Live(topic, s, o)
          ==> Closed(s.rows, topic[o].id) || topic[o].id in Ids(s.chain.sent[t].msgs))
    && NoOvertaking(s.chain.sent)
  }

  // A later broadcast repeats an older message only if the earlier broadcast carried it too.
  ghost predicate NoOvertaking(sent: seq<Sent>) {
    forall t, u, m, m' :: 0 <= t < u < |sent| && m' in sent[t].msgs && m in sent[u].msgs && m.off < m'.off ==> m.id in Ids(sent[t].msgs)
  }

  // -------------------------------------------------------------- broadcasts per event

  predicate BeingRecorded(s: State, t: TxHash) {
    s.con.Working? && s.con.phase.Marking? && s.con.phase.tx == t
  }

  ghost predicate CountInv(s: State) {
    && (forall t, id :: 0 <= t < |s.chain.sent| && id in Ids(s.chain.sent[t].msgs) ==>
          id in s.rows && (s.rows[id].tx == Some(t) || t in s.hist.lost || BeingRecorded(s, t)))
    && (forall t, u, id :: 0 <= t < u < |s.chain.sent| && id in s.rows && s.rows[id].tx == Some(t) ==> id !in Ids(s.chain.sent[u].msgs))
  }

  // -------------------------------------------------------------------------- nonces

  ghost predicate NonceInv(s: State) {
    && s.chain.account <= s.chain.pending
    && (forall t :: 0 <= t < |s.chain.sent| ==> s.chain.sent[t].nonce < s.chain.pending)
    && (forall t, u :: 0 <= t < u < |s.chain.sent| ==>
          s.chain.sent[t].nonce <= s.chain.sent[u].nonce && (s.chain.sent[t].acked ==> s.chain.sent[t].nonce < s.chain.sent[u].nonce))
    && (s.nonce.Some? ==>
          && s.nonce.value <= s.chain.pending
          && forall t :: 0 <= t < |s.chain.sent| ==>
               s.chain.sent[t].nonce <= s.nonce.value && (s.chain.sent[t].acked ==> s.chain.sent[t].nonce < s.nonce.value))
  }

  // --------------------------------------------------------------------------- chain

  // Blocks take nonces in order, one transaction each.
  ghost predicate MinedInOrder(c: Chain) {
    && (forall t :: t in c.receipts ==> t < |c.sent| && c.sent[t].nonce < c.account)
    && (forall t :: t in c.receipts <==> t in c.mined)
    && (forall i, j :: 0 <= i < j < |c.mined| ==> c.mined[i] < c.mined[j])
  }

  // A mined transaction settles each of its actions: by its own log or by an older state.
  ghost predicate Readable(c: Chain)
    requires MinedInOrder(c)
  {
    forall t, id :: t in c.receipts && c.receipts[t].Mined? && id in Ids(c.sent[t].msgs) ==> OutcomeAt(c, t, id).Some?
  }

  ghost predicate LogsHold(c: Chain)
    requires MinedInOrder(c)
  {
    && (forall t, id :: t in c.receipts && c.receipts[t].Mined? && id in c.receipts[t].logs ==> id in Ids(c.sent[t].msgs))
    && (forall t, id :: t in c.receipts && c.receipts[t].Mined? && id in c.receipts[t].logs && c.receipts[t].logs[id].Applied? ==>
          id in c.state && c.state[id].Applied?)
  }

  // A refusal in the last broadcast of an action is final.
  ghost predicate RefusalFinal(c: Chain)
    requires MinedInOrder(c)
  {
    forall t, id :: t in c.receipts && c.receipts[t].Mined? && id in c.receipts[t].logs && c.receipts[t].logs[id].Rejected?
                    && (forall u :: t < u < |c.sent| ==> id !in Ids(c.sent[u].msgs))
      ==> id !in c.state || c.state[id].Rejected?
  }

  // Every state on chain was announced by a log of some mined transaction.
  ghost predicate StateLogged(c: Chain) {
    forall id :: id in c.state ==> exists t :: LoggedAt(c, t, id, c.state[id])
  }

  ghost predicate LoggedAt(c: Chain, t: TxHash, id: Id, o: Outcome) {
    t in c.receipts && c.receipts[t].Mined? && id in c.receipts[t].logs && c.receipts[t].logs[id] == o
  }

  ghost predicate ChainInv(c: Chain) {
    MinedInOrder(c) && Readable(c) && LogsHold(c) && RefusalFinal(c) && StateLogged(c)
  }

  // One transaction carries one kind of action: it goes to one contract.
  ghost predicate KindInv(sent: seq<Sent>) {
    forall t :: 0 <= t < |sent| ==> Homogeneous(sent[t].msgs)
  }

  // --------------------------------------------------------- unparsable messages

  predicate BadPending(s: State, o: nat) {
    match s.con
    case Idle => false
    case Working(_, _, _, _, bad, _) => bad == Some(o)
    case Offering(_, bad) => bad == Some(o)
    case Publishing(off) => off == o
  }

  // An offset waiting to be published lies ahead of all that may commit before it.
  ghost predicate BadInv(s: State) {
    forall o :: BadPending(s, o) ==> s.committed <= o && forall b, x :: IsBatch(s, b) && x in b.offs ==> x < o
  }

  // ------------------------------------------------------------------- first in, first out

  function Unsettled(p: Pipe): seq<Batch> {
    (if p.current.Some? then [p.current.value.batch] else []) + p.queue
  }

  // NewPipeline raises a window below one to one.
  function Cap(window: nat): nat {
    if window == 0 then 1 else window
  }

  ghost predicate FifoInv(window: nat, s: State) {
    var p := s.pipe;
    && p.commits <= |p.submitted|
    && (p.dead ==> p.current == None)
    && (!p.dead ==> p.submitted == p.submitted[..p.commits] + Unsettled(p))
    && |Unsettled(p)| <= Cap(window)
    && (p.current == None || |p.queue| < Cap(window))
  }

  ghost predicate Inv(topic: Topic, window: nat, s: State) {
    && MemInv(topic, s)
    && PhaseInv(s)
    && RowsInv(s)
    && PipeInv(s)
    && CoverInv(topic, s)
    && OrderInv(topic, s)
    && CountInv(s)
    && NonceInv(s)
    && ChainInv(s.chain)
    && KindInv(s.chain.sent)
    && BadInv(s)
    && FifoInv(window, s)
  }
}
