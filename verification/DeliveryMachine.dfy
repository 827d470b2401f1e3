// The ledger adapter as a state machine: the consumer loop, the confirmation pipeline, the
// background reconciler, the onchain_events table, the signer's nonce and the chain, with failures
// of every call and process restarts. One step is one effect seen from outside.
// (ledger-adapter/internal/consumer/{consumer,flusher,flusher_actions,flusher_confirm,pipeline,reconcile}.go,
// ledger-adapter/internal/chain/client.go)
module DeliveryMachine {
  import opened Basics
  import opened EventStore
  import opened ActionChunks
  import opened ActionOutcomes

  // One Kafka partition: what Parse makes of each offset.
  datatype Entry = Good(id: Id, kind: Kind) | Bad

  type Topic = seq<Entry>

  function MsgAt(topic: Topic, o: nat): Msg
    requires o < |topic| && topic[o].Good?
  {
    Msg(topic[o].id, topic[o].kind, o)
  }

  // A broadcast transaction, named by its position in the list of all broadcasts. acked: the
  // node's acceptance reached the client (SendTransaction returned no error).
  datatype Sent = Sent(msgs: seq<Msg>, nonce: nat, acked: bool)

  // pending: PendingNonceAt; account: the next nonce to be mined; mined: in block order.
  datatype Chain = Chain(sent: seq<Sent>, receipts: map<TxHash, Receipt>, mined: seq<TxHash>,
                         state: map<Id, Outcome>, pending: nat, account: nat)

  datatype Inflight = Inflight(tx: TxHash, msgs: seq<Msg>)

  // The unit of offset commit: the offsets of one drained window and the transactions it became.
  datatype Batch = Batch(txs: seq<Inflight>, offs: seq<nat>)

  // The window is worked off segment by segment: win[a..b] is the current one. Within a segment:
  // filtering win[k], then the send loop at pending[i], about to record or to fail n actions.
  datatype Phase =
    | Filtering(k: nat, pending: seq<Msg>)
    | Sending(pending: seq<Msg>, i: nat)
    | Marking(pending: seq<Msg>, i: nat, n: nat, tx: TxHash)
    | Failing(pending: seq<Msg>, i: nat, n: nat)

  // bad: the unparsable message whose handling waits behind the drain (onParseFailure).
  datatype Consumer =
    | Idle
    | Working(win: seq<Msg>, a: nat, b: nat, inflight: seq<Inflight>, bad: Option<nat>, phase: Phase)
    | Offering(batch: Batch, bad: Option<nat>)
    | Publishing(off: nat)

  // The batch the collector confirms; settled[j] are the actions of transaction j written so far.
  datatype Confirming = Confirming(batch: Batch, settled: seq<set<Id>>, failed: bool)

  // submitted and commits: this process's submissions and how many of them were committed.
  datatype Pipe = Pipe(queue: seq<Batch>, current: Option<Confirming>, dead: bool, submitted: seq<Batch>, commits: nat)

  // lost: broadcasts whose hash never reached the table; dlq: offsets of the messages in the DLQ.
  datatype History = History(lost: set<TxHash>, dlq: set<nat>)

  datatype State = State(committed: nat, next: nat, batcher: seq<Msg>, con: Consumer, pipe: Pipe,
                         rows: Rows, chain: Chain, nonce: Option<nat>, sweep: set<(Id, TxHash)>, hist: History)

  const FRESH_PIPE := Pipe([], None, false, [], 0)

  function Initial(pending: nat): State {
    State(0, 0, [], Idle, FRESH_PIPE, map[], Chain([], map[], [], map[], pending, pending), None, {},
          History({}, {}))
  }

  // ------------------------------------------------------- settling one transaction

  // A terminal write for some actions of a mined transaction; None: the transaction reverted.
  datatype Write = Write(tx: TxHash, ids: set<Id>, outcome: Option<Outcome>)

  function OutcomeAt(chain: Chain, tx: TxHash, id: Id): Option<Outcome> {
    if tx in chain.receipts && chain.receipts[tx].Mined? then Resolve(chain.receipts[tx].logs, chain.state, id) else None
  }

  predicate Justified(chain: Chain, w: Write) {
    && w.tx in chain.receipts
    && match w.outcome
       case None => chain.receipts[w.tx].Reverted?
       case Some(o) => forall id :: id in w.ids ==> OutcomeAt(chain, w.tx, id) == Some(o)
  }

  function StatementOf(w: Write): Statement {
    match w.outcome
    case None => MarkFailed(w.ids, Some(w.tx))
    case Some(Applied) => MarkCommitted(w.ids)
    case Some(Rejected(r)) => MarkRejected(w.ids, Some(w.tx), r)
  }

  // ------------------------------------------------------------------ the steps

  // ok: the call returned without error; applied: its effect took place (a failed call may have
  // had its effect; ok implies applied).
  datatype Step =
    | Fetch
    | Flush
    | FilterSkip
    | FilterInsert(ok: bool, applied: bool)
    | FilterResend
    | FilterReconcile(write: Option<Write>, ok: bool)
    | FilterError
    | FilterDone(configured: bool)
    | Refuse(n: nat)
    | RecordFailure(ok: bool, applied: bool, published: bool)
    | SeedNonce
    | Broadcast(n: nat, acked: bool)
    | SendTransient(nonce: Option<nat>)
    | RecordSent(ok: bool, applied: bool)
    | SendDone
    | Offer
    | PublishBad(ok: bool)
    | Take
    | ConfirmWrite(j: nat, w: Write, ok: bool, applied: bool, published: bool)
    | ConfirmError
    | Commit(ok: bool, applied: bool)
    | StopCollector
    | SweepList(pairs: set<(Id, TxHash)>)
    | SweepWrite(w: Write)
    | Mine(tx: TxHash, reverted: bool, judge: Id -> Verdict)
    | OtherSend
    | OtherMined
    | Restart

  function AfterDrain(bad: Option<nat>): Consumer {
    match bad
    case None => Idle
    case Some(o) => Publishing(o)
  }

  function Offsets(ms: seq<Msg>): seq<nat> {
    seq(|ms|, k requires 0 <= k < |ms| => ms[k].off)
  }

  // A transient failure puts the whole window back in front of the batcher.
  function Unshifted(s: State): State
    requires s.con.Working?
  {
    s.(batcher := s.con.win + s.batcher, con := AfterDrain(s.con.bad))
  }

  function Drained(s: State, bad: Option<nat>): State
    requires s.batcher != []
  {
    s.(batcher := [], con := Working(s.batcher, 0, RunEnd(s.batcher, 0), [], bad, Filtering(0, [])))
  }

  function NextSegment(s: State): State
    requires s.con.Working? && s.con.b <= |s.con.win|
  {
    var c := s.con;
    if c.b < |c.win| then s.(con := c.(a := c.b, b := RunEnd(c.win, c.b), phase := Filtering(c.b, [])))
    else s.(con := Offering(Batch(c.inflight, Offsets(c.win)), c.bad))
  }

  // CommitMessages is a per-partition high-water mark.
  function HighWater(offs: seq<nat>, mark: nat): (r: nat)
    ensures r >= mark && forall o :: o in offs ==> o < r
    ensures r > mark ==> exists o :: o in offs && r == o + 1
  {
    if offs == [] then mark
    else
      var r := HighWater(offs[1..], mark);
      assert forall o :: o in offs <==> o == offs[0] || o in offs[1..];
      if offs[0] >= r then assert offs[0] in offs; offs[0] + 1 else r
  }

  predicate InSegment(s: State) {
    s.con.Working? && s.con.b <= |s.con.win|
  }

  predicate AtMessage(s: State) {
    InSegment(s) && s.con.phase.Filtering? && s.con.a <= s.con.phase.k < s.con.b
  }

  function Current(s: State): Msg
    requires AtMessage(s)
  {
    s.con.win[s.con.phase.k]
  }

  predicate SeenBefore(s: State)
    requires AtMessage(s)
  {
    Current(s).id in Ids(s.con.win[s.con.a..s.con.phase.k])
  }

  predicate AtSend(s: State) {
    InSegment(s) && s.con.phase.Sending? && s.con.phase.i < |s.con.phase.pending|
  }

  predicate ChunkInRange(s: State) {
    InSegment(s) && (s.con.phase.Marking? || s.con.phase.Failing?) && s.con.phase.n > 0 && s.con.phase.i + s.con.phase.n <= |s.con.phase.pending|
  }

  function Chunk(s: State): seq<Msg>
    requires ChunkInRange(s)
  {
    s.con.phase.pending[s.con.phase.i..s.con.phase.i + s.con.phase.n]
  }

  predicate ConfirmsTx(s: State, j: nat) {
    s.pipe.current.Some? && j < |s.pipe.current.value.settled| == |s.pipe.current.value.batch.txs|
  }

  predicate AllSettled(c: Confirming) {
    && |c.settled| == |c.batch.txs|
    && forall j | 0 <= j < |c.settled| :: c.settled[j] == Ids(c.batch.txs[j].msgs)
  }

  predicate Enabled(topic: Topic, window: nat, s: State, st: Step) {
    match st
    case Fetch => s.con.Idle? && s.next < |topic|
    case Flush => s.con.Idle? && s.batcher != []
    case FilterSkip =>
      AtMessage(s) && (SeenBefore(s) ||
                       (Current(s).id in s.rows && (s.rows[Current(s).id].status == COMMITTED ||
                                                    (s.rows[Current(s).id].status == FAILED && s.rows[Current(s).id].tx == None))))
    case FilterInsert(ok, applied) => AtMessage(s) && !SeenBefore(s) && Current(s).id !in s.rows && (ok ==> applied)
    case FilterResend =>
      && AtMessage(s) && !SeenBefore(s) && Current(s).id in s.rows
      && s.rows[Current(s).id].tx == None && s.rows[Current(s).id].status !in {COMMITTED, FAILED}
    case FilterReconcile(write, ok) =>
      && AtMessage(s) && !SeenBefore(s) && Current(s).id in s.rows
      && s.rows[Current(s).id].tx.Some?
      && (write.Some? ==> Justified(s.chain, write.value) && write.value.ids == {Current(s).id}
                          && write.value.tx == s.rows[Current(s).id].tx.value)
    case FilterError => InSegment(s) && s.con.phase.Filtering?
    case FilterDone(_) => InSegment(s) && s.con.phase.Filtering? && s.con.phase.k == s.con.b
    case Refuse(n) => AtSend(s) && n > 0 && s.con.phase.i + n <= |s.con.phase.pending|
    // nothing is marked before the DLQ has it
    case RecordFailure(ok, applied, published) => ChunkInRange(s) && s.con.phase.Failing? && (ok ==> applied) && (applied ==> published)
    case SeedNonce => AtSend(s) && s.nonce == None
    // the node refuses a nonce it has already mined; an accepted one enters the mempool
    case Broadcast(n, _) =>
      && AtSend(s) && n > 0 && s.con.phase.i + n <= |s.con.phase.pending|
      && s.nonce.Some? && s.nonce.value >= s.chain.account
    case SendTransient(nonce) =>
      && AtSend(s)
      && (nonce == s.nonce ||
          (s.nonce.Some? && s.nonce.value < s.chain.account && nonce in {None, Some(s.chain.pending)}))
    case RecordSent(ok, applied) => ChunkInRange(s) && s.con.phase.Marking? && (ok ==> applied)
    case SendDone => InSegment(s) && s.con.phase.Sending? && s.con.phase.i == |s.con.phase.pending|
    // the channel holds window - 1 batches; an idle collector takes one directly
    case Offer => s.con.Offering? && (|s.pipe.queue| + 1 < window || (s.pipe.queue == [] && s.pipe.current == None))
    case PublishBad(_) => s.con.Publishing?
    case Take => s.pipe.current == None && !s.pipe.dead && s.pipe.queue != []
    // a revert is recorded like any failure: DLQ first, then MarkFailed
    case ConfirmWrite(j, w, ok, applied, published) =>
      && ConfirmsTx(s, j) && (ok ==> applied)
      && (w.outcome == None && applied ==> published) && (published ==> w.outcome == None)
      && w.tx == s.pipe.current.value.batch.txs[j].tx && w.ids <= Ids(s.pipe.current.value.batch.txs[j].msgs)
      && Justified(s.chain, w)
    case ConfirmError => s.pipe.current.Some?
    case Commit(ok, applied) =>
      && s.pipe.current.Some? && !s.pipe.current.value.failed && (ok ==> applied)
      && AllSettled(s.pipe.current.value)
    case StopCollector => s.pipe.current.Some? && s.pipe.current.value.failed
    case SweepList(pairs) => forall p :: p in pairs ==> Reconcilable(s.rows, p.0, p.1)
    case SweepWrite(w) => (forall id :: id in w.ids ==> (id, w.tx) in s.sweep) && Justified(s.chain, w)
    case Mine(tx, _, _) => tx < |s.chain.sent| && tx !in s.chain.receipts && s.chain.sent[tx].nonce == s.chain.account
    case OtherSend => true
    case OtherMined => s.chain.account < s.chain.pending
    case Restart => true
  }

  function WithPhase(s: State, ph: Phase): State
    requires s.con.Working?
  {
    s.(con := s.con.(phase := ph))
  }

  function Published(s: State, ms: seq<Msg>): State {
    s.(hist := s.hist.(dlq := s.hist.dlq + set m | m in ms :: m.off))
  }

  // A direct hand-over is an enqueue followed by the collector's Take.
  function Enqueued(p: Pipe, b: Batch): Pipe {
    p.(queue := p.queue + [b], submitted := p.submitted + [b])
  }

  function StartConfirming(p: Pipe): Pipe
    requires p.queue != []
  {
    p.(queue := p.queue[1..], current := Some(Confirming(p.queue[0], seq(|p.queue[0].txs|, _ => {}), false)))
  }

  function MinedChain(c: Chain, tx: TxHash, reverted: bool, judge: Id -> Verdict): Chain
    requires tx < |c.sent|
  {
    var ids := Ids(c.sent[tx].msgs);
    if reverted then c.(receipts := c.receipts[tx := Reverted], mined := c.mined + [tx], account := c.account + 1)
    else c.(receipts := c.receipts[tx := Mined(LogsOf(c.state, ids, judge))], mined := c.mined + [tx],
            state := StateAfter(c.state, ids, judge), account := c.account + 1)
  }

  function BroadcastChain(c: Chain, chunk: seq<Msg>, nonce: nat, acked: bool): Chain {
    c.(sent := c.sent + [Sent(chunk, nonce, acked)], pending := if nonce >= c.pending then nonce + 1 else c.pending)
  }

  function Apply(topic: Topic, window: nat, s: State, st: Step): State
    requires Enabled(topic, window, s, st)
  {
    match st
    case Fetch =>
      var o := s.next;
      if topic[o].Good? then s.(next := o + 1, batcher := s.batcher + [MsgAt(topic, o)])
      else if s.batcher == [] then s.(next := o + 1, con := Publishing(o))
      else Drained(s.(next := o + 1), Some(o))
    case Flush => Drained(s, None)
    case FilterSkip => WithPhase(s, s.con.phase.(k := s.con.phase.k + 1))
    case FilterInsert(ok, applied) =>
      var m := Current(s);
      var s1 := if applied then s.(rows := Execute(s.rows, InsertPending(m.id))) else s;
      if ok then WithPhase(s1, Filtering(s.con.phase.k + 1, s.con.phase.pending + [m])) else Unshifted(s1)
    case FilterResend =>
      WithPhase(s, Filtering(s.con.phase.k + 1, s.con.phase.pending + [Current(s)]))
    case FilterReconcile(write, ok) =>
      var s1 := if write.Some? then s.(rows := Execute(s.rows, StatementOf(write.value))) else s;
      if ok then WithPhase(s1, s.con.phase.(k := s.con.phase.k + 1)) else Unshifted(s1)
    case FilterError => Unshifted(s)
    case FilterDone(configured) =>
      var p := s.con.phase.pending;
      if p == [] then NextSegment(s)
      else if configured then WithPhase(s, Sending(p, 0))
      else WithPhase(s, Failing(p, 0, |p|))
    case Refuse(n) => WithPhase(s, Failing(s.con.phase.pending, s.con.phase.i, n))
    case RecordFailure(ok, applied, published) =>
      var ph := s.con.phase;
      var s0 := if published then Published(s, Chunk(s)) else s;
      var s1 := if applied then s0.(rows := Execute(s.rows, MarkFailed(Ids(Chunk(s)), None))) else s0;
      if ok then WithPhase(s1, Sending(ph.pending, ph.i + ph.n)) else Unshifted(s1)
    case SeedNonce => s.(nonce := Some(s.chain.pending))
    case Broadcast(n, acked) =>
      var ph, tx := s.con.phase, |s.chain.sent|;
      var s1 := s.(chain := BroadcastChain(s.chain, ph.pending[ph.i..ph.i + n], s.nonce.value, acked));
      if acked then WithPhase(s1.(nonce := Some(s.nonce.value + 1)), Marking(ph.pending, ph.i, n, tx))
      else Unshifted(s1.(hist := s.hist.(lost := s.hist.lost + {tx})))
    case SendTransient(nonce) => Unshifted(s.(nonce := nonce))
    case RecordSent(ok, applied) =>
      var ph := s.con.phase;
      var s1 := if applied then s.(rows := Execute(s.rows, MarkSent(Ids(Chunk(s)), ph.tx)))
                else s.(hist := s.hist.(lost := s.hist.lost + {ph.tx}));
      if ok then
        s1.(con := s.con.(inflight := s.con.inflight + [Inflight(ph.tx, Chunk(s))], phase := Sending(ph.pending, ph.i + ph.n)))
      else Unshifted(s1)
    case SendDone => NextSegment(s)
    case Offer =>
      s.(pipe := Enqueued(s.pipe, s.con.batch), con := AfterDrain(s.con.bad))
    case PublishBad(ok) =>
      if ok then
        s.(con := Offering(Batch([], [s.con.off]), None), hist := s.hist.(dlq := s.hist.dlq + {s.con.off}))
      else s.(con := Idle)
    case Take => s.(pipe := StartConfirming(s.pipe))
    case ConfirmWrite(j, w, ok, applied, published) =>
      var cur := s.pipe.current.value;
      var s0 := if published then Published(s, cur.batch.txs[j].msgs) else s;
      var s1 := if applied then s0.(rows := Execute(s.rows, StatementOf(w))) else s0;
      if ok then s1.(pipe := s.pipe.(current := Some(cur.(settled := cur.settled[j := cur.settled[j] + w.ids]))))
      else s1.(pipe := s.pipe.(current := Some(cur.(failed := true))))
    case ConfirmError => s.(pipe := s.pipe.(current := Some(s.pipe.current.value.(failed := true))))
    case Commit(ok, applied) =>
      var offs := s.pipe.current.value.batch.offs;
      var s1 := if applied then s.(committed := HighWater(offs, s.committed)) else s;
      if ok then s1.(pipe := s.pipe.(current := None, commits := s.pipe.commits + 1))
      else s1.(pipe := s.pipe.(current := None, dead := true))
    case StopCollector => s.(pipe := s.pipe.(current := None, dead := true))
    case SweepList(pairs) => s.(sweep := pairs)
    case SweepWrite(w) => s.(rows := Execute(s.rows, StatementOf(w)))
    case Mine(tx, reverted, judge) => s.(chain := MinedChain(s.chain, tx, reverted, judge))
    case OtherSend => s.(chain := s.chain.(pending := s.chain.pending + 1))
    case OtherMined => s.(chain := s.chain.(account := s.chain.account + 1))
    case Restart =>
      s.(next := s.committed, batcher := [], con := Idle, pipe := FRESH_PIPE, nonce := None, sweep := {},
         hist := if s.con.Working? && s.con.phase.Marking? then s.hist.(lost := s.hist.lost + {s.con.phase.tx}) else s.hist)
  }

  // A run: states linked by steps.
  ghost predicate IsRun(topic: Topic, window: nat, states: seq<State>, steps: seq<Step>) {
    && |states| == |steps| + 1
    && (exists p :: states[0] == Initial(p))
    && forall k :: 0 <= k < |steps| ==> Enabled(topic, window, states[k], steps[k]) && states[k + 1] == Apply(topic, window, states[k], steps[k])
  }

  lemma RunSnoc(topic: Topic, window: nat, states: seq<State>, steps: seq<Step>, st: Step, next: State)
    requires IsRun(topic, window, states, steps) && Enabled(topic, window, states[|steps|], st)
    requires next == Apply(topic, window, states[|steps|], st)
    ensures IsRun(topic, window, states + [next], steps + [st])
  {
  }
}
