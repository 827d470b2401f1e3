// The sending side of the adapter as it runs: filtering a segment, packing and broadcasting it, and
// sending a window segment by segment. Each method's effects are steps of the delivery machine.
// (ledger-adapter/internal/consumer/{flusher,flusher_actions}.go)
module AdapterFlusher {
  import opened Basics
  import opened EventStore
  import opened ActionChunks
  import opened ActionOutcomes
  import opened DeliveryMachine
  import opened DeliveryInvariants
  import opened DeliverySteps
  import opened DeliveryChainSteps
  import opened AdapterWorld
  import C = ChainClient

  // How far the work on a segment is.
  ghost predicate AtPhase(s: State, win: seq<Msg>, a: nat, b: nat, inflight: seq<Inflight>, bad: Option<nat>, phase: Phase) {
    s.con == Working(win, a, b, inflight, bad, phase) && a < b <= |win|
  }

  class Flusher {
    const w: World
    const limit: nat
    const packer: Kind -> Packer
    const configured: Kind -> bool
    const floor: seq<Msg> -> nat

    constructor (world: World, maxCalldata: nat, packers: Kind -> Packer, contracts: Kind -> bool, gasFloor: seq<Msg> -> nat)
      ensures w == world && limit == maxCalldata && packer == packers && configured == contracts && floor == gasFloor
    {
      w, limit, packer, configured, floor := world, maxCalldata, packers, contracts, gasFloor;
    }

    // -------------------------------------------------------------------- calls to the table

    method Exists(id: Id) returns (found: bool, ok: bool)
      requires w.Valid()
      modifies w
      ensures w.Valid() && Undisturbed(old(w.s), w.s)
      ensures ok ==> found == (id in w.s.rows)
      ensures w.record == Asked(old(w.record), ok)
    {
      w.Others();
      ok := w.Ask();
      found := id in w.s.rows;
    }

    method InsertPending(m: Msg) returns (ok: bool)
      requires w.Valid() && AtMessage(w.s) && !SeenBefore(w.s) && Current(w.s) == m && m.id !in w.s.rows
      modifies w
      ensures w.Valid()
      ensures ok ==> Progressed(old(w.s), w.s, Filtering(old(w.s).con.phase.k + 1, old(w.s).con.phase.pending + [m]))
      ensures !ok ==> GivenBack(old(w.s), w.s)
      ensures w.record == Asked(old(w.record), ok)
    {
      w.Others();
      ok := w.Ask();
      var applied := w.Effect(ok);
      w.Do(FilterInsert(ok, applied));
    }

    method StatusAndTx(id: Id) returns (status: Status, tx: Option<TxHash>, ok: bool)
      requires w.Valid() && id in w.s.rows
      modifies w
      ensures w.Valid() && Undisturbed(old(w.s), w.s)
      ensures ok ==> id in w.s.rows && w.s.rows[id].status == status && w.s.rows[id].tx == tx
      ensures w.record == Asked(old(w.record), ok)
    {
      w.Others();
      ok := w.Ask();
      status, tx := w.s.rows[id].status, w.s.rows[id].tx;
    }

    // reconcileReceipt for one redelivered event: nothing while it is not mined, else its row is settled.
    method ReconcileReceipt(m: Msg, tx: TxHash) returns (ok: bool)
      requires w.Valid() && AtMessage(w.s) && !SeenBefore(w.s) && Current(w.s) == m
      requires m.id in w.s.rows && w.s.rows[m.id].tx == Some(tx)
      modifies w
      ensures w.Valid()
      ensures ok ==> Progressed(old(w.s), w.s, old(w.s).con.phase.(k := old(w.s).con.phase.k + 1))
      ensures ok && tx in w.s.chain.receipts ==> Terminal(w.s.rows, m.id)
      ensures !ok ==> GivenBack(old(w.s), w.s)
      ensures w.record == Asked(old(w.record), ok)
    {
      w.Others();
      ok := w.Ask();
      if !ok {
        w.Do(FilterReconcile(None, false));
        return;
      }
      if tx !in w.s.chain.receipts {
        w.Do(FilterReconcile(None, true));
        return;
      }
      ok := SettleRedelivered(m, tx);
    }

    // The one statement for a mined transaction.
    method SettleRedelivered(m: Msg, tx: TxHash) returns (ok: bool)
      requires w.Valid() && AtMessage(w.s) && !SeenBefore(w.s) && Current(w.s) == m
      requires m.id in w.s.rows && w.s.rows[m.id].tx == Some(tx) && tx in w.s.chain.receipts
      modifies w
      ensures w.Valid() && w.s.chain == old(w.s).chain
      ensures ok ==> Progressed(old(w.s), w.s, old(w.s).con.phase.(k := old(w.s).con.phase.k + 1)) && Terminal(w.s.rows, m.id)
      ensures !ok ==> GivenBack(old(w.s), w.s)
      ensures w.record == Asked(old(w.record), ok)
    {
      OutcomeIsKnown(m.id, tx);
      var write := Write(tx, {m.id}, if w.s.chain.receipts[tx].Reverted? then None else OutcomeAt(w.s.chain, tx, m.id));
      ok := w.Ask();
      var applied := w.Effect(ok);
      w.Do(FilterReconcile(if applied then Some(write) else None, ok));
    }

    lemma OutcomeIsKnown(id: Id, tx: TxHash)
      requires w.Valid() && id in w.s.rows && w.s.rows[id].tx == Some(tx) && tx in w.s.chain.receipts
      ensures w.s.chain.receipts[tx].Mined? ==> OutcomeAt(w.s.chain, tx, id).Some?
    {
      RunKeepsInv(w.topic, w.window, w.states, w.steps, |w.steps|);
      assert RowOk(w.s.chain, id, w.s.rows[id]) && Readable(w.s.chain);
    }

    method Skip()
      requires w.Valid() && AtMessage(w.s) && (SeenBefore(w.s) || Skippable(w.s.rows, Current(w.s).id))
      modifies w
      ensures w.Valid() && Progressed(old(w.s), w.s, old(w.s).con.phase.(k := old(w.s).con.phase.k + 1)) && w.record == old(w.record)
    {
      w.Do(FilterSkip);
    }

    ghost predicate Skippable(rows: Rows, id: Id) {
      id in rows && (rows[id].status == COMMITTED || (rows[id].status == FAILED && rows[id].tx == None))
    }

    method Resend(m: Msg)
      requires w.Valid() && AtMessage(w.s) && !SeenBefore(w.s) && Current(w.s) == m
      requires m.id in w.s.rows && w.s.rows[m.id].tx == None && w.s.rows[m.id].status !in {COMMITTED, FAILED}
      modifies w
      ensures w.Valid() && Progressed(old(w.s), w.s, Filtering(old(w.s).con.phase.k + 1, old(w.s).con.phase.pending + [m]))
      ensures w.record == old(w.record)
    {
      w.Do(FilterResend);
    }

    method GiveBack()
      requires w.Valid() && InSegment(w.s) && w.s.con.phase.Filtering?
      modifies w
      ensures w.Valid() && GivenBack(old(w.s), w.s) && w.record == old(w.record)
    {
      w.Do(FilterError);
    }

    // One message of the filter: skipped, reconciled, or to be sent.
    method FilterOne(m: Msg) returns (send: bool, ok: bool)
      requires w.Valid() && AtMessage(w.s) && !SeenBefore(w.s) && Current(w.s) == m
      modifies w
      ensures w.Valid()
      ensures !ok ==> GivenBack(old(w.s), w.s)
      ensures ok ==> Progressed(old(w.s), w.s, Filtering(old(w.s).con.phase.k + 1, if send then old(w.s).con.phase.pending + [m] else old(w.s).con.phase.pending))
      ensures w.record == Asked(old(w.record), ok)
    {
      send := false;
      var found;
      found, ok := Exists(m.id);
      if !ok {
        GiveBack();
        return;
      }
      if !found {
        ok := InsertPending(m);
        return true, ok;
      }
      var status, tx;
      status, tx, ok := StatusAndTx(m.id);
      if !ok {
        GiveBack();
        return;
      }
      if status == COMMITTED {
        Skip();
      } else if tx.Some? {
        ok := ReconcileReceipt(m, tx.value);
      } else if status == FAILED {
        Skip();
      } else {
        Resend(m);
        send := true;
      }
    }

    // A message of the window whose id came up before is dropped.
    method FilterNext(m: Msg, seen: set<Id>) returns (send: bool, ok: bool)
      requires w.Valid() && AtMessage(w.s) && Current(w.s) == m && (m.id in seen <==> SeenBefore(w.s))
      modifies w
      ensures w.Valid()
      ensures !ok ==> GivenBack(old(w.s), w.s)
      ensures ok ==> Progressed(old(w.s), w.s, Filtering(old(w.s).con.phase.k + 1, if send then old(w.s).con.phase.pending + [m] else old(w.s).con.phase.pending))
      ensures w.record == Asked(old(w.record), ok)
    {
      if m.id in seen {
        Skip();
        return false, true;
      }
      send, ok := FilterOne(m);
    }

    // The message at k of the window; seen are the ids of the segment before it.
    method FilterAt(ghost win: seq<Msg>, ghost a: nat, ghost b: nat, ghost inflight: seq<Inflight>, ghost bad: Option<nat>,
                    m: Msg, ghost k: nat, pending: seq<Msg>, seen: set<Id>)
      returns (grown: seq<Msg>, seen': set<Id>, ok: bool)
      requires w.Valid() && AtPhase(w.s, win, a, b, inflight, bad, Filtering(k, pending)) && a <= k < b
      requires m == win[k] && seen == Ids(win[a..k])
      modifies w
      ensures w.Valid() && seen' == Ids(win[a..k + 1])
      ensures ok ==> Progressed(old(w.s), w.s, Filtering(k + 1, grown))
      ensures !ok ==> GivenBack(old(w.s), w.s)
      ensures w.record == Asked(old(w.record), ok)
    {
      IdsSnoc(win, a, k);
      var send;
      send, ok := FilterNext(m, seen);
      seen' := seen + {m.id};
      grown := if send then pending + [m] else pending;
    }

    // The segment msgs == win[a..b]: duplicates dropped, known events skipped or reconciled, the rest to send.
    method FilterAndMarkPending(ghost win: seq<Msg>, a: nat, b: nat, ghost inflight: seq<Inflight>, ghost bad: Option<nat>, msgs: seq<Msg>)
      returns (pending: seq<Msg>, ok: bool)
      requires w.Valid() && AtPhase(w.s, win, a, b, inflight, bad, Filtering(a, [])) && msgs == win[a..b]
      modifies w
      ensures w.Valid()
      ensures ok ==> AtPhase(w.s, win, a, b, inflight, bad, Filtering(b, pending)) && Steady(old(w.s), w.s)
      ensures ok ==> w.s.chain.sent == old(w.s).chain.sent
      ensures !ok ==> GivenBack(old(w.s), w.s)
      ensures w.record == Asked(old(w.record), ok)
    {
      pending := [];
      var seen: set<Id> := {};
      var k := 0;
      while k < |msgs|
        invariant 0 <= k <= |msgs| && w.Valid() && seen == Ids(win[a..a + k])
        invariant Walked(old(w.s), w.s, win, a, b, inflight, bad, Filtering(a + k, pending)) && w.record == old(w.record)
      {
        ghost var before := w.s;
        pending, seen, ok := FilterAt(win, a, b, inflight, bad, msgs[k], a + k, pending, seen);
        WalksOn(old(w.s), before, w.s, win, a, b, inflight, bad);
        if !ok {
          return;
        }
        k := k + 1;
      }
      ok := true;
    }

    // In the segment at this phase, with nothing else changed since s.
    static ghost predicate Walked(s: State, s': State, win: seq<Msg>, a: nat, b: nat, inflight: seq<Inflight>, bad: Option<nat>, phase: Phase) {
      && AtPhase(s', win, a, b, inflight, bad, phase)
      && Steady(s, s') && s'.chain.sent == s.chain.sent
    }

    static lemma WalksOn(s: State, s1: State, s2: State, win: seq<Msg>, a: nat, b: nat, inflight: seq<Inflight>, bad: Option<nat>)
      requires s1.con.Working? && Walked(s, s1, win, a, b, inflight, bad, s1.con.phase) && s.con.Working? && s.con.win == win && s.con.bad == bad
      ensures forall p: Phase :: Progressed(s1, s2, p) ==> Walked(s, s2, win, a, b, inflight, bad, p)
      ensures GivenBack(s1, s2) ==> GivenBack(s, s2)
    {
    }

    // ------------------------------------------------------------------------- sending

    // Every one of these is FAILED without ever having been broadcast, and in the DLQ.
    static ghost predicate FailedUnsent(s: State, ms: seq<Msg>) {
      forall m :: m in ms ==> m.id in s.rows && s.rows[m.id].status == FAILED && s.rows[m.id].tx == None && m.off in s.hist.dlq
    }

    lemma ChunkFails(ok: bool, applied: bool, published: bool)
      requires w.Valid() && Enabled(w.topic, w.window, w.s, DeliveryMachine.RecordFailure(ok, applied, published))
      ensures ok ==> FailedUnsent(Apply(w.topic, w.window, w.s, DeliveryMachine.RecordFailure(ok, applied, published)), Chunk(w.s))
    {
      RunKeepsInv(w.topic, w.window, w.states, w.steps, |w.steps|);
      if ok {
        ChunkIsFailed(w.topic, w.window, w.s);
      }
    }

    static lemma ChunkIsFailed(topic: Topic, window: nat, s: State)
      requires PhaseInv(s) && Enabled(topic, window, s, DeliveryMachine.RecordFailure(true, true, true))
      ensures FailedUnsent(Apply(topic, window, s, DeliveryMachine.RecordFailure(true, true, true)), Chunk(s))
    {
      ChunkIsNew(s);
      forall m | m in Chunk(s)
        ensures m.id in Ids(Chunk(s))
      {
      }
    }

    // DLQ first, then MarkFailed, for n actions from i on; the machine already knows they failed.
    method RecordFailure(ghost win: seq<Msg>, ghost a: nat, ghost b: nat, ghost inflight: seq<Inflight>, ghost bad: Option<nat>,
                         pending: seq<Msg>, i: nat, n: nat)
      returns (ok: bool)
      requires w.Valid() && AtPhase(w.s, win, a, b, inflight, bad, Failing(pending, i, n)) && n > 0 && i + n <= |pending|
      modifies w
      ensures w.Valid()
      ensures ok ==> AtPhase(w.s, win, a, b, inflight, bad, Sending(pending, i + n)) && Steady(old(w.s), w.s)
      ensures ok ==> w.s.chain.sent == old(w.s).chain.sent && FailedUnsent(w.s, pending[i..i + n])
      ensures !ok ==> GivenBack(old(w.s), w.s)
      ensures w.record == Asked(old(w.record), ok)
    {
      w.Others();
      ok := w.Ask();
      var applied := w.Effect(ok);
      var published := w.Effect(applied);
      ChunkFails(ok, applied, published);
      w.Do(DeliveryMachine.RecordFailure(ok, applied, published));
    }

    static lemma BroadcastMoves(topic: Topic, window: nat, s: State, n: nat, reply: bool)
      requires Enabled(topic, window, s, Broadcast(n, reply))
      ensures var s', ph := Apply(topic, window, s, Broadcast(n, reply)), s.con.phase;
              && |s'.chain.sent| == |s.chain.sent| + 1 && s.chain.sent <= s'.chain.sent && s'.chain.sent[|s.chain.sent|].msgs == ph.pending[ph.i..ph.i + n]
              && (reply ==> Progressed(s, s'.(chain := s.chain), Marking(ph.pending, ph.i, n, |s.chain.sent|)))
              && (!reply ==> GivenBack(s, s'))
    {
    }

    // At most one broadcast, of these actions.
    static predicate OneBroadcast(s: State, s': State, chunk: seq<Msg>) {
      || s'.chain.sent == s.chain.sent
      || (|s'.chain.sent| == |s.chain.sent| + 1 && s.chain.sent <= s'.chain.sent && s'.chain.sent[|s.chain.sent|].msgs == chunk)
    }

    // The step by which the machine takes a send of n actions to its end.
    static predicate SendsBy(st: Step, n: nat, r: C.Result) {
      match r
      case Sent(_, _) => st == Broadcast(n, true)
      case Transient => st == Broadcast(n, false) || st.SendTransient?
      case Revert => st == Step.Refuse(n)
      case Fatal => st == Step.Refuse(n)
    }

    // A signed transaction went out.
    static predicate Delivers(answers: C.Answers) {
      answers.gasPrice && answers.estimate.Gas? && answers.chainId && answers.signing == C.Signed
    }

    static function SendStep(nonce: nat, pending: nat, n: nat, minGas: nat, answers: C.Answers): Step {
      var end := C.Transmission(nonce, pending, minGas, answers);
      match end.result
      case Sent(_, _) => Broadcast(n, true)
      case Transient => if Delivers(answers) && answers.delivery == C.LostReply then Broadcast(n, false) else SendTransient(end.local)
      case Revert => Step.Refuse(n)
      case Fatal => Step.Refuse(n)
    }

    // Whatever node and signer answer the client, its send is a step of the machine …
    static lemma SendIsStep(topic: Topic, window: nat, s: State, n: nat, minGas: nat, answers: C.Answers)
      requires AtSend(s) && n > 0 && s.con.phase.i + n <= |s.con.phase.pending|
      requires s.nonce.Some? && C.Honest(s.chain.account, s.nonce.value, answers)
      ensures var end, st := C.Transmission(s.nonce.value, s.chain.pending, minGas, answers), SendStep(s.nonce.value, s.chain.pending, n, minGas, answers);
              && SendsBy(st, n, end.result) && Enabled(topic, window, s, st)
              && var s' := Apply(topic, window, s, st);
                 s'.nonce == end.local && s'.chain.pending == end.pending && s'.chain.account == s.chain.account
    {
    }

    // … and the machine has no other way to send: each is what the client does on some answers.
    static lemma StepIsSend(topic: Topic, window: nat, s: State, n: nat, minGas: nat, st: Step) returns (answers: C.Answers)
      requires s.nonce.Some? && Enabled(topic, window, s, st)
      requires st == Step.Refuse(n) || st.SendTransient? || (st.Broadcast? && st.n == n)
      ensures C.Honest(s.chain.account, s.nonce.value, answers)
      ensures var end := C.Transmission(s.nonce.value, s.chain.pending, minGas, answers);
              && SendsBy(st, n, end.result)
              && var s' := Apply(topic, window, s, st);
                 s'.nonce == end.local && s'.chain.pending == end.pending
    {
      var all := C.Answers(true, true, C.Gas(0), true, C.Signed, C.Unreachable, true);
      answers := match st
        case Refuse(_) => all.(estimate := C.Reverts)
        case Broadcast(_, acked) => all.(delivery := if acked then C.Accepted else C.LostReply)
        case SendTransient(nonce) => if nonce == s.nonce then all else all.(delivery := C.NonceTooLow, reseed := nonce.Some?)
        case _ => all;
    }

    static function Answered(r: Record, ok: bool, transient: bool): Record {
      r.(faults := r.faults + (if transient then 1 else 0), refusals := r.refusals + if ok || transient then 0 else 1)
    }

    // How SendCalldata ends: the hash, a transient error, or a terminal one that left nothing on its way.
    method SendCalldata(ghost win: seq<Msg>, ghost a: nat, ghost b: nat, ghost inflight: seq<Inflight>, ghost bad: Option<nat>,
                        ghost pending: seq<Msg>, ghost i: nat, n: nat, minGas: nat)
      returns (tx: TxHash, ok: bool, transient: bool)
      requires w.Valid() && AtPhase(w.s, win, a, b, inflight, bad, Sending(pending, i)) && n > 0 && i + n <= |pending|
      modifies w
      ensures w.Valid() && OneBroadcast(old(w.s), w.s, pending[i..i + n])
      ensures ok ==> !transient && tx == |old(w.s).chain.sent|
      ensures ok ==> AtPhase(w.s, win, a, b, inflight, bad, Marking(pending, i, n, tx)) && Steady(old(w.s), w.s)
      ensures transient ==> GivenBack(old(w.s), w.s)
      ensures !ok && !transient ==> w.s.chain.sent == old(w.s).chain.sent
      ensures !ok && !transient ==> AtPhase(w.s, win, a, b, inflight, bad, Failing(pending, i, n)) && Steady(old(w.s), w.s)
      ensures w.record == Answered(old(w.record), ok, transient)
    {
      var seeded := HaveNonce(win, a, b, inflight, bad, pending, i);
      if !seeded {
        return 0, false, true;
      }
      var result;
      ghost var answers;
      tx, result, answers := Transmit(win, a, b, inflight, bad, pending, i, n, minGas);
      ok, transient := result.Sent?, result.Transient?;
    }

    // The nonce, read from the node if it is not known.
    method HaveNonce(ghost win: seq<Msg>, ghost a: nat, ghost b: nat, ghost inflight: seq<Inflight>, ghost bad: Option<nat>,
                     ghost pending: seq<Msg>, ghost i: nat)
      returns (ok: bool)
      requires w.Valid() && AtPhase(w.s, win, a, b, inflight, bad, Sending(pending, i)) && i < |pending|
      modifies w
      ensures w.Valid() && w.s.chain.sent == old(w.s).chain.sent && w.record == Asked(old(w.record), ok)
      ensures ok ==> AtPhase(w.s, win, a, b, inflight, bad, Sending(pending, i)) && w.s.nonce.Some? && Steady(old(w.s), w.s)
      ensures !ok ==> GivenBack(old(w.s), w.s)
    {
      w.Others();
      ok := true;
      if w.s.nonce == None {
        ok := w.Ask();
        if !ok {
          w.Do(SendTransient(None));
          return;
        }
        w.Do(SeedNonce);
        w.Others();
      }
    }

    // With a nonce at hand: the client's own send, on any answers of an honest node.
    method Transmit(ghost win: seq<Msg>, ghost a: nat, ghost b: nat, ghost inflight: seq<Inflight>, ghost bad: Option<nat>,
                    ghost pending: seq<Msg>, ghost i: nat, n: nat, minGas: nat)
      returns (tx: TxHash, result: C.Result, ghost answers: C.Answers)
      requires w.Valid() && AtPhase(w.s, win, a, b, inflight, bad, Sending(pending, i)) && n > 0 && i + n <= |pending| && w.s.nonce.Some?
      modifies w
      ensures C.Honest(old(w.s).chain.account, old(w.s).nonce.value, answers)
      ensures w.record == SentTo(old(w.record), result)
      ensures C.Sending(result, w.s.nonce, w.s.chain.pending) == C.Transmission(old(w.s).nonce.value, old(w.s).chain.pending, minGas, answers)
      ensures w.Valid() && OneBroadcast(old(w.s), w.s, pending[i..i + n])
      ensures result.Sent? ==> tx == |old(w.s).chain.sent|
      ensures result.Sent? ==> AtPhase(w.s, win, a, b, inflight, bad, Marking(pending, i, n, tx)) && Steady(old(w.s), w.s)
      ensures result.Transient? ==> GivenBack(old(w.s), w.s)
      ensures result in {C.Revert, C.Fatal} ==> w.s.chain.sent == old(w.s).chain.sent
      ensures result in {C.Revert, C.Fatal} ==> AtPhase(w.s, win, a, b, inflight, bad, Failing(pending, i, n)) && Steady(old(w.s), w.s)
    {
      var reply := w.AskNode(minGas);
      answers := reply;
      tx, result := |w.s.chain.sent|, C.Transmission(w.s.nonce.value, w.s.chain.pending, minGas, reply).result;
      SendMoves(w.topic, w.window, w.s, n, minGas, reply);
      w.Do(SendStep(w.s.nonce.value, w.s.chain.pending, n, minGas, reply));
    }

    static lemma SendMoves(topic: Topic, window: nat, s: State, n: nat, minGas: nat, answers: C.Answers)
      requires AtSend(s) && n > 0 && s.con.phase.i + n <= |s.con.phase.pending|
      requires s.nonce.Some? && C.Honest(s.chain.account, s.nonce.value, answers)
      ensures var end, st := C.Transmission(s.nonce.value, s.chain.pending, minGas, answers), SendStep(s.nonce.value, s.chain.pending, n, minGas, answers);
              Enabled(topic, window, s, st) && SendEnds(s, Apply(topic, window, s, st), n, end)
    {
      SendIsStep(topic, window, s, n, minGas, answers);
      StepSends(topic, window, s, n, SendStep(s.nonce.value, s.chain.pending, n, minGas, answers));
    }

    // The send of n actions has come to this end.
    static ghost predicate SendEnds(s: State, s': State, n: nat, end: C.Sending)
      requires AtSend(s) && s.con.phase.i + n <= |s.con.phase.pending|
    {
      var ph := s.con.phase;
      && s'.nonce == end.local && s'.chain.pending == end.pending && OneBroadcast(s, s', ph.pending[ph.i..ph.i + n])
      && match end.result
         case Sent(_, _) => Progressed(s, s'.(chain := s.chain), Marking(ph.pending, ph.i, n, |s.chain.sent|))
         case Transient => GivenBack(s, s')
         case Revert => Progressed(s, s', Failing(ph.pending, ph.i, n))
         case Fatal => Progressed(s, s', Failing(ph.pending, ph.i, n))
    }

    static lemma StepSends(topic: Topic, window: nat, s: State, n: nat, st: Step)
      requires Enabled(topic, window, s, st) && (st == Step.Refuse(n) || st.SendTransient? || (st.Broadcast? && st.n == n))
      requires n > 0 && s.con.phase.i + n <= |s.con.phase.pending|
      ensures var s', ph := Apply(topic, window, s, st), s.con.phase;
              && OneBroadcast(s, s', ph.pending[ph.i..ph.i + n])
              && (st == Broadcast(n, true) ==> Progressed(s, s'.(chain := s.chain), Marking(ph.pending, ph.i, n, |s.chain.sent|)))
              && (st == Broadcast(n, false) || st.SendTransient? ==> GivenBack(s, s'))
              && (st.Refuse? ==> Progressed(s, s', Failing(ph.pending, ph.i, n)))
    {
      if st.Broadcast? {
        BroadcastMoves(topic, window, s, n, st.acked);
      }
    }

    method MarkSent(ghost win: seq<Msg>, ghost a: nat, ghost b: nat, inflight: seq<Inflight>, ghost bad: Option<nat>,
                    pending: seq<Msg>, i: nat, n: nat, tx: TxHash)
      returns (grown: seq<Inflight>, ok: bool)
      requires w.Valid() && AtPhase(w.s, win, a, b, inflight, bad, Marking(pending, i, n, tx)) && n > 0 && i + n <= |pending|
      modifies w
      ensures w.Valid()
      ensures ok ==> grown == inflight + [Inflight(tx, pending[i..i + n])]
                     && AtPhase(w.s, win, a, b, grown, bad, Sending(pending, i + n)) && Steady(old(w.s), w.s)
                     && Broadcasted(w.s, grown, inflight, pending[i..i + n])
      ensures !ok ==> GivenBack(old(w.s), w.s)
      ensures w.record == Asked(old(w.record), ok)
    {
      w.Others();
      ok := w.Ask();
      var applied := w.Effect(ok);
      w.Do(RecordSent(ok, applied));
      grown := inflight + [Inflight(tx, pending[i..i + n])];
      if ok {
        LastIsRecorded(inflight, Inflight(tx, pending[i..i + n]));
      }
    }

    lemma LastIsRecorded(inflight: seq<Inflight>, last: Inflight)
      requires w.Valid() && w.s.con.Working? && w.s.con.inflight == inflight + [last]
      ensures Broadcasted(w.s, inflight + [last], inflight, last.msgs)
    {
      w.RunKeepsParts();
      InflightIsRecorded(w.s, inflight, last);
    }

    static lemma InflightIsRecorded(s: State, inflight: seq<Inflight>, last: Inflight)
      requires PhaseInv(s) && s.con.Working? && s.con.inflight == inflight + [last]
      ensures Broadcasted(s, inflight + [last], inflight, last.msgs)
    {
      assert last in s.con.inflight && InflightOk(s.rows, s.chain.sent, last);
    }

    // The send loop over what the filter left. cuts is where it cut the list: everywhere as greedily as
    // the limit allows.
    method SendPending(ghost win: seq<Msg>, ghost a: nat, ghost b: nat, inflight: seq<Inflight>, ghost bad: Option<nat>,
                       pending: seq<Msg>, pack: Packer)
      returns (grown: seq<Inflight>, ok: bool, ghost cuts: seq<nat>)
      requires w.Valid() && AtPhase(w.s, win, a, b, inflight, bad, Sending(pending, 0))
      modifies w
      ensures w.Valid()
      ensures ok ==> AtPhase(w.s, win, a, b, grown, bad, Sending(pending, |pending|)) && Steady(old(w.s), w.s)
      ensures ok ==> GreedyCuts(pack, limit, pending, cuts, |pending|)
      ensures !ok ==> GivenBack(old(w.s), w.s)
      ensures Quiet(old(w.record), w.record, ok)
      ensures ok && w.record == old(w.record) ==> OnPlan(pack, limit, pending, |pending|, inflight, grown)
    {
      grown, cuts := inflight, [0];
      var i := 0;
      PlanStarts(pack, limit, pending, inflight);
      assert SentUpTo(pack, limit, pending, cuts, 0, inflight, grown, true);
      while i < |pending|
        invariant 0 <= i <= |pending| && w.Valid()
        invariant AtPhase(w.s, win, a, b, grown, bad, Sending(pending, i)) && Steady(old(w.s), w.s)
        invariant Quiet(old(w.record), w.record, true)
        invariant SentUpTo(pack, limit, pending, cuts, i, inflight, grown, w.record == old(w.record))
      {
        ghost var before, record := grown, w.record;
        var n;
        grown, n, ok := SendNext(win, a, b, grown, bad, pending, i, pack);
        if !ok {
          return;
        }
        SentFurther(pack, limit, pending, cuts, i, n, inflight, before, grown, record == old(w.record), w.record == record);
        cuts := cuts + [i + n];
        i := i + n;
      }
      ok := true;
    }

    // Only a fault gives the window back; refusals only add up.
    static predicate Quiet(r: Record, r': Record, ok: bool) {
      r'.faults == r.faults + (if ok then 0 else 1) && r'.refusals >= r.refusals
    }

    // So far the transactions are those of the greedy plan for the whole list.
    static ghost predicate OnPlan(pack: Packer, limit: nat, pending: seq<Msg>, i: int, inflight: seq<Inflight>, grown: seq<Inflight>) {
      0 <= i <= |pending| && Batched(grown) + TxsOf(Plan(pack, limit, pending[i..])) == Batched(inflight) + TxsOf(Plan(pack, limit, pending))
    }

    // What SendNext adds at i.
    static ghost predicate AddsPiece(pack: Packer, limit: nat, pending: seq<Msg>, i: int, n: nat, before: seq<Inflight>, grown: seq<Inflight>) {
      && 0 <= i < |pending| && i + n <= |pending| && GreedyCut(pack, limit, pending, i, i + n)
      && Batched(grown) == Batched(before) + if Greedy(pack, limit, pending[i..]) == 0 then [] else [pending[i..i + n]]
    }

    // The cuts are greedy; unless something was refused, the transactions are the plan's.
    static ghost predicate SentUpTo(pack: Packer, limit: nat, pending: seq<Msg>, cuts: seq<nat>, i: nat, inflight: seq<Inflight>, grown: seq<Inflight>, clean: bool) {
      GreedyCuts(pack, limit, pending, cuts, i) && (clean ==> OnPlan(pack, limit, pending, i, inflight, grown))
    }

    static lemma SentFurther(pack: Packer, limit: nat, pending: seq<Msg>, cuts: seq<nat>, i: nat, n: nat, inflight: seq<Inflight>, before: seq<Inflight>,
                             grown: seq<Inflight>, clean: bool, stays: bool)
      requires SentUpTo(pack, limit, pending, cuts, i, inflight, before, clean) && GreedyCut(pack, limit, pending, i, i + n)
      requires stays ==> AddsPiece(pack, limit, pending, i, n, before, grown)
      ensures SentUpTo(pack, limit, pending, cuts + [i + n], i + n, inflight, grown, clean && stays)
    {
      CutsGrow(pack, limit, pending, cuts, i, i + n);
      PlanGoesOn(pack, limit, pending, i, n, inflight, before, grown);
    }

    static lemma PlanStarts(pack: Packer, limit: nat, pending: seq<Msg>, inflight: seq<Inflight>)
      ensures OnPlan(pack, limit, pending, 0, inflight, inflight)
    {
      assert pending[0..] == pending;
    }

    static lemma PlanGoesOn(pack: Packer, limit: nat, pending: seq<Msg>, i: nat, n: nat, inflight: seq<Inflight>, before: seq<Inflight>, grown: seq<Inflight>)
      ensures AddsPiece(pack, limit, pending, i, n, before, grown) && OnPlan(pack, limit, pending, i, inflight, before) ==>
                OnPlan(pack, limit, pending, i + n, inflight, grown)
    {
      if AddsPiece(pack, limit, pending, i, n, before, grown) && OnPlan(pack, limit, pending, i, inflight, before) {
        var more := if Greedy(pack, limit, pending[i..]) == 0 then [] else [pending[i..i + n]];
        PlanPiece(pack, limit, pending, i, n);
        Regroup(Batched(before), more, Batched(grown), TxsOf(Plan(pack, limit, pending[i + n..])));
      }
    }

    static lemma Regroup(b: seq<seq<Msg>>, more: seq<seq<Msg>>, g: seq<seq<Msg>>, rest: seq<seq<Msg>>)
      requires g == b + more
      ensures g + rest == b + (more + rest)
    {
    }

    static lemma PlanPiece(pack: Packer, limit: nat, pending: seq<Msg>, i: nat, n: nat)
      requires i + n <= |pending| && GreedyCut(pack, limit, pending, i, i + n)
      ensures TxsOf(Plan(pack, limit, pending[i..])) ==
              (if Greedy(pack, limit, pending[i..]) == 0 then [] else [pending[i..i + n]]) + TxsOf(Plan(pack, limit, pending[i + n..]))
    {
      assert pending[i..][n..] == pending[i + n..] && pending[i..][..n] == pending[i..i + n];
    }

    // At the end of the list the plan is carried out.
    static lemma PlanEnds(pack: Packer, limit: nat, pending: seq<Msg>, inflight: seq<Inflight>, grown: seq<Inflight>)
      ensures OnPlan(pack, limit, pending, |pending|, inflight, grown) ==> Batched(grown) == Batched(inflight) + TxsOf(Plan(pack, limit, pending))
    {
      assert pending[|pending|..] == [];
      assert Batched(grown) + [] == Batched(grown);
    }

    // The longest chunk that fits, or one action that does not fit alone.
    method SendNext(ghost win: seq<Msg>, ghost a: nat, ghost b: nat, inflight: seq<Inflight>, ghost bad: Option<nat>,
                    pending: seq<Msg>, i: nat, pack: Packer)
      returns (grown: seq<Inflight>, n: nat, ok: bool)
      requires w.Valid() && AtPhase(w.s, win, a, b, inflight, bad, Sending(pending, i)) && i < |pending|
      modifies w
      ensures w.Valid() && 0 < n && GreedyCut(pack, limit, pending, i, i + n)
      ensures ok ==> AtPhase(w.s, win, a, b, grown, bad, Sending(pending, i + n)) && Steady(old(w.s), w.s)
      ensures !ok ==> GivenBack(old(w.s), w.s)
      ensures Quiet(old(w.record), w.record, ok)
      ensures ok && w.record == old(w.record) ==> AddsPiece(pack, limit, pending, i, n, inflight, grown)
    {
      grown := inflight;
      var data, unpackable;
      n, data, unpackable := MaxActionChunk(pending[i..], limit, pack);
      if n == 0 {
        n := 1;
        ok := FailOne(win, a, b, inflight, bad, pending, i);
      } else {
        grown, ok := SendChunk(win, a, b, inflight, bad, pending, i, n);
      }
    }

    // An action that does not pack, or not alone within the limit, fails by itself.
    method FailOne(ghost win: seq<Msg>, ghost a: nat, ghost b: nat, ghost inflight: seq<Inflight>, ghost bad: Option<nat>, pending: seq<Msg>, i: nat)
      returns (ok: bool)
      requires w.Valid() && AtPhase(w.s, win, a, b, inflight, bad, Sending(pending, i)) && i < |pending|
      modifies w
      ensures w.Valid()
      ensures ok ==> AtPhase(w.s, win, a, b, inflight, bad, Sending(pending, i + 1)) && Steady(old(w.s), w.s)
      ensures ok ==> w.s.chain.sent == old(w.s).chain.sent && FailedUnsent(w.s, [pending[i]])
      ensures !ok ==> GivenBack(old(w.s), w.s)
      ensures w.record == Asked(old(w.record), ok)
    {
      w.Do(Step.Refuse(1));
      ok := RecordFailure(win, a, b, inflight, bad, pending, i, 1);
      assert pending[i..i + 1] == [pending[i]];
    }

    // One chunk: broadcast and recorded, or failed as a whole; a transient error gives the window back.
    method SendChunk(ghost win: seq<Msg>, ghost a: nat, ghost b: nat, inflight: seq<Inflight>, ghost bad: Option<nat>,
                     pending: seq<Msg>, i: nat, n: nat)
      returns (grown: seq<Inflight>, ok: bool)
      requires w.Valid() && AtPhase(w.s, win, a, b, inflight, bad, Sending(pending, i)) && n > 0 && i + n <= |pending|
      modifies w
      ensures w.Valid()
      ensures ok ==> AtPhase(w.s, win, a, b, grown, bad, Sending(pending, i + n)) && Steady(old(w.s), w.s)
      ensures !ok ==> GivenBack(old(w.s), w.s)
      ensures Quiet(old(w.record), w.record, ok)
      ensures ok ==> if w.record.refusals == old(w.record).refusals then Broadcasted(w.s, grown, inflight, pending[i..i + n])
                     else grown == inflight && FailedUnsent(w.s, pending[i..i + n])
    {
      grown := inflight;
      var minGas := floor(pending[i..i + n]);
      var tx, sent, transient := SendCalldata(win, a, b, inflight, bad, pending, i, n, minGas);
      if transient {
        return inflight, false;
      }
      if sent {
        grown, ok := MarkSent(win, a, b, inflight, bad, pending, i, n, tx);
      } else {
        ok := RecordFailure(win, a, b, inflight, bad, pending, i, n);
      }
    }

    // The last of the transactions carries these actions; its hash is in their rows.
    static ghost predicate Broadcasted(s: State, grown: seq<Inflight>, inflight: seq<Inflight>, ms: seq<Msg>) {
      && |grown| == |inflight| + 1 && grown[..|inflight|] == inflight && grown[|inflight|].msgs == ms
      && grown[|inflight|].tx < |s.chain.sent| && s.chain.sent[grown[|inflight|].tx].msgs == ms
      && forall id :: id in Ids(ms) ==> id in s.rows && s.rows[id].tx == Some(grown[|inflight|].tx)
    }

    // Where the window's work stands once the segment that ends at b is done.
    static ghost predicate SegmentDone(s: State, win: seq<Msg>, b: nat, inflight: seq<Inflight>, bad: Option<nat>)
      requires b <= |win|
    {
      if b < |win| then AtPhase(s, win, b, RunEnd(win, b), inflight, bad, Filtering(b, []))
      else s.con == Offering(Batch(inflight, Offsets(win)), bad)
    }

    // pending: what the filter left to be sent.
    method SendActions(ghost win: seq<Msg>, a: nat, b: nat, inflight: seq<Inflight>, ghost bad: Option<nat>, msgs: seq<Msg>, kind: Kind)
      returns (grown: seq<Inflight>, ok: bool, pending: seq<Msg>)
      requires w.Valid() && AtPhase(w.s, win, a, b, inflight, bad, Filtering(a, [])) && msgs == win[a..b]
      modifies w
      ensures w.Valid()
      ensures ok ==> SegmentDone(w.s, win, b, grown, bad) && Steady(old(w.s), w.s)
      ensures Quiet(old(w.record), w.record, ok)
      ensures ok && configured(kind) && w.record == old(w.record) ==> Batched(grown) == Batched(inflight) + TxsOf(Plan(packer(kind), limit, pending))
      ensures ok && !configured(kind) ==> grown == inflight && w.s.chain.sent == old(w.s).chain.sent && FailedUnsent(w.s, pending)
      ensures !ok ==> GivenBack(old(w.s), w.s)
    {
      grown := inflight;
      pending, ok := FilterAndMarkPending(win, a, b, inflight, bad, msgs);
      if !ok {
        return;
      }
      w.Do(FilterDone(configured(kind)));
      if |pending| == 0 {
        return;
      }
      if !configured(kind) {
        ok := RecordFailure(win, a, b, inflight, bad, pending, 0, |pending|);
        if !ok {
          return;
        }
      } else {
        ghost var cuts;
        grown, ok, cuts := SendPending(win, a, b, inflight, bad, pending, packer(kind));
        PlanEnds(packer(kind), limit, pending, inflight, grown);
        if !ok {
          return;
        }
      }
      w.Do(SendDone);
    }

    // A drained window: broadcast segment by segment in Kafka order, or given back whole.
    method Send(win: seq<Msg>, ghost bad: Option<nat>) returns (inflight: seq<Inflight>, ok: bool)
      requires w.Valid() && |win| > 0 && AtPhase(w.s, win, 0, RunEnd(win, 0), [], bad, Filtering(0, []))
      modifies w
      ensures w.Valid()
      ensures ok ==> w.s.con == Offering(Batch(inflight, Offsets(win)), bad) && Steady(old(w.s), w.s)
      ensures !ok ==> GivenBack(old(w.s), w.s)
      ensures Quiet(old(w.record), w.record, ok)
    {
      var segs := SplitSegments(win);
      inflight := [];
      var j, a := 0, 0;
      assert segs[0..] == segs && win[0..] == win;
      while j < |segs|
        invariant 0 <= j <= |segs| && 0 <= a <= |win| && w.Valid()
        invariant IsSegmentation(segs[j..], win[a..])
        invariant Quiet(old(w.record), w.record, true)
        invariant SegmentDone(w.s, win, a, inflight, bad) && Steady(old(w.s), w.s)
      {
        inflight, a, ok := SendSegment(win, segs, j, a, inflight, bad);
        if !ok {
          return;
        }
        j := j + 1;
      }
      assert segs[j..] == [];
      ok := true;
    }

    // The segment at j, which starts at a.
    method SendSegment(ghost win: seq<Msg>, segs: seq<seq<Msg>>, j: nat, a: nat, inflight: seq<Inflight>, ghost bad: Option<nat>)
      returns (grown: seq<Inflight>, b: nat, ok: bool)
      requires w.Valid() && j < |segs| && a <= |win| && IsSegmentation(segs[j..], win[a..]) && SegmentDone(w.s, win, a, inflight, bad)
      modifies w
      ensures w.Valid() && b <= |win| && IsSegmentation(segs[j + 1..], win[b..])
      ensures ok ==> SegmentDone(w.s, win, b, grown, bad) && Steady(old(w.s), w.s)
      ensures !ok ==> GivenBack(old(w.s), w.s)
      ensures Quiet(old(w.record), w.record, ok)
    {
      var seg := segs[j];
      NextSegmentOf(segs, win, j, a);
      b := a + |seg|;
      var pending;
      grown, ok, pending := SendActions(win, a, b, inflight, bad, seg, seg[0].kind);
    }
  }

  // The actions of each transaction.
  function Batched(txs: seq<Inflight>): (ms: seq<seq<Msg>>)
    ensures |ms| == |txs| && forall i :: 0 <= i < |txs| ==> ms[i] == txs[i].msgs
  {
    seq(|txs|, i requires 0 <= i < |txs| => txs[i].msgs)
  }

  // The transactions of a plan.
  function TxsOf(plan: seq<Piece>): seq<seq<Msg>> {
    if plan == [] then [] else (if plan[0].Tx? then [plan[0].msgs] else []) + TxsOf(plan[1..])
  }

  lemma IdsSnoc(win: seq<Msg>, a: nat, k: nat)
    requires a <= k < |win|
    ensures Ids(win[a..k + 1]) == Ids(win[a..k]) + {win[k].id}
  {
    assert win[a..k + 1] == win[a..k] + [win[k]];
  }

  // The segments of the loop are the machine's runs.
  lemma NextSegmentOf(segs: seq<seq<Msg>>, win: seq<Msg>, j: nat, a: nat)
    requires j < |segs| && a <= |win| && IsSegmentation(segs[j..], win[a..])
    ensures a < |win| && |segs[j]| > 0 && a + |segs[j]| == RunEnd(win, a) && segs[j] == win[a..a + |segs[j]|]
    ensures IsSegmentation(segs[j + 1..], win[a + |segs[j]|..])
  {
    FirstSegmentIsFirstRun(segs[j..], win[a..]);
    RunEndShift(win, a, 0);
    assert segs[j..][1..] == segs[j + 1..];
    assert win[a..][RunEnd(win[a..], 0)..] == win[a + |segs[j]|..];
    assert win[a..][..RunEnd(win[a..], 0)] == win[a..a + |segs[j]|];
  }

  lemma RunEndShift(win: seq<Msg>, a: nat, k: nat)
    requires a + k < |win|
    ensures RunEnd(win, a + k) == a + RunEnd(win[a..], k)
    decreases |win| - k
  {
  }
}
