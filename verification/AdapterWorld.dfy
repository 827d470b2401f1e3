// The adapter's calls to the outside as steps of the delivery machine. Before each call any number of
// steps of everybody else may happen: collector, reconciler, chain, other senders. What a call answers
// is arbitrary, but counted: nothing fails without a call that failed.
module AdapterWorld {
  import opened Basics
  import opened EventStore
  import opened ActionChunks
  import opened ActionOutcomes
  import opened DeliveryMachine
  import opened DeliveryInvariants
  import opened DeliverySteps
  import opened DeliveryLedgerSteps
  import opened DeliveryChainSteps
  import C = ChainClient

  // How many calls erred, went unanswered or lost their answer, and how many sends were refused for good.
  datatype Record = Record(faults: nat, refusals: nat)

  function Asked(r: Record, ok: bool): Record {
    r.(faults := r.faults + if ok then 0 else 1)
  }

  function SentTo(r: Record, result: C.Result): Record {
    r.(faults := r.faults + (if result.Transient? then 1 else 0), refusals := r.refusals + (if result in {C.Revert, C.Fatal} then 1 else 0))
  }

  // What others leave alone: the consumer's own state, rows nobody has sent yet, the list of broadcasts.
  ghost predicate Undisturbed(s: State, s': State) {
    && s'.con == s.con && s'.batcher == s.batcher && s'.next == s.next && s'.nonce == s.nonce
    && s'.rows.Keys == s.rows.Keys && KeepsNew(s.rows, s'.rows) && Advances(s.rows, s'.rows)
    && s'.chain.sent == s.chain.sent && s.hist.dlq <= s'.hist.dlq && s'.pipe.submitted == s.pipe.submitted
  }

  lemma OthersLeaveAlone(topic: Topic, window: nat, s: State, st: Step)
    requires PhaseInv(s) && PipeInv(s) && RowsInv(s) && ConsumerIsOther(st) && Enabled(topic, window, s, st)
    ensures Undisturbed(s, Apply(topic, window, s, st))
  {
    ConsumerMoves(topic, window, s, st);
    MarkMoves(topic, window, s, st);
    StepAdvances(topic, window, s, st);
    OthersKeepNew(topic, window, s, st);
    KeysStay(topic, window, s, st);
    BroadcastsStay(topic, window, s, st);
    DlqStays(topic, window, s, st);
    SubmittedStays(topic, window, s, st);
  }

  lemma SubmittedStays(topic: Topic, window: nat, s: State, st: Step)
    requires ConsumerIsOther(st) && Enabled(topic, window, s, st)
    ensures Apply(topic, window, s, st).pipe.submitted == s.pipe.submitted
  {
  }

  lemma DlqStays(topic: Topic, window: nat, s: State, st: Step)
    requires ConsumerIsOther(st) && Enabled(topic, window, s, st)
    ensures s.hist.dlq <= Apply(topic, window, s, st).hist.dlq
  {
  }

  lemma KeysStay(topic: Topic, window: nat, s: State, st: Step)
    requires ConsumerIsOther(st) && Enabled(topic, window, s, st)
    ensures Apply(topic, window, s, st).rows.Keys == s.rows.Keys && Apply(topic, window, s, st).nonce == s.nonce
  {
  }

  // Nothing was taken, put back or submitted.
  ghost predicate Steady(s: State, s': State) {
    s'.batcher == s.batcher && s'.next == s.next && s'.pipe.submitted == s.pipe.submitted
  }

  // The window's work went on: only the phase changed, nothing was broadcast.
  ghost predicate Progressed(s: State, s': State, phase: Phase) {
    s.con.Working? && s'.con == s.con.(phase := phase) && Steady(s, s') && s'.chain.sent == s.chain.sent
  }

  // The whole window went back in front of the batcher.
  ghost predicate GivenBack(s: State, s': State) {
    PutBack(s, s') && s'.next == s.next && s'.pipe.submitted == s.pipe.submitted
  }

  class World {
    const topic: Topic
    const window: nat
    var s: State
    ghost var states: seq<State>
    ghost var steps: seq<Step>
    ghost var record: Record

    // What happened so far is a run of the machine.
    ghost predicate Valid()
      reads this
    {
      IsRun(topic, window, states, steps) && s == states[|steps|]
    }

    constructor (t: Topic, w: nat, pending: nat)
      ensures Valid() && topic == t && window == w && s == Initial(pending) && record.faults == record.refusals == 0
    {
      topic, window, s := t, w, Initial(pending);
      states, steps, record := [Initial(pending)], [], Record(0, 0);
    }

    // Whether a call answered well.
    method Ask() returns (ok: bool)
      requires Valid()
      modifies `record
      ensures Valid() && record == Asked(old(record), ok)
    {
      ok := *;
      record := Asked(record, ok);
    }

    // A call that erred: whether it had its effect all the same.
    method Effect(ok: bool) returns (applied: bool)
      ensures ok ==> applied
    {
      applied := *;
      applied := applied || ok;
    }

    // The wait for a receipt ends without one.
    method CutOff(tx: TxHash)
      requires Valid() && tx !in s.chain.receipts
      modifies `record
      ensures Valid() && record == Asked(old(record), false)
    {
      record := Asked(record, false);
    }

    // What an honest node, and the signer, answer to a send with the nonce at hand.
    method AskNode(minGas: nat) returns (reply: C.Answers)
      requires Valid() && s.nonce.Some?
      modifies `record
      ensures Valid() && C.Honest(s.chain.account, s.nonce.value, reply)
      ensures record == SentTo(old(record), C.Transmission(s.nonce.value, s.chain.pending, minGas, reply).result)
    {
      reply := *;
      if !C.Honest(s.chain.account, s.nonce.value, reply) {
        reply := reply.(delivery := C.Unreachable);
      }
      record := SentTo(record, C.Transmission(s.nonce.value, s.chain.pending, minGas, reply).result);
    }

    method Do(st: Step)
      requires Valid() && Enabled(topic, window, s, st)
      modifies this
      ensures Valid() && s == Apply(topic, window, old(s), st)
      ensures record == old(record)
    {
      ghost var next := Apply(topic, window, s, st);
      RunSnoc(topic, window, states, steps, st, next);
      s := Apply(topic, window, s, st);
      states, steps := states + [next], steps + [st];
    }

    method Others()
      requires Valid()
      modifies this
      ensures Valid() && Undisturbed(old(s), s)
      ensures record == old(record)
    {
      var n: nat := *;
      while n > 0
        invariant Valid() && Undisturbed(old(s), s) && record == old(record)
      {
        var st: Step := *;
        if ConsumerIsOther(st) && Enabled(topic, window, s, st) {
          OtherStep(st);
        }
        n := n - 1;
      }
    }

    method OtherStep(st: Step)
      requires Valid() && ConsumerIsOther(st) && Enabled(topic, window, s, st)
      modifies this
      ensures Valid() && Undisturbed(old(s), s)
      ensures record == old(record)
    {
      RunKeepsParts();
      OthersLeaveAlone(topic, window, s, st);
      Do(st);
    }

    lemma RunKeepsParts()
      requires Valid()
      ensures PhaseInv(s) && PipeInv(s) && RowsInv(s) && MemInv(topic, s)
    {
      RunKeepsInv(topic, window, states, steps, |steps|);
    }
  }
}
