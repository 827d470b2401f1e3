// Runs that show why the main results name their hypotheses.
module DeliveryWitnesses {
  import opened Basics
  import opened EventStore
  import opened ActionChunks
  import opened ActionOutcomes
  import opened DeliveryMachine
  import opened DeliveryInvariants
  import opened DeliverySteps

  // The state a list of steps leads to.
  ghost predicate Leads(topic: Topic, window: nat, s: State, steps: seq<Step>, t: State)
    decreases |steps|
  {
    if steps == [] then s == t
    else Enabled(topic, window, s, steps[0]) && Leads(topic, window, Apply(topic, window, s, steps[0]), steps[1..], t)
  }

  lemma {:induction false} LeadsIsRun(topic: Topic, window: nat, states: seq<State>, before: seq<Step>, steps: seq<Step>, t: State)
    returns (all: seq<State>)
    requires IsRun(topic, window, states, before) && Leads(topic, window, states[|before|], steps, t)
    ensures IsRun(topic, window, all, before + steps) && all[|before + steps|] == t && states <= all
    decreases |steps|
  {
    if steps == [] {
      assert before + steps == before;
      all := states;
    } else {
      var next := Apply(topic, window, states[|before|], steps[0]);
      RunSnoc(topic, window, states, before, steps[0], next);
      assert (states + [next])[|before + [steps[0]]|] == next;
      all := LeadsIsRun(topic, window, states + [next], before + [steps[0]], steps[1..], t);
      assert before + [steps[0]] + steps[1..] == before + steps;
    }
  }

  lemma {:induction false} LeadsThrough(topic: Topic, window: nat, s: State, xs: seq<Step>, t: State, ys: seq<Step>, u: State)
    requires Leads(topic, window, s, xs, t) && Leads(topic, window, t, ys, u)
    ensures Leads(topic, window, s, xs + ys, u)
    decreases |xs|
  {
    if xs == [] {
      assert xs + ys == ys;
    } else {
      LeadsThrough(topic, window, Apply(topic, window, s, xs[0]), xs[1..], t, ys, u);
      assert (xs + ys)[1..] == xs[1..] + ys;
    }
  }

  lemma RunOf(topic: Topic, window: nat, p: nat, steps: seq<Step>, t: State) returns (states: seq<State>)
    requires Leads(topic, window, Initial(p), steps, t)
    ensures IsRun(topic, window, states, steps) && states[0] == Initial(p) && states[|steps|] == t
  {
    states := LeadsIsRun(topic, window, [Initial(p)], [], steps, t);
    assert [] + steps == steps;
  }

  // ---------------------------------------------------------- a put-back message is overtaken

  const BEHIND: Topic := [Good(7, Warehouse), Bad]

  const OVERTAKEN: State :=
    Initial(0).(next := 2, batcher := [Msg(7, Warehouse, 0)], con := Offering(Batch([], [1]), None),
                hist := History({}, {1}))

  const TO_OVERTAKEN := [Fetch, Fetch, FilterError, PublishBad(true)]

  lemma PutBackIsOvertaken()
    ensures Leads(BEHIND, 1, Initial(0), TO_OVERTAKEN, OVERTAKEN)
  {
  }

  const LOST_EVENT: State := Initial(0).(committed := 2, next := 2, hist := OVERTAKEN.hist)

  const TO_COMMITTED := [Offer, Take, Commit(true, true)]

  function AfterBareCommit(s: State, off: nat): State {
    s.(con := Idle, committed := off + 1, pipe := Pipe([], None, false, [Batch([], [off])], 1))
  }

  function BareConfirming(s: State, off: nat): State {
    var b := Batch([], [off]);
    s.(con := Idle, pipe := Pipe([], Some(Confirming(b, [], false)), false, [b], 0))
  }

  lemma BareBatchEnters(topic: Topic, s: State, off: nat)
    requires s.con == Offering(Batch([], [off]), None) && s.pipe == FRESH_PIPE
    ensures Leads(topic, 1, s, [Offer, Take], BareConfirming(s, off))
  {
    var b := Batch([], [off]);
    var s1 := s.(con := Idle, pipe := Pipe([b], None, false, [b], 0));
    assert s1 == Apply(topic, 1, s, Offer);
    assert Apply(topic, 1, s1, Take).pipe.current.value.settled == [];
    assert BareConfirming(s, off) == Apply(topic, 1, s1, Take);
  }

  lemma BareBatchLeaves(topic: Topic, s: State, off: nat)
    requires s.committed <= off
    ensures Leads(topic, 1, BareConfirming(s, off), [Commit(true, true)], AfterBareCommit(s, off))
  {
  }

  // A batch without transactions goes straight through the pipeline.
  lemma BareOffsetCommits(topic: Topic, s: State, off: nat)
    requires s.con == Offering(Batch([], [off]), None) && s.pipe == FRESH_PIPE && s.committed <= off
    ensures Leads(topic, 1, s, TO_COMMITTED, AfterBareCommit(s, off))
  {
    BareBatchEnters(topic, s, off);
    BareBatchLeaves(topic, s, off);
    LeadsThrough(topic, 1, s, [Offer, Take], BareConfirming(s, off), [Commit(true, true)], AfterBareCommit(s, off));
    assert [Offer, Take] + [Commit(true, true)] == TO_COMMITTED;
  }

  lemma RestartsBehind()
    ensures Leads(BEHIND, 1, AfterBareCommit(OVERTAKEN, 1), [Restart], LOST_EVENT)
  {
  }

  lemma PutBackWaits(s: State, s1: State, s2: State, s3: State)
    requires s == Initial(0) && s1 == Apply(BEHIND, 1, s, Fetch)
    requires Enabled(BEHIND, 1, s1, Fetch) && s2 == Apply(BEHIND, 1, s1, Fetch)
    requires Enabled(BEHIND, 1, s2, FilterError) && s3 == Apply(BEHIND, 1, s2, FilterError)
    ensures s3.batcher == [Msg(7, Warehouse, 0)]
  {
    FetchesFirst(s);
    FetchesBad(s1);
    PutsBack(s2);
  }

  lemma OvertakenStates(states: seq<State>, steps: seq<Step>)
    requires IsRun(BEHIND, 1, states, steps) && states[0] == Initial(0) && TO_OVERTAKEN <= steps
    ensures |steps| > 3 && steps[3] == PublishBad(true) && states[3].batcher == [Msg(7, Warehouse, 0)]
  {
    assert steps[0] == TO_OVERTAKEN[0] && steps[1] == TO_OVERTAKEN[1] && steps[2] == TO_OVERTAKEN[2] && steps[3] == TO_OVERTAKEN[3];
    Moves(states, steps, 0);
    Moves(states, steps, 1);
    Moves(states, steps, 2);
    PutBackWaits(states[0], states[1], states[2], states[3]);
  }

  lemma Moves(states: seq<State>, steps: seq<Step>, k: nat)
    requires IsRun(BEHIND, 1, states, steps) && k < |steps|
    ensures Enabled(BEHIND, 1, states[k], steps[k]) && states[k + 1] == Apply(BEHIND, 1, states[k], steps[k])
  {
  }

  lemma FetchesFirst(s: State)
    requires s == Initial(0)
    ensures var t := Apply(BEHIND, 1, s, Fetch); t.batcher == [Msg(7, Warehouse, 0)] && t.con == Idle && t.next == 1
  {
  }

  lemma FetchesBad(s: State)
    requires s.batcher == [Msg(7, Warehouse, 0)] && s.con == Idle && s.next == 1
    ensures var t := Apply(BEHIND, 1, s, Fetch); t.con.Working? && t.con.win == s.batcher && t.batcher == []
  {
  }

  lemma PutsBack(s: State)
    requires Enabled(BEHIND, 1, s, FilterError) && s.con.win == [Msg(7, Warehouse, 0)] && s.batcher == []
    ensures Apply(BEHIND, 1, s, FilterError).batcher == s.con.win
  {
  }

  // A filter error puts event 7 back, the bad message behind it is published and its offset commits:
  // after a restart event 7 has no row, is nowhere in memory and is never read again.
  lemma OvertakingLosesEvent() returns (states: seq<State>, steps: seq<Step>)
    ensures IsRun(BEHIND, 1, states, steps)
    ensures var s := states[|steps|];
            && |steps| > 3 && steps[3] == PublishBad(true) && states[3].batcher == [Msg(7, Warehouse, 0)]
            && s.committed == s.next == |BEHIND| && 7 !in s.rows && Mem(s) == []
  {
    var toOffering := TO_OVERTAKEN;
    PutBackIsOvertaken();
    BareOffsetCommits(BEHIND, OVERTAKEN, 1);
    RestartsBehind();
    steps := toOffering + TO_COMMITTED + [Restart];
    LeadsThrough(BEHIND, 1, Initial(0), toOffering, OVERTAKEN, TO_COMMITTED, AfterBareCommit(OVERTAKEN, 1));
    LeadsThrough(BEHIND, 1, Initial(0), toOffering + TO_COMMITTED, AfterBareCommit(OVERTAKEN, 1), [Restart], LOST_EVENT);
    states := RunOf(BEHIND, 1, 0, steps, LOST_EVENT);
    OvertakenStates(states, steps);
  }

  // ---------------------------------------------------------- a failed DLQ publish is passed

  const BOTH_BAD: Topic := [Bad, Bad]

  const SECOND_PUBLISHED: State := Initial(0).(next := 2, con := Offering(Batch([], [1]), None), hist := History({}, {1}))

  lemma FirstPublishFails()
    ensures Leads(BOTH_BAD, 1, Initial(0), [Fetch, PublishBad(false), Fetch, PublishBad(true)], SECOND_PUBLISHED)
  {
  }

  // The first bad message fails to reach the DLQ, the second one's offset commits past it.
  lemma FailedPublishIsPassed() returns (states: seq<State>, steps: seq<Step>)
    ensures IsRun(BOTH_BAD, 1, states, steps)
    ensures |steps| > 1 && steps[1] == PublishBad(false) && states[1].con == Publishing(0)
    ensures var s := states[|steps|]; s.committed == 2 && 0 !in s.hist.dlq
  {
    FirstPublishFails();
    BareOffsetCommits(BOTH_BAD, SECOND_PUBLISHED, 1);
    var toOffering := [Fetch, PublishBad(false), Fetch, PublishBad(true)];
    steps := toOffering + TO_COMMITTED;
    LeadsThrough(BOTH_BAD, 1, Initial(0), toOffering, SECOND_PUBLISHED, TO_COMMITTED, AfterBareCommit(SECOND_PUBLISHED, 1));
    states := RunOf(BOTH_BAD, 1, 0, steps, AfterBareCommit(SECOND_PUBLISHED, 1));
    assert steps[0] == Fetch && states[1] == Apply(BOTH_BAD, 1, states[0], Fetch);
  }

  // ------------------------------------------------------ a lost broadcast is applied

  const SINGLE: Topic := [Good(7, Warehouse)]
  const EVENT: Msg := Msg(7, Warehouse, 0)

  const READY: State := Initial(0).(next := 1, con := Working([EVENT], 0, 1, [], None, Filtering(0, [])))

  const SENT_ONCE: Chain := Chain([Sent([EVENT], 0, false)], map[], [], map[], 1, 0)

  const RESTARTED: State :=
    Initial(0).(rows := map[7 := NEW_ROW], chain := SENT_ONCE, hist := History({0}, {}))

  const READY_AGAIN: State := RESTARTED.(next := 1, con := READY.con)

  const SENT_TWICE: Chain := SENT_ONCE.(sent := SENT_ONCE.sent + [Sent([EVENT], 1, true)], pending := 2)

  const RECORDED: State :=
    READY_AGAIN.(rows := map[7 := Row(SENT, Some(1), None)], chain := SENT_TWICE, nonce := Some(2),
                 con := Working([EVENT], 0, 1, [Inflight(1, [EVENT])], None, Sending([EVENT], 1)))

  const BOTH_MINED: Chain :=
    SENT_TWICE.(receipts := map[0 := Mined(map[7 := Applied]), 1 := Reverted], mined := [0, 1], state := map[7 := Applied], account := 2)

  const MISREPORTED: State :=
    RECORDED.(rows := map[7 := Row(FAILED, Some(1), None)], chain := BOTH_MINED, sweep := {(7, 1)})

  const TO_READY := [Fetch, Flush]
  const TO_SENDING := [FilterInsert(true, true), FilterDone(true), SeedNonce]
  const TO_RESTARTED := [Broadcast(1, false), Restart]
  const TO_SENDING_AGAIN := [FilterResend, FilterDone(true), SeedNonce]
  const TO_RECORDED := [Broadcast(1, true), RecordSent(true, true)]
  const TO_MINED := [Mine(0, false, _ => Accept), Mine(1, true, _ => Accept)]
  const TO_MISREPORTED := [SweepList({(7, 1)}), SweepWrite(Write(1, {7}, None))]

  const ABOUT_TO_SEND: State :=
    READY.(rows := map[7 := NEW_ROW], nonce := Some(0), con := READY.con.(phase := Sending([EVENT], 0)))

  const ABOUT_TO_RESEND: State :=
    READY_AGAIN.(nonce := Some(1), con := READY.con.(phase := Sending([EVENT], 0)))

  lemma FetchesEvent(s: State)
    requires s.next == 0 && s.con == Idle && s.batcher == []
    ensures Leads(SINGLE, 1, s, TO_READY, s.(next := 1, con := READY.con))
  {
    var s1 := s.(next := 1, batcher := [EVENT]);
    assert s1 == Apply(SINGLE, 1, s, Fetch);
    assert s.(next := 1, con := READY.con) == Apply(SINGLE, 1, s1, Flush);
  }

  lemma InsertsRow()
    ensures Leads(SINGLE, 1, READY, TO_SENDING, ABOUT_TO_SEND)
  {
  }

  lemma LosesBroadcast()
    ensures Leads(SINGLE, 1, ABOUT_TO_SEND, TO_RESTARTED, RESTARTED)
  {
    var s1 := ABOUT_TO_SEND.(chain := SENT_ONCE, batcher := [EVENT], con := Idle, hist := RESTARTED.hist);
    assert [EVENT][0..0 + 1] == [EVENT];
    assert s1 == Apply(SINGLE, 1, ABOUT_TO_SEND, Broadcast(1, false));
    assert RESTARTED == Apply(SINGLE, 1, s1, Restart);
  }

  lemma KeepsRow()
    ensures Leads(SINGLE, 1, READY_AGAIN, TO_SENDING_AGAIN, ABOUT_TO_RESEND)
  {
  }

  lemma RecordsBroadcast()
    ensures Leads(SINGLE, 1, ABOUT_TO_RESEND, TO_RECORDED, RECORDED)
  {
    var s1 := ABOUT_TO_RESEND.(chain := SENT_TWICE, nonce := Some(2), con := READY.con.(phase := Marking([EVENT], 0, 1, 1)));
    assert [EVENT][0..0 + 1] == [EVENT];
    assert s1 == Apply(SINGLE, 1, ABOUT_TO_RESEND, Broadcast(1, true));
    assert Ids([EVENT]) == {7};
    assert s1.con.inflight + [Inflight(1, [EVENT])] == [Inflight(1, [EVENT])];
    assert Execute(s1.rows, MarkSent({7}, 1)) == RECORDED.rows;
    assert RECORDED == Apply(SINGLE, 1, s1, RecordSent(true, true));
  }

  lemma MinesBoth()
    ensures Leads(SINGLE, 1, RECORDED, TO_MINED, RECORDED.(chain := BOTH_MINED))
  {
    var first, second := TO_MINED[0], TO_MINED[1];
    var s1 := RECORDED.(chain := SENT_TWICE.(receipts := map[0 := Mined(map[7 := Applied])], mined := [0], state := map[7 := Applied], account := 1));
    assert Ids([EVENT]) == {7};
    assert LogsOf(map[], {7}, first.judge) == map[7 := Applied];
    assert StateAfter(map[], {7}, first.judge) == map[7 := Applied];
    assert s1 == Apply(SINGLE, 1, RECORDED, first);
    assert RECORDED.(chain := BOTH_MINED) == Apply(SINGLE, 1, s1, second);
  }

  lemma SweepsRevertedCopy()
    ensures Leads(SINGLE, 1, RECORDED.(chain := BOTH_MINED), TO_MISREPORTED, MISREPORTED)
  {
    var s1 := RECORDED.(chain := BOTH_MINED, sweep := {(7, 1)});
    assert s1 == Apply(SINGLE, 1, RECORDED.(chain := BOTH_MINED), SweepList({(7, 1)}));
    assert Execute(s1.rows, MarkFailed({7}, Some(1))) == MISREPORTED.rows;
    assert MISREPORTED == Apply(SINGLE, 1, s1, SweepWrite(Write(1, {7}, None)));
  }

  lemma SendsTwice() returns (steps: seq<Step>)
    ensures Leads(SINGLE, 1, Initial(0), steps, RECORDED)
  {
    var one := TO_READY + TO_SENDING;
    var two := one + TO_RESTARTED;
    var three := two + TO_READY;
    var four := three + TO_SENDING_AGAIN;
    FetchesEvent(Initial(0));
    InsertsRow();
    LosesBroadcast();
    FetchesEvent(RESTARTED);
    KeepsRow();
    RecordsBroadcast();
    LeadsThrough(SINGLE, 1, Initial(0), TO_READY, READY, TO_SENDING, ABOUT_TO_SEND);
    LeadsThrough(SINGLE, 1, Initial(0), one, ABOUT_TO_SEND, TO_RESTARTED, RESTARTED);
    LeadsThrough(SINGLE, 1, Initial(0), two, RESTARTED, TO_READY, READY_AGAIN);
    LeadsThrough(SINGLE, 1, Initial(0), three, READY_AGAIN, TO_SENDING_AGAIN, ABOUT_TO_RESEND);
    LeadsThrough(SINGLE, 1, Initial(0), four, ABOUT_TO_RESEND, TO_RECORDED, RECORDED);
    steps := four + TO_RECORDED;
  }

  // A broadcast whose acceptance never arrived is mined and applied; its copy is recorded and
  // reverts, and the sweep marks the row FAILED without a reason.
  lemma AppliedButMarkedFailed() returns (states: seq<State>, steps: seq<Step>)
    ensures IsRun(SINGLE, 1, states, steps)
    ensures var s := states[|steps|];
            && s.rows == map[7 := Row(FAILED, Some(1), None)]
            && s.chain.state == map[7 := Applied] && s.hist.lost == {0} && LoggedAt(s.chain, 0, 7, Applied)
  {
    var toRecorded := SendsTwice();
    MinesBoth();
    SweepsRevertedCopy();
    LeadsThrough(SINGLE, 1, Initial(0), toRecorded, RECORDED, TO_MINED, RECORDED.(chain := BOTH_MINED));
    LeadsThrough(SINGLE, 1, Initial(0), toRecorded + TO_MINED, RECORDED.(chain := BOTH_MINED), TO_MISREPORTED, MISREPORTED);
    steps := toRecorded + TO_MINED + TO_MISREPORTED;
    states := RunOf(SINGLE, 1, 0, steps, MISREPORTED);
  }
}
