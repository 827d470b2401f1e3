// What becomes of every offset over a run: which messages are closed, which still wait in memory,
// which a restart forgot, and what has reached the DLQ
// (ledger-adapter/internal/consumer/{consumer,pipeline,flusher}.go).
module DeliveryOffsets {
  import opened Basics
  import opened EventStore
  import opened ActionChunks
  import opened ActionOutcomes
  import opened DeliveryMachine
  import opened DeliveryInvariants
  import opened DeliverySteps
  import opened DeliveryLedgerSteps
  import opened DeliveryChainSteps

  predicate IsGood(topic: Topic, o: nat) {
    o < |topic| && topic[o].Good?
  }

  predicate Waits(topic: Topic, s: State, o: nat)
    requires IsGood(topic, o)
  {
    MsgAt(topic, o) in Mem(s)
  }

  // A restart forgets a message that waits below the mark: its offset is never read again.
  ghost predicate Forgets(topic: Topic, s: State, st: Step, o: nat)
    requires IsGood(topic, o)
  {
    st.Restart? && o < s.committed && Waits(topic, s, o) && !Closed(s.rows, topic[o].id)
  }

  // The DLQ publish of bad offset o succeeds while m, put back, waits in the batcher.
  predicate PublishesOver(s: State, st: Step, o: nat, m: Msg) {
    st == PublishBad(true) && s.con == Publishing(o) && m in s.batcher
  }

  // ---------------------------------------------------------------- one step at a time

  lemma StateKeepsInv(topic: Topic, window: nat, states: seq<State>, steps: seq<Step>, k: nat)
    requires IsRun(topic, window, states, steps) && k < |steps|
    ensures Inv(topic, window, states[k]) && Enabled(topic, window, states[k], steps[k])
    ensures states[k + 1] == Apply(topic, window, states[k], steps[k])
  {
    RunKeepsInv(topic, window, states, steps, k);
  }

  lemma MemoryOrigin(topic: Topic, window: nat, s: State, st: Step, m: Msg)
    requires MemInv(topic, s) && Enabled(topic, window, s, st) && m in Mem(Apply(topic, window, s, st))
    ensures !st.Restart? && !Finishing(s, st)
    ensures m in Mem(s) || (st.Fetch? && m.off == s.next)
  {
    MemoryStep(topic, window, s, st);
  }

  lemma FateStep(topic: Topic, window: nat, s: State, st: Step, o: nat)
    requires Inv(topic, window, s) && Enabled(topic, window, s, st) && IsGood(topic, o)
    requires o < Apply(topic, window, s, st).next
    ensures var s' := Apply(topic, window, s, st);
            || Closed(s'.rows, topic[o].id) || Waits(topic, s', o) || Forgets(topic, s, st, o)
            || (o < s.next && !Closed(s.rows, topic[o].id) && !Waits(topic, s, o))
  {
    StepAdvances(topic, window, s, st);
    MarkMoves(topic, window, s, st);
    if Waits(topic, s, o) {
      WaitingStep(topic, window, s, st, o);
    } else if o == s.next {
      MemoryStep(topic, window, s, st);
    }
  }

  lemma WaitingStep(topic: Topic, window: nat, s: State, st: Step, o: nat)
    requires MemInv(topic, s) && PhaseInv(s) && Enabled(topic, window, s, st) && IsGood(topic, o) && Waits(topic, s, o)
    ensures st.Restart? || Waits(topic, Apply(topic, window, s, st), o) || Closed(s.rows, topic[o].id)
  {
    MemoryStep(topic, window, s, st);
    if Finishing(s, st) {
      FinishingCloses(s, st);
      assert Mem(s) == s.con.win;
    }
  }

  // A batch with an offset at or beyond a waiting message: it was so before, or it is a bad offset
  // published over that message.
  lemma AheadStep(topic: Topic, window: nat, s: State, st: Step, b: Batch, o: nat, m: Msg)
    requires MemInv(topic, s) && Enabled(topic, window, s, st)
    requires IsBatch(Apply(topic, window, s, st), b) && o in b.offs && m in Mem(Apply(topic, window, s, st)) && m.off <= o
    ensures (IsBatch(s, b) && m in Mem(s)) || PublishesOver(s, st, o, m)
  {
    MemoryOrigin(topic, window, s, st, m);
    BatchOrigin(topic, window, s, st, b);
    if !IsBatch(s, b) {
      PublishedOver(topic, window, s, st, b, o, m);
    }
  }

  lemma PublishedOver(topic: Topic, window: nat, s: State, st: Step, b: Batch, o: nat, m: Msg)
    requires Enabled(topic, window, s, st) && st.PublishBad? && b == Batch([], [s.con.off]) && o in b.offs && m in Mem(s)
    requires IsBatch(Apply(topic, window, s, st), b) && !IsBatch(s, b)
    ensures PublishesOver(s, st, o, m)
  {
  }

  // The mark passes a waiting message only by a commit of an offset at or beyond it.
  lemma MarkStep(topic: Topic, window: nat, s: State, st: Step, m: Msg)
    requires MemInv(topic, s) && Enabled(topic, window, s, st)
    requires m in Mem(Apply(topic, window, s, st)) && m.off < Apply(topic, window, s, st).committed
    ensures m in Mem(s)
    ensures || m.off < s.committed
            || (st.Commit? && exists o :: o in s.pipe.current.value.batch.offs && m.off <= o < Apply(topic, window, s, st).committed)
  {
    MemoryOrigin(topic, window, s, st, m);
    MarkMoves(topic, window, s, st);
  }

  // ------------------------------------------------------------------------- over a run

  lemma {:induction false} Ascends(marks: seq<nat>, j: nat, k: nat)
    requires j <= k < |marks| && forall i: nat :: i + 1 < |marks| ==> marks[i] <= marks[i + 1]
    ensures marks[j] <= marks[k]
    decreases k
  {
    if j < k {
      Ascends(marks, j, k - 1);
      var i: nat := k - 1;
      assert marks[i] <= marks[i + 1];
    }
  }

  function Marks(states: seq<State>): (r: seq<nat>)
    ensures |r| == |states| && forall i :: 0 <= i < |states| ==> r[i] == states[i].committed
  {
    seq(|states|, i requires 0 <= i < |states| => states[i].committed)
  }

  lemma MarkRises(topic: Topic, window: nat, states: seq<State>, steps: seq<Step>, k: nat)
    requires IsRun(topic, window, states, steps) && k < |steps|
    ensures states[k].committed <= states[k + 1].committed
  {
    MarkMoves(topic, window, states[k], steps[k]);
  }

  lemma MarkOnlyRises(topic: Topic, window: nat, states: seq<State>, steps: seq<Step>, j: nat, k: nat)
    requires IsRun(topic, window, states, steps) && j <= k < |states|
    ensures states[j].committed <= states[k].committed
  {
    forall i: nat | i + 1 < |Marks(states)|
      ensures Marks(states)[i] <= Marks(states)[i + 1]
    {
      MarkRises(topic, window, states, steps, i);
    }
    Ascends(Marks(states), j, k);
  }

  // A message that is away at one point stays away if it can only come back from the mark upwards.
  lemma {:induction false} StaysAway(waits: seq<bool>, marks: seq<nat>, j: nat, k: nat, o: nat)
    requires j <= k < |waits| == |marks| && !waits[j]
    requires forall i: nat :: j <= i && i + 1 < |waits| && waits[i + 1] ==> waits[i] || marks[i] <= o
    requires forall i :: j <= i < |marks| ==> o < marks[i]
    ensures !waits[k]
    decreases k
  {
    if j < k {
      StaysAway(waits, marks, j, k - 1, o);
      var i: nat := k - 1;
      assert i + 1 < |waits| && o < marks[i];
    }
  }

  function WaitsOver(topic: Topic, states: seq<State>, o: nat): (r: seq<bool>)
    requires IsGood(topic, o)
    ensures |r| == |states| && forall i :: 0 <= i < |states| ==> r[i] == Waits(topic, states[i], o)
  {
    seq(|states|, i requires 0 <= i < |states| => Waits(topic, states[i], o))
  }

  // What a restart forgot stays forgotten.
  lemma ForgottenForGood(topic: Topic, window: nat, states: seq<State>, steps: seq<Step>, j: nat, k: nat, o: nat)
    requires IsRun(topic, window, states, steps) && j < k < |states|
    requires IsGood(topic, o) && Forgets(topic, states[j], steps[j], o)
    ensures !Waits(topic, states[k], o)
  {
    RestartForgets(topic, window, states, steps, j, o);
    ComesBackFromMark(topic, window, states, steps, o);
    forall i | j < i < |states|
      ensures o < Marks(states)[i]
    {
      MarkOnlyRises(topic, window, states, steps, j, i);
    }
    StaysAway(WaitsOver(topic, states, o), Marks(states), j + 1, k, o);
  }

  lemma RestartForgets(topic: Topic, window: nat, states: seq<State>, steps: seq<Step>, j: nat, o: nat)
    requires IsRun(topic, window, states, steps) && j < |steps| && IsGood(topic, o) && steps[j].Restart?
    ensures !WaitsOver(topic, states, o)[j + 1]
  {
    if Waits(topic, states[j + 1], o) {
      WaitedBefore(topic, window, states, steps, j + 1, o);
    }
  }

  lemma ComesBackFromMark(topic: Topic, window: nat, states: seq<State>, steps: seq<Step>, o: nat)
    requires IsRun(topic, window, states, steps) && IsGood(topic, o)
    ensures forall i: nat :: i + 1 < |states| && WaitsOver(topic, states, o)[i + 1] ==> WaitsOver(topic, states, o)[i] || Marks(states)[i] <= o
  {
    forall i: nat | i + 1 < |states| && WaitsOver(topic, states, o)[i + 1]
      ensures WaitsOver(topic, states, o)[i] || Marks(states)[i] <= o
    {
      WaitedBefore(topic, window, states, steps, i + 1, o);
    }
  }

  lemma WaitedBefore(topic: Topic, window: nat, states: seq<State>, steps: seq<Step>, k: nat, o: nat)
    requires IsRun(topic, window, states, steps) && 0 < k < |states| && IsGood(topic, o) && Waits(topic, states[k], o)
    ensures !steps[k - 1].Restart? && (Waits(topic, states[k - 1], o) || states[k - 1].committed <= o)
  {
    StateKeepsInv(topic, window, states, steps, k - 1);
    MemoryOrigin(topic, window, states[k - 1], steps[k - 1], MsgAt(topic, o));
  }

  // Every message ever read is closed, waits in memory, or was forgotten by a restart while it waited
  // below the mark; and one that was forgotten never waits again.
  lemma {:induction false} OffsetFate(topic: Topic, window: nat, states: seq<State>, steps: seq<Step>, k: nat, o: nat)
    requires IsRun(topic, window, states, steps) && k < |states| && IsGood(topic, o) && o < states[k].next
    ensures Closed(states[k].rows, topic[o].id) || (Waits(topic, states[k], o) <==> !exists j :: 0 <= j < k && Forgets(topic, states[j], steps[j], o))
    decreases k
  {
    if Waits(topic, states[k], o) {
      forall j | 0 <= j < k
        ensures !Forgets(topic, states[j], steps[j], o)
      {
        if Forgets(topic, states[j], steps[j], o) {
          ForgottenForGood(topic, window, states, steps, j, k, o);
        }
      }
    } else if !Closed(states[k].rows, topic[o].id) && k > 0 {
      StateKeepsInv(topic, window, states, steps, k - 1);
      FateStep(topic, window, states[k - 1], steps[k - 1], o);
      if !Forgets(topic, states[k - 1], steps[k - 1], o) {
        OffsetFate(topic, window, states, steps, k - 1, o);
      }
    }
  }

  // An offset in the pipeline is ahead of a message still in memory exactly when it is a bad one that
  // was published while that message waited in the batcher.
  lemma OvertakesIff(topic: Topic, window: nat, states: seq<State>, steps: seq<Step>, k: nat, b: Batch, o: nat, m: Msg)
    requires IsRun(topic, window, states, steps) && k < |states|
    requires IsBatch(states[k], b) && o in b.offs && m in Mem(states[k])
    ensures m.off < o <==> exists j :: 0 <= j < k && PublishesOver(states[j], steps[j], o, m)
  {
    if m.off <= o {
      AheadWasPublished(topic, window, states, steps, k, b, o, m);
    }
    forall j | 0 <= j < k && PublishesOver(states[j], steps[j], o, m)
      ensures m.off < o
    {
      StateKeepsInv(topic, window, states, steps, j);
      WaitsBehind(topic, states[j], m);
    }
  }

  lemma WaitsBehind(topic: Topic, s: State, m: Msg)
    requires MemInv(topic, s) && s.con.Publishing? && m in s.batcher
    ensures m.off < s.con.off
  {
  }

  lemma {:induction false} AheadWasPublished(topic: Topic, window: nat, states: seq<State>, steps: seq<Step>, k: nat, b: Batch, o: nat, m: Msg)
    requires IsRun(topic, window, states, steps) && k < |states|
    requires IsBatch(states[k], b) && o in b.offs && m in Mem(states[k]) && m.off <= o
    ensures exists j :: 0 <= j < k && PublishesOver(states[j], steps[j], o, m)
    decreases k
  {
    if k > 0 {
      StateKeepsInv(topic, window, states, steps, k - 1);
      AheadStep(topic, window, states[k - 1], steps[k - 1], b, o, m);
      if !PublishesOver(states[k - 1], steps[k - 1], o, m) {
        AheadWasPublished(topic, window, states, steps, k - 1, b, o, m);
      }
    }
  }

  // Before state k a bad offset below the bound was published over m.
  ghost predicate Overtaken(states: seq<State>, steps: seq<Step>, k: nat, m: Msg, bound: nat)
    requires k <= |steps| && k <= |states|
  {
    exists j, o: nat :: 0 <= j < k && PublishesOver(states[j], steps[j], o, m) && o < bound
  }

  // What never begins without its reason, and whose reason stays, has its reason whenever it holds.
  lemma {:induction false} ReasonHolds(holds: seq<bool>, reason: seq<bool>, k: nat)
    requires k < |holds| == |reason| && !holds[0]
    requires forall i: nat :: i + 1 < |holds| && holds[i + 1] ==> holds[i] || reason[i + 1]
    requires forall i: nat :: i + 1 < |holds| && reason[i] ==> reason[i + 1]
    ensures holds[k] ==> reason[k]
    decreases k
  {
    if k > 0 {
      ReasonHolds(holds, reason, k - 1);
      var i: nat := k - 1;
      assert reason[i] ==> reason[i + 1];
    }
  }

  ghost predicate IsBelowMark(s: State, m: Msg) {
    m in Mem(s) && m.off < s.committed
  }

  lemma PassedWasOvertaken(topic: Topic, window: nat, states: seq<State>, steps: seq<Step>, k: nat, m: Msg)
    requires IsRun(topic, window, states, steps) && k < |states| && IsBelowMark(states[k], m)
    ensures Overtaken(states, steps, k, m, states[k].committed)
  {
    NothingWaitsAtStart(topic, window, states, steps);
    PassingHasReason(topic, window, states, steps, m);
    ReasonsStay(topic, window, states, steps, m);
    ReasonHolds(BelowMarkOver(states, m), OvertakenOver(states, steps, m), k);
  }

  ghost function BelowMarkOver(states: seq<State>, m: Msg): (r: seq<bool>)
    ensures |r| == |states| && forall i :: 0 <= i < |states| ==> r[i] == IsBelowMark(states[i], m)
  {
    seq(|states|, i requires 0 <= i < |states| => IsBelowMark(states[i], m))
  }

  ghost function OvertakenOver(states: seq<State>, steps: seq<Step>, m: Msg): (r: seq<bool>)
    requires |states| == |steps| + 1
    ensures |r| == |states| && forall i :: 0 <= i < |states| ==> r[i] == Overtaken(states, steps, i, m, states[i].committed)
  {
    seq(|states|, i requires 0 <= i < |states| => Overtaken(states, steps, i, m, states[i].committed))
  }

  lemma PassingHasReason(topic: Topic, window: nat, states: seq<State>, steps: seq<Step>, m: Msg)
    requires IsRun(topic, window, states, steps)
    ensures forall i: nat :: i + 1 < |states| && BelowMarkOver(states, m)[i + 1] ==> BelowMarkOver(states, m)[i] || OvertakenOver(states, steps, m)[i + 1]
  {
    forall i: nat | i + 1 < |states| && BelowMarkOver(states, m)[i + 1]
      ensures BelowMarkOver(states, m)[i] || OvertakenOver(states, steps, m)[i + 1]
    {
      var before := PassedBefore(topic, window, states, steps, i + 1, m);
    }
  }

  lemma ReasonsStay(topic: Topic, window: nat, states: seq<State>, steps: seq<Step>, m: Msg)
    requires IsRun(topic, window, states, steps)
    ensures forall i: nat :: i + 1 < |states| && OvertakenOver(states, steps, m)[i] ==> OvertakenOver(states, steps, m)[i + 1]
  {
    forall i: nat | i + 1 < |states| && OvertakenOver(states, steps, m)[i]
      ensures OvertakenOver(states, steps, m)[i + 1]
    {
      StillOvertaken(topic, window, states, steps, i, i + 1, m);
    }
  }

  lemma NothingWaitsAtStart(topic: Topic, window: nat, states: seq<State>, steps: seq<Step>)
    requires IsRun(topic, window, states, steps)
    ensures Mem(states[0]) == []
  {
  }

  lemma StillOvertaken(topic: Topic, window: nat, states: seq<State>, steps: seq<Step>, i: nat, k: nat, m: Msg)
    requires IsRun(topic, window, states, steps) && i <= k < |states| && Overtaken(states, steps, i, m, states[i].committed)
    ensures Overtaken(states, steps, k, m, states[k].committed)
  {
    MarkOnlyRises(topic, window, states, steps, i, k);
    var j, o: nat :| 0 <= j < i && PublishesOver(states[j], steps[j], o, m) && o < states[i].committed;
    assert PublishesOver(states[j], steps[j], o, m) && o < states[k].committed;
  }

  lemma PassedBefore(topic: Topic, window: nat, states: seq<State>, steps: seq<Step>, k: nat, m: Msg) returns (before: bool)
    requires IsRun(topic, window, states, steps) && 0 < k < |states| && IsBelowMark(states[k], m)
    ensures before ==> IsBelowMark(states[k - 1], m)
    ensures !before ==> Overtaken(states, steps, k, m, states[k].committed)
  {
    var s, st := states[k - 1], steps[k - 1];
    StateKeepsInv(topic, window, states, steps, k - 1);
    MarkStep(topic, window, s, st, m);
    before := m.off < s.committed;
    if !before {
      var b := s.pipe.current.value.batch;
      var o: nat :| o in b.offs && m.off <= o < states[k].committed;
      assert IsBatch(s, b);
      AheadWasPublished(topic, window, states, steps, k - 1, b, o, m);
      var j :| 0 <= j < k - 1 && PublishesOver(states[j], steps[j], o, m);
      assert PublishesOver(states[j], steps[j], o, m) && o < states[k].committed;
    }
  }

  // ------------------------------------------------------------------------ main results

  // A message below the mark is closed, unless a bad offset below the mark was published while that
  // very message, put back, waited in the batcher.
  lemma MarkNeverPassesOpenMessage(topic: Topic, window: nat, states: seq<State>, steps: seq<Step>, k: nat, o: nat)
    requires IsRun(topic, window, states, steps) && k < |states| && IsGood(topic, o) && o < states[k].committed
    ensures Closed(states[k].rows, topic[o].id) || Overtaken(states, steps, k, MsgAt(topic, o), states[k].committed)
  {
    RunKeepsInv(topic, window, states, steps, k);
    OffsetFate(topic, window, states, steps, k, o);
    if Closed(states[k].rows, topic[o].id) {
    } else if Waits(topic, states[k], o) {
      PassedWasOvertaken(topic, window, states, steps, k, MsgAt(topic, o));
    } else {
      var j :| 0 <= j < k && Forgets(topic, states[j], steps[j], o);
      PassedWasOvertaken(topic, window, states, steps, j, MsgAt(topic, o));
      StillOvertaken(topic, window, states, steps, j, k, MsgAt(topic, o));
    }
  }

  // The mark a commit sets leaves an open message behind it exactly when one waits in memory that is
  // not yet passed and was published over by one of the batch's offsets. With an empty batcher at
  // every publish there is none.
  lemma CommitLeavesOpenIff(topic: Topic, window: nat, states: seq<State>, steps: seq<Step>, k: nat)
    requires IsRun(topic, window, states, steps) && k < |steps| && steps[k].Commit? && steps[k].applied && states[k].pipe.current.Some?
    ensures (exists o :: states[k].committed <= o < states[k + 1].committed && IsGood(topic, o) && !Closed(states[k + 1].rows, topic[o].id))
            <==> exists m :: m in Mem(states[k]) && states[k].committed <= m.off && !Closed(states[k].rows, m.id)
                             && IsPassed(states, steps, k, m, states[k].pipe.current.value.batch.offs)
  {
    if o :| states[k].committed <= o < states[k + 1].committed && IsGood(topic, o) && !Closed(states[k + 1].rows, topic[o].id) {
      OpenWasPassed(topic, window, states, steps, k, o);
    }
    if m :| m in Mem(states[k]) && states[k].committed <= m.off && !Closed(states[k].rows, m.id)
            && IsPassed(states, steps, k, m, states[k].pipe.current.value.batch.offs) {
      PassedStaysOpen(topic, window, states, steps, k, m);
    }
  }

  lemma OpenWasPassed(topic: Topic, window: nat, states: seq<State>, steps: seq<Step>, k: nat, o: nat)
    requires IsRun(topic, window, states, steps) && k < |steps| && steps[k].Commit? && steps[k].applied && states[k].pipe.current.Some?
    requires states[k].committed <= o < states[k + 1].committed && IsGood(topic, o) && !Closed(states[k + 1].rows, topic[o].id)
    ensures var m := MsgAt(topic, o);
            m in Mem(states[k]) && !Closed(states[k].rows, m.id) && IsPassed(states, steps, k, m, states[k].pipe.current.value.batch.offs)
  {
    var b := states[k].pipe.current.value.batch;
    CommitMoves(topic, window, states, steps, k);
    CoveredWaits(topic, states[k], o, b);
    var x: nat :| x in b.offs && states[k + 1].committed == x + 1;
    PassedByBatch(topic, window, states, steps, k, b, x, MsgAt(topic, o));
  }

  lemma PassedStaysOpen(topic: Topic, window: nat, states: seq<State>, steps: seq<Step>, k: nat, m: Msg)
    requires IsRun(topic, window, states, steps) && k < |steps| && steps[k].Commit? && steps[k].applied && states[k].pipe.current.Some?
    requires m in Mem(states[k]) && states[k].committed <= m.off && !Closed(states[k].rows, m.id)
    requires IsPassed(states, steps, k, m, states[k].pipe.current.value.batch.offs)
    ensures states[k].committed <= m.off < states[k + 1].committed && IsGood(topic, m.off) && !Closed(states[k + 1].rows, topic[m.off].id)
  {
    var b := states[k].pipe.current.value.batch;
    CommitMoves(topic, window, states, steps, k);
    var j, x: nat :| 0 <= j < k && x in b.offs && PublishesOver(states[j], steps[j], x, m);
    OvertakesIff(topic, window, states, steps, k, b, x, m);
    MemoryIsGood(topic, states[k], m);
  }

  lemma PassedByBatch(topic: Topic, window: nat, states: seq<State>, steps: seq<Step>, k: nat, b: Batch, x: nat, m: Msg)
    requires IsRun(topic, window, states, steps) && k < |states| && k <= |steps|
    requires IsBatch(states[k], b) && x in b.offs && m in Mem(states[k]) && m.off <= x
    ensures IsPassed(states, steps, k, m, b.offs)
  {
    AheadWasPublished(topic, window, states, steps, k, b, x, m);
    var j :| 0 <= j < k && PublishesOver(states[j], steps[j], x, m);
    assert x in b.offs && PublishesOver(states[j], steps[j], x, m);
  }

  ghost predicate IsPassed(states: seq<State>, steps: seq<Step>, k: nat, m: Msg, offs: seq<nat>)
    requires k <= |steps| && k <= |states|
  {
    exists j, x: nat :: 0 <= j < k && x in offs && PublishesOver(states[j], steps[j], x, m)
  }

  lemma CommitMoves(topic: Topic, window: nat, states: seq<State>, steps: seq<Step>, k: nat)
    requires IsRun(topic, window, states, steps) && k < |steps| && steps[k].Commit? && steps[k].applied && states[k].pipe.current.Some?
    ensures var b := states[k].pipe.current.value.batch;
            && IsBatch(states[k], b) && MemInv(topic, states[k]) && CoverInv(topic, states[k])
            && states[k + 1].rows == states[k].rows && states[k + 1].committed == HighWater(b.offs, states[k].committed)
  {
    RunKeepsInv(topic, window, states, steps, k);
  }

  lemma CoveredWaits(topic: Topic, s: State, o: nat, b: Batch)
    requires MemInv(topic, s) && CoverInv(topic, s) && IsBatch(s, b) && IsGood(topic, o) && !Closed(s.rows, topic[o].id)
    requires s.committed <= o < HighWater(b.offs, s.committed)
    ensures Waits(topic, s, o)
  {
  }

  lemma MemoryIsGood(topic: Topic, s: State, m: Msg)
    requires MemInv(topic, s) && m in Mem(s)
    ensures IsGood(topic, m.off) && topic[m.off].id == m.id && MsgAt(topic, m.off) == m
  {
  }

  // ------------------------------------------------------------------------------ the DLQ

  predicate PublishOf(s: State, st: Step, o: nat, ok: bool) {
    st == PublishBad(ok) && s.con == Publishing(o)
  }

  lemma DlqStep(topic: Topic, window: nat, s: State, st: Step, o: nat)
    requires Inv(topic, window, s) && Enabled(topic, window, s, st) && o < |topic| && topic[o].Bad?
    ensures var s' := Apply(topic, window, s, st);
            && s.hist.dlq <= s'.hist.dlq
            && (o in s'.hist.dlq <==> o in s.hist.dlq || PublishOf(s, st, o, true))
            && (o < s'.next ==> o in s'.hist.dlq || BadPending(s', o) || PublishOf(s, st, o, false)
                                || (o < s.next && o !in s.hist.dlq && !BadPending(s, o)))
  {
    DlqGrows(topic, window, s, st, o);
    if o < Apply(topic, window, s, st).next {
      BadKeepsWaiting(topic, window, s, st, o);
    }
  }

  lemma DlqGrows(topic: Topic, window: nat, s: State, st: Step, o: nat)
    requires MemInv(topic, s) && PhaseInv(s) && PipeInv(s) && OrderInv(topic, s) && Enabled(topic, window, s, st) && o < |topic| && topic[o].Bad?
    ensures var s' := Apply(topic, window, s, st);
            s.hist.dlq <= s'.hist.dlq && (o in s'.hist.dlq <==> o in s.hist.dlq || PublishOf(s, st, o, true))
  {
    if st.RecordFailure? {
      ChunkIsGood(topic, s);
    } else if st.ConfirmWrite? {
      CurrentIsGood(topic, s, st.j);
    } else {
      DlqStays(topic, window, s, st);
    }
  }

  lemma DlqStays(topic: Topic, window: nat, s: State, st: Step)
    requires Enabled(topic, window, s, st) && !st.RecordFailure? && !st.ConfirmWrite?
    ensures Apply(topic, window, s, st).hist.dlq == s.hist.dlq + if st == PublishBad(true) then {s.con.off} else {}
  {
  }

  lemma ChunkIsGood(topic: Topic, s: State)
    requires MemInv(topic, s) && PhaseInv(s) && ChunkInRange(s)
    ensures forall m :: m in Chunk(s) ==> MsgOk(topic, m)
  {
    forall m | m in Chunk(s)
      ensures MsgOk(topic, m)
    {
      assert m in Pend(s.con.phase);
      assert m in s.con.win && Mem(s) == s.con.win + s.batcher;
    }
  }

  lemma CurrentIsGood(topic: Topic, s: State, j: nat)
    requires PipeInv(s) && OrderInv(topic, s) && ConfirmsTx(s, j)
    ensures forall m :: m in s.pipe.current.value.batch.txs[j].msgs ==> MsgOk(topic, m)
  {
    var b := s.pipe.current.value.batch;
    assert IsBatch(s, b) && b.txs[j] in b.txs;
    assert InflightOk(s.rows, s.chain.sent, b.txs[j]);
  }

  lemma BadKeepsWaiting(topic: Topic, window: nat, s: State, st: Step, o: nat)
    requires MemInv(topic, s) && BadInv(s) && Enabled(topic, window, s, st) && o < |topic| && topic[o].Bad?
    requires o < Apply(topic, window, s, st).next
    ensures (st.Fetch? && o == s.next) || BadPending(s, o) ==> BadPending(Apply(topic, window, s, st), o) || (exists ok :: PublishOf(s, st, o, ok))
    ensures o < s.next || (st.Fetch? && o == s.next)
  {
    ConsumerMoves(topic, window, s, st);
    MarkMoves(topic, window, s, st);
    if st.Fetch? || st.Flush? || st.Offer? || st.PublishBad? || st.Restart? {
      BadTurns(topic, window, s, st);
      if st.PublishBad? {
        assert PublishOf(s, st, s.con.off, st.ok);
      }
    }
  }

  // An unparsable message is in the DLQ exactly when a publish of it succeeded; one below the mark
  // that is not there had a publish of it fail.
  lemma {:induction false} BadMessagesReachDlq(topic: Topic, window: nat, states: seq<State>, steps: seq<Step>, k: nat, o: nat)
    requires IsRun(topic, window, states, steps) && k < |states| && o < |topic| && topic[o].Bad?
    ensures o in states[k].hist.dlq <==> exists j :: 0 <= j < k && PublishOf(states[j], steps[j], o, true)
    ensures o < states[k].committed && o !in states[k].hist.dlq ==> exists j :: 0 <= j < k && PublishOf(states[j], steps[j], o, false)
    decreases k
  {
    RunKeepsInv(topic, window, states, steps, k);
    ReadMeansPublished(topic, window, states, steps, k, o);
  }

  lemma {:induction false} ReadMeansPublished(topic: Topic, window: nat, states: seq<State>, steps: seq<Step>, k: nat, o: nat)
    requires IsRun(topic, window, states, steps) && k < |states| && o < |topic| && topic[o].Bad?
    ensures o in states[k].hist.dlq <==> exists j :: 0 <= j < k && PublishOf(states[j], steps[j], o, true)
    ensures o < states[k].next && o !in states[k].hist.dlq && !BadPending(states[k], o) ==> exists j :: 0 <= j < k && PublishOf(states[j], steps[j], o, false)
    decreases k
  {
    if k == 0 {
      assert states[0].hist.dlq == {} && states[0].next == 0;
    } else {
      ReadMeansPublished(topic, window, states, steps, k - 1, o);
      DlqAt(topic, window, states, steps, k, o);
    }
  }

  lemma DlqAt(topic: Topic, window: nat, states: seq<State>, steps: seq<Step>, k: nat, o: nat)
    requires IsRun(topic, window, states, steps) && 0 < k < |states| && o < |topic| && topic[o].Bad?
    ensures o in states[k].hist.dlq <==> o in states[k - 1].hist.dlq || PublishOf(states[k - 1], steps[k - 1], o, true)
    ensures o < states[k].next ==> o in states[k].hist.dlq || BadPending(states[k], o) || PublishOf(states[k - 1], steps[k - 1], o, false)
                                   || (o < states[k - 1].next && o !in states[k - 1].hist.dlq && !BadPending(states[k - 1], o))
  {
    StateKeepsInv(topic, window, states, steps, k - 1);
    DlqStep(topic, window, states[k - 1], steps[k - 1], o);
  }

  ghost predicate InDlq(topic: Topic, dlq: set<nat>, id: Id) {
    exists o :: o in dlq && IsGood(topic, o) && topic[o].id == id
  }

  // An event that failed without ever being broadcast was in the DLQ before its row was FAILED.
  lemma {:induction false} FailedUnsentReachedDlq(topic: Topic, window: nat, states: seq<State>, steps: seq<Step>, k: nat, id: Id)
    requires IsRun(topic, window, states, steps) && k < |states|
    requires id in states[k].rows && states[k].rows[id].status == FAILED && states[k].rows[id].tx == None
    ensures InDlq(topic, states[k].hist.dlq, id)
    decreases k
  {
    if k > 0 {
      var s, st := states[k - 1], steps[k - 1];
      StateKeepsInv(topic, window, states, steps, k - 1);
      DlqOnlyGrows(topic, window, s, st);
      if id in s.rows && s.rows[id].status == FAILED && s.rows[id].tx == None {
        FailedUnsentReachedDlq(topic, window, states, steps, k - 1, id);
        var o :| o in s.hist.dlq && IsGood(topic, o) && topic[o].id == id;
        assert o in states[k].hist.dlq;
      } else {
        FailsUnsent(topic, window, s, st, id);
      }
    }
  }

  lemma DlqOnlyGrows(topic: Topic, window: nat, s: State, st: Step)
    requires Enabled(topic, window, s, st)
    ensures s.hist.dlq <= Apply(topic, window, s, st).hist.dlq
  {
    if !st.RecordFailure? && !st.ConfirmWrite? {
      DlqStays(topic, window, s, st);
    }
  }

  lemma FailsUnsent(topic: Topic, window: nat, s: State, st: Step, id: Id)
    requires Inv(topic, window, s) && Enabled(topic, window, s, st)
    requires var rows := Apply(topic, window, s, st).rows; id in rows && rows[id].status == FAILED && rows[id].tx == None
    requires !(id in s.rows && s.rows[id].status == FAILED && s.rows[id].tx == None)
    ensures InDlq(topic, Apply(topic, window, s, st).hist.dlq, id)
  {
    RowsMove(topic, window, s, st);
    WritesAim(topic, window, s, st);
    OnlyChunksFailUnsent(s, st, Apply(topic, window, s, st).rows, id);
    ChunkIsGood(topic, s);
    var m :| m in Chunk(s) && m.id == id;
    PublishedFirst(topic, window, s, st, m);
    assert m.off in Apply(topic, window, s, st).hist.dlq && IsGood(topic, m.off) && topic[m.off].id == id;
  }

  lemma OnlyChunksFailUnsent(s: State, st: Step, rows': Rows, id: Id)
    requires PhaseInv(s)
    requires rows' == s.rows || (StepStatement(s, st).Some? && rows' == Execute(s.rows, StepStatement(s, st).value))
    requires SettlingWrite(st).Some? ==> AimsAt(s.rows, SettlingWrite(st).value)
    requires id in rows' && rows'[id].status == FAILED && rows'[id].tx == None
    requires !(id in s.rows && s.rows[id].status == FAILED && s.rows[id].tx == None)
    ensures st.RecordFailure? && ChunkInRange(s) && id in Ids(Chunk(s)) && rows' != s.rows
  {
  }

  lemma PublishedFirst(topic: Topic, window: nat, s: State, st: Step, m: Msg)
    requires Enabled(topic, window, s, st) && st.RecordFailure? && Apply(topic, window, s, st).rows != s.rows && m in Chunk(s)
    ensures m.off in Apply(topic, window, s, st).hist.dlq
  {
  }
}
