// The consumer loop's steps as they run: the batcher, a message, a tick
// (ledger-adapter/internal/consumer/{batcher,consumer}.go, Submit of pipeline.go).
module AdapterConsumer {
  import opened Basics
  import opened EventStore
  import opened ActionChunks
  import opened DeliveryMachine
  import opened DeliveryInvariants
  import opened DeliverySteps
  import opened AdapterWorld
  import opened AdapterFlusher
  import opened DeliveryOffsets

  // firstAt is None while the batcher is empty.
  class Batcher {
    const maxSize: nat
    const timeout: nat
    var msgs: seq<Msg>
    var firstAt: Option<nat>

    constructor (size: nat, wait: nat)
      ensures maxSize == size && timeout == wait && msgs == [] && firstAt == None
    {
      maxSize, timeout, msgs, firstAt := size, wait, [], None;
    }

    ghost predicate Valid()
      reads this
    {
      msgs == [] <==> firstAt == None
    }

    method Add(m: Msg, now: nat)
      requires Valid()
      modifies this
      ensures Valid() && msgs == old(msgs) + [m]
      ensures firstAt == if old(msgs) == [] then Some(now) else old(firstAt)
    {
      if |msgs| == 0 {
        firstAt := Some(now);
      }
      msgs := msgs + [m];
    }

    // Whether a batcher holding ms since first is to be drained; now is not before first: the clock is monotonic.
    ghost predicate Due(ms: seq<Msg>, first: Option<nat>, now: nat) {
      ms != [] && (|ms| >= maxSize || (first.Some? && now >= first.value + timeout))
    }

    method ShouldFlush(now: nat) returns (flush: bool)
      requires Valid()
      ensures flush <==> Due(msgs, firstAt, now)
      ensures flush <==> |msgs| > 0 && (|msgs| >= maxSize || now - firstAt.value >= timeout)
    {
      if |msgs| == 0 {
        return false;
      }
      if |msgs| >= maxSize {
        return true;
      }
      return now >= firstAt.value + timeout;
    }

    method Drain() returns (out: seq<Msg>)
      requires Valid()
      modifies this
      ensures Valid() && out == old(msgs) && msgs == []
    {
      out := msgs;
      msgs, firstAt := [], None;
    }

    // What comes back goes in front of what arrived meanwhile, and waits a full timeout again.
    method Unshift(ms: seq<Msg>, now: nat)
      requires Valid()
      modifies this
      ensures Valid() && msgs == ms + old(msgs)
      ensures firstAt == if ms == [] then old(firstAt) else Some(now)
    {
      if |ms| == 0 {
        assert ms + msgs == msgs;
        return;
      }
      msgs, firstAt := ms + msgs, Some(now);
    }
  }

  // A batch can be handed over: the window has room, or the collector waits for one.
  predicate Room(s: State, window: nat) {
    |s.pipe.queue| + 1 < window || (s.pipe.queue == [] && s.pipe.current == None)
  }

  // The offsets of everything this process has submitted, batch by batch.
  ghost function SubmittedOffs(s: State): (os: seq<seq<nat>>)
    ensures |os| == |s.pipe.submitted| && forall i :: 0 <= i < |os| ==> os[i] == s.pipe.submitted[i].offs
  {
    seq(|s.pipe.submitted|, i requires 0 <= i < |s.pipe.submitted| => s.pipe.submitted[i].offs)
  }

  // What the select of the consumer's loop can find ready.
  datatype Ready = CANCELLED | COLLECTOR_ENDED | FETCH_FAILED | MESSAGE | TICK

  // How the loop ends; TURNS_OVER: it has not.
  datatype LoopEnd = TURNS_OVER | SHUT_DOWN | COLLECTOR_GONE | READER_FAILED

  // The consumer as seen between two turns of its loop.
  datatype View = View(next: nat, msgs: seq<Msg>, first: Option<nat>, offs: seq<seq<nat>>, faults: nat)

  // What becomes of the messages ms once they are drained: submitted, all of them and in order; or, after a
  // call that failed, back in the batcher; or, when the loop ends with it, left without a way into the pipeline.
  ghost predicate HandedOver(v: View, v': View, ms: seq<Msg>, stalled: bool) {
    if v'.faults != v.faults then !stalled && v'.faults == v.faults + 1 && v'.msgs == ms && v'.first.Some? && v'.offs == v.offs
    else v'.msgs == [] && v'.first == None && v'.offs == if stalled then v.offs else v.offs + [Offsets(ms)]
  }

  // A bad message at o: first what waits is handed over, then o is published and submitted by itself.
  ghost predicate BadHandled(v: View, v': View, o: nat, stalled: bool) {
    && v'.msgs in {[], v.msgs} && v'.faults >= v.faults
    && (v'.faults == v.faults && !stalled ==>
          v'.msgs == [] && v'.first == None && v'.offs == v.offs + (if v.msgs == [] then [] else [Offsets(v.msgs)]) + [[o]])
  }

  ghost predicate DrainedFirst(v: View, v': View, stalled: bool) {
    if v.msgs == [] then v' == v.(next := v'.next) && v'.first == None && !stalled else HandedOver(v, v', v.msgs, stalled)
  }

  lemma BadIsHandled(v: View, v1: View, v2: View, o: nat, stalled: bool, published: bool)
    requires DrainedFirst(v, v1, false) && v2.msgs == v1.msgs && v2.first == v1.first
    requires v2.faults == v1.faults + (if published then 0 else 1) && v2.offs == v1.offs + if published && !stalled then [[o]] else []
    ensures BadHandled(v, v2, o, stalled)
  {
  }

  // One turn of the loop. Nothing is left undone that is due.
  ghost predicate TurnTaken(b: Batcher, topic: Topic, what: Ready, now: nat, v: View, v': View, stalled: bool) {
    match what
    case TICK => if b.Due(v.msgs, v.first, now) then HandedOver(v, v', v.msgs, stalled) && v'.next == v.next else v' == v && !stalled
    case MESSAGE =>
      if v.next >= |topic| then v' == v && !stalled
      else if topic[v.next].Bad? then BadHandled(v, v', v.next, stalled) && v'.next == v.next + 1
      else
        var kept, first := v.msgs + [MsgAt(topic, v.next)], if v.msgs == [] then Some(now) else v.first;
        if b.Due(kept, first, now) then HandedOver(v, v', kept, stalled) && v'.next == v.next + 1
        else v' == v.(next := v.next + 1, msgs := kept, first := first) && !stalled
    case _ => v' == v && !stalled
  }

  // Turn after turn, from what the loop found to what it left.
  ghost predicate TurnsTaken(b: Batcher, topic: Topic, ready: nat -> Ready, clock: nat -> nat, trace: seq<View>, stalled: bool) {
    trace != [] && forall k :: 0 <= k < |trace| - 1 ==> TurnTaken(b, topic, ready(k), clock(k), trace[k], trace[k + 1], stalled && k == |trace| - 2)
  }

  class Consumer {
    const w: World
    const flusher: Flusher
    const batcher: Batcher

    ghost predicate Valid()
      reads this, w, flusher, batcher
    {
      w.Valid() && flusher.w == w && batcher.Valid() && batcher.msgs == w.s.batcher
    }

    ghost function Look(): View
      reads this, w, batcher
    {
      View(w.s.next, batcher.msgs, batcher.firstAt, SubmittedOffs(w.s), w.record.faults)
    }

    constructor (world: World, f: Flusher, b: Batcher)
      requires world.Valid() && f.w == world && b.Valid() && b.msgs == world.s.batcher
      ensures Valid() && w == world && flusher == f && batcher == b
    {
      w, flusher, batcher := world, f, b;
    }

    // Waits for room in the window; false when the collector is gone first, or the wait is cut off.
    method Submit() returns (ok: bool)
      requires Valid() && w.s.con.Offering?
      modifies w
      ensures Valid() && w.record == old(w.record)
      ensures ok ==> w.s.con == AfterDrain(old(w.s.con.bad)) && w.s.pipe.submitted == old(w.s.pipe.submitted) + [old(w.s.con.batch)]
      ensures !ok ==> w.s.con == old(w.s.con) && w.s.pipe.submitted == old(w.s.pipe.submitted) && (w.s.pipe.dead || !Room(w.s, w.window))
      ensures !ok && !w.s.pipe.dead ==> |w.s.pipe.queue| >= w.window - 1 && (w.s.pipe.queue != [] || w.s.pipe.current.Some?)
      ensures w.s.next == old(w.s.next) && w.s.batcher == old(w.s.batcher) && old(w.s).hist.dlq <= w.s.hist.dlq
    {
      var patience: nat := *;
      ok := false;
      while true
        invariant Valid() && !ok && w.record == old(w.record) && w.s.con == old(w.s.con) && Steady(old(w.s), w.s)
        invariant old(w.s).hist.dlq <= w.s.hist.dlq
        decreases patience
      {
        w.Others();
        if w.s.pipe.dead {
          return;
        }
        ok := Room(w.s, w.window);
        if ok {
          w.Do(Offer);
          return;
        }
        if patience == 0 {
          return;
        }
        patience := patience - 1;
      }
    }

    // Broadcasts what was drained and submits it; a transient error puts it back and is swallowed.
    method SendSubmit(msgs: seq<Msg>, ghost bad: Option<nat>) returns (stalled: bool)
      requires w.Valid() && flusher.w == w && batcher.Valid() && batcher.msgs == w.s.batcher == []
      requires |msgs| > 0 && w.s.con == Working(msgs, 0, RunEnd(msgs, 0), [], bad, Filtering(0, []))
      modifies w, batcher
      ensures Valid() && w.s.next == old(w.s.next)
      ensures if stalled then w.s.con.Offering? && (w.s.pipe.dead || !Room(w.s, w.window)) else w.s.con == AfterDrain(bad)
      ensures HandedOver(old(Look()), Look(), msgs, stalled)
    {
      ghost var before := w.s;
      var inflight, ok := flusher.Send(msgs, bad);
      if !ok {
        var now: nat := *;
        batcher.Unshift(msgs, now);
        assert msgs + [] == msgs;
        assert SubmittedOffs(w.s) == SubmittedOffs(before);
        return false;
      }
      var submitted := Submit();
      stalled := !submitted;
      assert SubmittedOffs(w.s) == if stalled then SubmittedOffs(before) else SubmittedOffs(before) + [Offsets(msgs)];
    }

    method DrainSendSubmit() returns (stalled: bool)
      requires Valid() && w.s.con.Idle?
      modifies w, batcher
      ensures Valid() && w.s.next == old(w.s.next)
      ensures if stalled then w.s.con.Offering? && (w.s.pipe.dead || !Room(w.s, w.window)) else w.s.con.Idle?
      ensures if old(batcher.msgs) == [] then Look() == old(Look()) && !stalled else HandedOver(old(Look()), Look(), old(batcher.msgs), stalled)
    {
      ghost var before := w.s;
      var msgs := batcher.Drain();
      if |msgs| == 0 {
        return false;
      }
      w.Do(Flush);
      assert SubmittedOffs(w.s) == SubmittedOffs(before);
      stalled := SendSubmit(msgs, None);
    }

    // The ticker.
    method Tick(now: nat) returns (stalled: bool)
      requires Valid() && w.s.con.Idle?
      modifies w, batcher
      ensures Valid() && (if stalled then w.s.con.Offering? && (w.s.pipe.dead || !Room(w.s, w.window)) else w.s.con.Idle?)
      ensures TurnTaken(batcher, w.topic, TICK, now, old(Look()), Look(), stalled)
    {
      ghost var before := w.s;
      w.Others();
      assert SubmittedOffs(w.s) == SubmittedOffs(before);
      stalled := false;
      var flush := batcher.ShouldFlush(now);
      if flush {
        stalled := DrainSendSubmit();
      }
    }

    // A message that does not parse: the batcher is drained first, then the message goes to the DLQ and
    // its offset into the pipeline. A drain that failed transiently does not hold it back.
    method OnParseFailure() returns (stalled: bool, published: bool)
      requires Valid() && w.s.con.Idle? && w.s.next < |w.topic| && w.topic[w.s.next].Bad?
      modifies w, batcher
      ensures Valid() && (if stalled then w.s.con.Offering? && (w.s.pipe.dead || !Room(w.s, w.window)) else w.s.con.Idle?)
      ensures w.s.next == old(w.s.next) + 1
      ensures published ==> old(w.s.next) in w.s.hist.dlq
      ensures published && !stalled ==> w.s.pipe.submitted != [] && w.s.pipe.submitted[|w.s.pipe.submitted| - 1] == Batch([], [old(w.s.next)])
      ensures BadHandled(old(Look()), Look(), old(w.s.next), stalled)
      ensures !stalled && w.record.faults == old(w.record.faults) ==> published
    {
      published := false;
      ghost var v := Look();
      var o := w.s.next;
      stalled := DrainFirst(o);
      ghost var v1 := Look();
      if stalled {
        return;
      }
      stalled, published := PublishAlone(o);
      BadIsHandled(v, v1, Look(), o, stalled, published);
    }

    // What waits in the batcher is drained with the bad message's fetch, and handed over.
    method DrainFirst(o: nat) returns (stalled: bool)
      requires Valid() && w.s.con.Idle? && o == w.s.next && o < |w.topic| && w.topic[o].Bad?
      modifies w, batcher
      ensures Valid() && w.s.next == o + 1
      ensures if stalled then w.s.con.Offering? && (w.s.pipe.dead || !Room(w.s, w.window)) else w.s.con == Publishing(o)
      ensures DrainedFirst(old(Look()), Look(), stalled)
    {
      ghost var before := w.s;
      var msgs := batcher.Drain();
      w.Do(Fetch);
      assert SubmittedOffs(w.s) == SubmittedOffs(before);
      stalled := false;
      if |msgs| > 0 {
        stalled := SendSubmit(msgs, Some(o));
      }
    }

    // The DLQ, and then the offset by itself.
    method PublishAlone(o: nat) returns (stalled: bool, published: bool)
      requires Valid() && w.s.con == Publishing(o)
      modifies w
      ensures Valid() && w.s.next == old(w.s.next) && w.s.batcher == old(w.s.batcher)
      ensures if stalled then w.s.con.Offering? && (w.s.pipe.dead || !Room(w.s, w.window)) else w.s.con.Idle?
      ensures published ==> o in w.s.hist.dlq
      ensures w.record == Asked(old(w.record), published) && (stalled ==> published)
      ensures SubmittedOffs(w.s) == SubmittedOffs(old(w.s)) + if published && !stalled then [[o]] else []
      ensures published && !stalled ==> w.s.pipe.submitted != [] && w.s.pipe.submitted[|w.s.pipe.submitted| - 1] == Batch([], [o])
    {
      ghost var before := w.s;
      published := w.Ask();
      w.Do(PublishBad(published));
      if !published {
        return false, false;
      }
      var submitted := Submit();
      stalled := !submitted;
    }

    method OnMessage(now: nat) returns (stalled: bool)
      requires Valid() && w.s.con.Idle? && w.s.next < |w.topic|
      modifies w, batcher
      ensures Valid() && (if stalled then w.s.con.Offering? && (w.s.pipe.dead || !Room(w.s, w.window)) else w.s.con.Idle?)
      ensures TurnTaken(batcher, w.topic, MESSAGE, now, old(Look()), Look(), stalled)
    {
      ghost var before := w.s;
      w.Others();
      assert SubmittedOffs(w.s) == SubmittedOffs(before);
      if w.topic[w.s.next].Bad? {
        var published;
        stalled, published := OnParseFailure();
        return;
      }
      var m := MsgAt(w.topic, w.s.next);
      w.Do(Fetch);
      assert SubmittedOffs(w.s) == SubmittedOffs(before);
      batcher.Add(m, now);
      stalled := false;
      var flush := batcher.ShouldFlush(now);
      if flush {
        stalled := DrainSendSubmit();
      }
    }

    // classify: a step fails for good only when its batch finds no collector, or the wait is cut off.
    method Classify() returns (end: LoopEnd)
      ensures end == if w.s.pipe.dead then COLLECTOR_GONE else SHUT_DOWN
    {
      end := if w.s.pipe.dead then COLLECTOR_GONE else SHUT_DOWN;
    }

    // The loop, for any number of turns, whatever is ready in each. trace is what it looked like before the
    // first turn, between turns and after the last; no turn is without its effect.
    method Run(turns: nat, ready: nat -> Ready, clock: nat -> nat) returns (end: LoopEnd, ghost trace: seq<View>, ghost stalled: bool)
      requires Valid() && w.s.con.Idle?
      modifies w, batcher
      ensures Valid() && (if stalled then w.s.con.Offering? && (w.s.pipe.dead || !Room(w.s, w.window)) else w.s.con.Idle?)
      ensures TurnsTaken(batcher, w.topic, ready, clock, trace, stalled) && trace[0] == old(Look()) && trace[|trace| - 1] == Look()
      ensures w.s.next == Reached(old(w.s.next), |w.topic|, |MessageTurns(ready, |trace| - 1)|)
      ensures LoopEnds(end, ready, |trace| - 1, turns, stalled, w.s.pipe.dead)
      ensures Faithful(w.topic, w.states, w.steps, |w.steps|)
    {
      end, stalled := TURNS_OVER, false;
      trace := [Look()];
      var n := 0;
      while n < turns && end == TURNS_OVER
        invariant 0 <= n <= turns && Valid() && (if stalled then w.s.con.Offering? && (w.s.pipe.dead || !Room(w.s, w.window)) else w.s.con.Idle?)
        invariant Traced(ready, clock, trace, stalled, n) && trace[0] == old(Look()) && trace[n] == Look()
        invariant Ends(end, ready, n, stalled, w.s.pipe.dead)
      {
        end, trace, stalled := NextTurn(ready, clock, trace, n);
        n := n + 1;
      }
      MessagesTaken(batcher, w.topic, ready, clock, trace, stalled, n);
      FaithfulSoFar();
    }

    // Turn n, and its view added to the trace.
    method NextTurn(ready: nat -> Ready, clock: nat -> nat, ghost front: seq<View>, n: nat) returns (end: LoopEnd, ghost trace: seq<View>, ghost stalled: bool)
      requires Valid() && w.s.con.Idle? && Traced(ready, clock, front, false, n) && front[n] == Look() && Ends(TURNS_OVER, ready, n, false, w.s.pipe.dead)
      modifies w, batcher
      ensures Valid() && (if stalled then w.s.con.Offering? && (w.s.pipe.dead || !Room(w.s, w.window)) else w.s.con.Idle?)
      ensures Traced(ready, clock, trace, stalled, n + 1) && trace[0] == front[0] && trace[n + 1] == Look()
      ensures Ends(end, ready, n + 1, stalled, w.s.pipe.dead)
    {
      var failed;
      end, failed := Turn(ready(n), clock(n));
      OneTurnMore(batcher, w.topic, ready, clock, front, Look(), failed);
      trace, stalled := front + [Look()], failed;
    }

    ghost predicate Traced(ready: nat -> Ready, clock: nat -> nat, trace: seq<View>, stalled: bool, n: int) {
      |trace| == n + 1 && TurnsTaken(batcher, w.topic, ready, clock, trace, stalled)
    }

    // One turn: what is ready is done.
    method Turn(what: Ready, now: nat) returns (end: LoopEnd, stalled: bool)
      requires Valid() && w.s.con.Idle?
      modifies w, batcher
      ensures Valid() && (if stalled then w.s.con.Offering? && (w.s.pipe.dead || !Room(w.s, w.window)) else w.s.con.Idle?)
      ensures TurnTaken(batcher, w.topic, what, now, old(Look()), Look(), stalled)
      ensures TurnEnds(end, what, stalled, w.s.pipe.dead)
    {
      ghost var before := w.s;
      w.Others();
      assert SubmittedOffs(w.s) == SubmittedOffs(before);
      end, stalled := TURNS_OVER, false;
      match what {
        case CANCELLED =>
          end := SHUT_DOWN;
        case COLLECTOR_ENDED =>
          if w.s.pipe.dead {
            end := COLLECTOR_GONE;
          }
        case FETCH_FAILED =>
          end := READER_FAILED;
        case MESSAGE =>
          if w.s.next < |w.topic| {
            stalled := OnMessage(now);
          }
        case TICK =>
          stalled := Tick(now);
      }
      if stalled {
        end := Classify();
      }
    }

    // No message is lost on the way: below the mark it is closed, or a bad offset below the mark was
    // published over it.
    static ghost predicate Faithful(topic: Topic, states: seq<State>, steps: seq<Step>, k: nat)
      requires k <= |steps| < |states|
    {
      forall o: nat :: o < states[k].committed && IsGood(topic, o) ==>
        Closed(states[k].rows, topic[o].id) || Overtaken(states, steps, k, MsgAt(topic, o), states[k].committed)
    }

    // How a turn ends the loop.
    static ghost predicate TurnEnds(end: LoopEnd, what: Ready, stalled: bool, dead: bool) {
      if stalled then end == if dead then COLLECTOR_GONE else SHUT_DOWN
      else
        match what
        case CANCELLED => end == SHUT_DOWN
        case FETCH_FAILED => end == READER_FAILED
        case COLLECTOR_ENDED => end == if dead then COLLECTOR_GONE else TURNS_OVER
        case _ => end == TURNS_OVER
    }

    // The loop goes on for all its turns unless one of them ended it.
    static ghost predicate LoopEnds(end: LoopEnd, ready: nat -> Ready, done: nat, turns: nat, stalled: bool, dead: bool) {
      done <= turns && Ends(end, ready, done, stalled, dead) && (end == TURNS_OVER ==> done == turns)
    }

    static ghost predicate Ends(end: LoopEnd, ready: nat -> Ready, done: nat, stalled: bool, dead: bool) {
      && (forall k :: 0 <= k < done - 1 ==> ready(k) != CANCELLED && ready(k) != FETCH_FAILED)
      && (if done == 0 then end == TURNS_OVER else TurnEnds(end, ready(done - 1), stalled, dead))
      && (end == TURNS_OVER ==> !stalled)
    }

    // The turns among the first n that found a message ready.
    static ghost function MessageTurns(ready: nat -> Ready, n: nat): set<nat> {
      set k: nat | k < n && ready(k) == MESSAGE
    }

    // The offset after so many more messages of a topic.
    static function Reached(next: nat, topic: nat, taken: nat): nat {
      if next >= topic then next else if next + taken < topic then next + taken else topic
    }

    static lemma OneTurnMore(b: Batcher, topic: Topic, ready: nat -> Ready, clock: nat -> nat, front: seq<View>, v: View, stalled: bool)
      requires TurnsTaken(b, topic, ready, clock, front, false)
      requires TurnTaken(b, topic, ready(|front| - 1), clock(|front| - 1), front[|front| - 1], v, stalled)
      ensures TurnsTaken(b, topic, ready, clock, front + [v], stalled)
    {
      var trace := front + [v];
      forall k | 0 <= k < |trace| - 1
        ensures TurnTaken(b, topic, ready(k), clock(k), trace[k], trace[k + 1], stalled && k == |trace| - 2)
      {
        if k < |front| - 1 {
          assert TurnTaken(b, topic, ready(k), clock(k), front[k], front[k + 1], false);
        }
      }
    }

    static lemma {:induction false} MessagesTaken(b: Batcher, topic: Topic, ready: nat -> Ready, clock: nat -> nat, trace: seq<View>, stalled: bool, k: nat)
      requires TurnsTaken(b, topic, ready, clock, trace, stalled) && k < |trace|
      ensures trace[k].next == Reached(trace[0].next, |topic|, |MessageTurns(ready, k)|)
      decreases k
    {
      if k > 0 {
        var j := k - 1;
        MessagesTaken(b, topic, ready, clock, trace, stalled, j);
        assert TurnTaken(b, topic, ready(j), clock(j), trace[j], trace[j + 1], stalled && j == |trace| - 2);
        OneMessageTurn(ready, j);
        NextMoves(b, topic, ready(j), clock(j), trace[j], trace[j + 1], stalled && j == |trace| - 2);
      } else {
        assert MessageTurns(ready, 0) == {};
      }
    }

    static lemma OneMessageTurn(ready: nat -> Ready, j: nat)
      ensures |MessageTurns(ready, j + 1)| == |MessageTurns(ready, j)| + if ready(j) == MESSAGE then 1 else 0
    {
      assert MessageTurns(ready, j + 1) == MessageTurns(ready, j) + if ready(j) == MESSAGE then {j} else {};
    }

    static lemma NextMoves(b: Batcher, topic: Topic, what: Ready, now: nat, v: View, v': View, stalled: bool)
      requires TurnTaken(b, topic, what, now, v, v', stalled)
      ensures v'.next == v.next + if what == MESSAGE && v.next < |topic| then 1 else 0
    {
    }

    lemma FaithfulSoFar()
      requires w.Valid()
      ensures Faithful(w.topic, w.states, w.steps, |w.steps|)
    {
      forall o: nat | o < w.s.committed && IsGood(w.topic, o)
        ensures Closed(w.s.rows, w.topic[o].id) || Overtaken(w.states, w.steps, |w.steps|, MsgAt(w.topic, o), w.s.committed)
      {
        MarkNeverPassesOpenMessage(w.topic, w.window, w.states, w.steps, |w.steps|, o);
      }
    }
  }
}
