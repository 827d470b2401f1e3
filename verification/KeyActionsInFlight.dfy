// One key action in flight per key, and the case in which the check misses one: it looks at the
// newest submitted_at, and now() is the time a transaction began, not the time it commits.
module KeyActionsInFlight {
  import opened Basics
  import opened KeyRevocation
  import opened Runs

  ghost predicate InFlight(s: State, a: ActionId, c: Credential) {
    SubmittedFor(s, a, c) && s.actions[a].chain == SENT
  }

  // now() never repeats: no two transactions begin at the same instant.
  ghost predicate TimeInv(s: State) {
    && (forall t :: t in s.open && s.open[t].KeySubmit? ==> s.open[t].started < s.clock)
    && (forall a, c :: SubmittedFor(s, a, c) ==> s.actions[a].submitted.value < s.clock)
    && (forall t, u :: t in s.open && u in s.open && s.open[t].KeySubmit? && s.open[u].KeySubmit? && s.open[t].started == s.open[u].started ==> t == u)
    && (forall t, a, c :: t in s.open && s.open[t].KeySubmit? && SubmittedFor(s, a, c) ==> s.actions[a].submitted.value != s.open[t].started)
    && (forall a, b, c, d :: SubmittedFor(s, a, c) && SubmittedFor(s, b, d) && s.actions[a].submitted == s.actions[b].submitted ==> a == b)
  }

  lemma TimeStep(s: State, st: Step)
    requires LockInv(s) && TimeInv(s) && Enabled(s, st)
    ensures TimeInv(Apply(s, st))
  {
    if st.CommitKey? {
      CommitTimes(s, st.t);
    } else {
      TimesStay(s, st);
    }
  }

  lemma TimesStay(s: State, st: Step)
    requires LockInv(s) && TimeInv(s) && Enabled(s, st) && !st.CommitKey?
    ensures TimeInv(Apply(s, st))
  {
    StepTimes(s, st);
    TimesKept(s, Apply(s, st));
  }

  // Apart from a commit, a step adds at most one start time, the clock's.
  ghost predicate TimesGrow(s: State, s': State) {
    && s.clock <= s'.clock
    && (forall a, c :: SubmittedFor(s', a, c) ==> SubmittedFor(s, a, c) && s'.actions[a].submitted == s.actions[a].submitted)
    && (forall t :: t in s'.open && s'.open[t].KeySubmit? ==>
          || (t in s.open && s.open[t].KeySubmit? && s'.open[t].started == s.open[t].started)
          || (s'.open[t].started == s.clock < s'.clock && forall u :: u in s'.open && u != t ==> u in s.open && s'.open[u] == s.open[u]))
  }

  lemma StepTimes(s: State, st: Step)
    requires Enabled(s, st) && !st.CommitKey?
    ensures TimesGrow(s, Apply(s, st))
  {
  }

  lemma TimesKept(s: State, s': State)
    requires TimeInv(s) && TimesGrow(s, s')
    ensures TimeInv(s')
  {
  }

  lemma CommitTimes(s: State, t: Tx)
    requires LockInv(s) && TimeInv(s) && Enabled(s, CommitKey(t))
    ensures TimeInv(Apply(s, CommitKey(t)))
  {
    var a, s' := s.open[t].action, Apply(s, CommitKey(t));
    assert forall b, c :: b != a ==> SubmittedFor(s', b, c) == SubmittedFor(s, b, c);
    assert s'.actions[a].submitted == Some(s.open[t].started);
  }

  lemma {:induction false} RunKeepsTimes(states: seq<State>, steps: seq<Step>, k: nat)
    requires IsRun(states, steps) && k < |states|
    ensures TimeInv(states[k]) && LockInv(states[k]) && LogInv(states[k])
    decreases k
  {
    RunKeepsInv(states, steps, k);
    if k > 0 {
      RunKeepsTimes(states, steps, k - 1);
      TimeStep(states[k - 1], steps[k - 1]);
    }
  }

  // ------------------------------------------------------------------- the check that misses

  predicate RejectAt(s: State, t: Tx, stage: Stage) {
    AtStage(s, t, stage) && s.open[t].KeyReject?
  }

  // The submit's check in state s passes over action x, which is in flight: a newer one hides it.
  ghost predicate Misses(s: State, t: Tx, x: ActionId) {
    && SubmitAt(s, t, TargetLocked) && InFlight(s, x, Subject(s, t).target)
    && exists y :: IsLatest(s, y, Subject(s, t).target) && y != x && LetsThrough(Subject(s, t).kind, s.actions[y])
  }

  // A newest action that failed hides nothing from nobody; an applied registration does not stand in the
  // way of a revoke.
  predicate LetsThrough(kind: KeyKind, newest: KeyAction) {
    || newest.chain == FAILED || newest.chain == REFUSED
    || (newest.chain == APPLIED && newest.kind == Register && kind == Revoke)
  }

  ghost predicate RejectMisses(s: State, t: Tx, x: ActionId) {
    && RejectAt(s, t, TargetLocked) && InFlight(s, x, s.open[t].key)
    && exists y :: IsLatest(s, y, s.open[t].key) && y != x && s.actions[y].chain !in {SENT, APPLIED}
  }

  // Not a step to return from: x leaves the flight for good.
  predicate Settles(st: Step, x: ActionId) {
    st.Settle? && st.a == x
  }

  ghost predicate Unsettled(steps: seq<Step>, x: ActionId, j: nat, k: nat)
    requires k <= |steps|
  {
    forall i :: j <= i < k ==> !Settles(steps[i], x)
  }

  // The check lets a rejection pass an action in flight exactly as it lets a submit pass one.
  lemma RejectMissesIff(s: State, t: Tx, x: ActionId)
    requires TimeInv(s) && RejectAt(s, t, TargetLocked) && InFlight(s, x, s.open[t].key)
    ensures Enabled(s, CheckReject(t)) <==> RejectMisses(s, t, x)
  {
    var y := Newest(s, s.open[t].key, s.actions.Keys, x);
    if Enabled(s, CheckReject(t)) {
      assert s.actions[y].chain !in {SENT, APPLIED};
    }
  }

  // The check itself, at the moment it runs: while an action x of the key is in flight it lets the
  // submit through exactly when a newer action of the key exists and does not block.
  lemma CheckMissesIff(s: State, t: Tx, x: ActionId)
    requires TimeInv(s) && SubmitAt(s, t, TargetLocked) && InFlight(s, x, Subject(s, t).target)
    ensures Enabled(s, CheckInFlight(t)) <==> Misses(s, t, x)
  {
    var c := Subject(s, t).target;
    var y := Newest(s, c, s.actions.Keys, x);
    if Enabled(s, CheckInFlight(t)) {
      assert LetsThrough(Subject(s, t).kind, s.actions[y]);
    }
  }

  // a is the action of c with the newest submitted_at.
  ghost predicate NewestOf(s: State, a: ActionId, c: Credential) {
    && a in s.actions && s.actions[a].target == c && s.actions[a].submitted.Some?
    && forall b :: b in s.actions && b != a && s.actions[b].target == c && s.actions[b].submitted.Some? ==>
         s.actions[b].submitted.value < s.actions[a].submitted.value
  }

  // The submit's check in full: it passes with no submitted action of the key, behind one that failed, and,
  // for a revoke, behind an applied registration; never behind one still in flight, a registration never
  // behind an applied action, nothing behind an applied revoke.
  lemma CheckPassesIff(s: State, t: Tx)
    requires TimeInv(s) && SubmitAt(s, t, TargetLocked)
    ensures var c := Subject(s, t).target;
            Enabled(s, CheckInFlight(t)) <==>
            forall y :: NewestOf(s, y, c) ==>
              match s.actions[y].chain
              case SENT => false
              case APPLIED => Subject(s, t).kind == Revoke && s.actions[y].kind == Register
              case REFUSED => true
              case FAILED => true
  {
    var c := Subject(s, t).target;
    forall y
      ensures NewestOf(s, y, c) <==> IsLatest(s, y, c)
    {
      NewestIsLatest(s, y, c);
    }
  }

  lemma NewestIsLatest(s: State, y: ActionId, c: Credential)
    requires TimeInv(s)
    ensures NewestOf(s, y, c) <==> IsLatest(s, y, c)
  {
    if IsLatest(s, y, c) {
      forall b | b in s.actions && b != y && s.actions[b].target == c && s.actions[b].submitted.Some?
        ensures s.actions[b].submitted.value < s.actions[y].submitted.value
      {
        assert SubmittedFor(s, b, c);
      }
    }
  }

  // The rejection's check: it passes with no submitted action of the key, or behind one that failed.
  lemma RejectPassesIff(s: State, t: Tx)
    requires TimeInv(s) && RejectAt(s, t, TargetLocked)
    ensures Enabled(s, CheckReject(t)) <==> forall y :: NewestOf(s, y, s.open[t].key) ==> s.actions[y].chain == FAILED || s.actions[y].chain == REFUSED
  {
    var c := s.open[t].key;
    forall y
      ensures NewestOf(s, y, c) <==> IsLatest(s, y, c)
    {
      NewestIsLatest(s, y, c);
    }
  }

  // The warehouse's check: it passes exactly when every submitted revoke of the signer has failed.
  lemma RevokedIff(s: State, t: Tx)
    requires AtStage(s, t, SignerLocked) && s.open[t].Warehouse?
    ensures Enabled(s, CheckRevoked(t)) <==>
            forall a :: a in s.actions && s.actions[a].kind == Revoke && s.actions[a].target == s.open[t].signer && s.actions[a].submitted.Some?
              ==> s.actions[a].chain == FAILED || s.actions[a].chain == REFUSED
  {
    forall a | a in s.actions && s.actions[a].target == s.open[t].signer && s.actions[a].submitted.Some?
      ensures SubmittedFor(s, a, s.open[t].signer)
    {
    }
  }

  // A key with a submitted action has a newest one.
  lemma Newest(s: State, c: Credential, among: set<ActionId>, x: ActionId) returns (y: ActionId)
    requires x in among && SubmittedFor(s, x, c) && among <= s.actions.Keys
    ensures y in among && SubmittedFor(s, y, c)
    ensures forall b :: b in among && SubmittedFor(s, b, c) ==> s.actions[b].submitted.value <= s.actions[y].submitted.value
    decreases |among|
  {
    if z :| z in among && z != x && SubmittedFor(s, z, c) {
      if s.actions[x].submitted.value <= s.actions[z].submitted.value {
        y := Newest(s, c, among - {x}, z);
      } else {
        y := Newest(s, c, among - {z}, x);
      }
    } else {
      y := x;
    }
  }

  // Past the in-flight check with a submit for c: its row is owned.
  ghost predicate Cleared(s: State, t: Tx, c: Credential) {
    (SubmitAt(s, t, Checked) || SubmitAt(s, t, SignerLocked)) && Subject(s, t).target == c
  }

  ghost predicate RejectCleared(s: State, t: Tx, c: Credential) {
    RejectAt(s, t, Checked) && s.open[t].key == c
  }

  // Nobody else's submit for the key commits: what is in flight behind a check was so when it ran.
  lemma BackToCheck(s: State, st: Step, t: Tx, x: ActionId, c: Credential)
    requires LockInv(s) && TimeInv(s) && Enabled(s, st)
    requires Cleared(Apply(s, st), t, c) && InFlight(Apply(s, st), x, c)
    ensures !Settles(st, x)
    ensures st == CheckInFlight(t) ==> Misses(s, t, x) && Subject(s, t).target == c
    ensures st != CheckInFlight(t) ==> Cleared(s, t, c) && InFlight(s, x, c)
  {
    if st == CheckInFlight(t) {
      CheckMissesIff(s, t, x);
    } else {
      StaysCleared(s, st, t, c);
      CommitOwns(s, st, t, c);
    }
  }

  lemma StaysCleared(s: State, st: Step, t: Tx, c: Credential)
    requires LockInv(s) && Enabled(s, st) && st != CheckInFlight(t) && Cleared(Apply(s, st), t, c)
    ensures Cleared(s, t, c) && (st.CommitKey? ==> st.t != t)
  {
  }

  lemma CommitOwns(s: State, st: Step, t: Tx, c: Credential)
    requires LockInv(s) && Enabled(s, st) && (Cleared(s, t, c) || RejectCleared(s, t, c))
    ensures st.CommitKey? && Subject(s, st.t).target == c ==> st.t == t
  {
    assert Owns(s, t, c);
    assert st.CommitKey? ==> Owns(s, st.t, Subject(s, st.t).target);
  }

  lemma BackToRejectCheck(s: State, st: Step, t: Tx, x: ActionId, c: Credential)
    requires LockInv(s) && TimeInv(s) && Enabled(s, st)
    requires RejectCleared(Apply(s, st), t, c) && InFlight(Apply(s, st), x, c)
    ensures !Settles(st, x)
    ensures st == CheckReject(t) ==> RejectMisses(s, t, x) && s.open[t].key == c
    ensures st != CheckReject(t) ==> RejectCleared(s, t, c) && InFlight(s, x, c)
  {
    if st == CheckReject(t) {
      RejectMissesIff(s, t, x);
    } else {
      assert RejectCleared(s, t, c);
      CommitOwns(s, st, t, c);
    }
  }

  lemma StepOf(states: seq<State>, steps: seq<Step>, i: nat)
    requires IsRun(states, steps) && i < |steps|
    ensures Enabled(states[i], steps[i]) && states[i + 1] == Apply(states[i], steps[i])
    ensures TimeInv(states[i]) && LockInv(states[i]) && LogInv(states[i])
  {
    RunKeepsTimes(states, steps, i);
  }

  // ---------------------------------------------------------------------------- over runs

  // The check of transaction t at step j passed over x, and t has held the key c ever since.
  ghost predicate PassedOver(states: seq<State>, steps: seq<Step>, j: nat, k: nat, t: Tx, x: ActionId, c: Credential)
    requires j < k <= |steps| < |states|
  {
    && steps[j] == CheckInFlight(t) && Misses(states[j], t, x) && Subject(states[j], t).target == c
    && forall i :: j < i <= k ==> Cleared(states[i], t, c)
  }

  lemma {:induction false} InFlightBehindCheck(states: seq<State>, steps: seq<Step>, k: nat, t: Tx, x: ActionId, c: Credential) returns (j: nat)
    requires IsRun(states, steps) && k < |states| && Cleared(states[k], t, c) && InFlight(states[k], x, c)
    ensures j < k && PassedOver(states, steps, j, k, t, x, c) && Unsettled(steps, x, j, k)
    decreases k
  {
    var i: nat := k - 1;
    StepOf(states, steps, i);
    BackToCheck(states[i], steps[i], t, x, c);
    if steps[i] == CheckInFlight(t) {
      j := i;
    } else {
      j := InFlightBehindCheck(states, steps, i, t, x, c);
    }
  }

  lemma {:induction false} StaysInFlight(states: seq<State>, steps: seq<Step>, j: nat, k: nat, x: ActionId, c: Credential)
    requires IsRun(states, steps) && j <= k < |states| && InFlight(states[j], x, c) && Unsettled(steps, x, j, k)
    ensures InFlight(states[k], x, c)
    decreases k
  {
    if j < k {
      var i: nat := k - 1;
      StaysInFlight(states, steps, j, i, x, c);
      StepOf(states, steps, i);
      FlightGoesOn(states[i], steps[i], x, c);
    }
  }

  lemma FlightGoesOn(s: State, st: Step, x: ActionId, c: Credential)
    requires Enabled(s, st) && InFlight(s, x, c) && !Settles(st, x)
    ensures InFlight(Apply(s, st), x, c)
  {
  }

  // Action a was committed at m behind a check at j that passed over b, and neither was settled since.
  ghost predicate SecondAt(states: seq<State>, steps: seq<Step>, j: nat, m: nat, k: nat, a: ActionId, b: ActionId, c: Credential)
    requires j < m < k <= |steps| < |states|
  {
    && steps[m].CommitKey? && PassedOver(states, steps, j, m, steps[m].t, b, c) && states[m].open[steps[m].t].action == a
    && Unsettled(steps, b, j, k) && Unsettled(steps, a, m, k)
  }

  ghost predicate Second(states: seq<State>, steps: seq<Step>, k: nat, a: ActionId, b: ActionId, c: Credential)
    requires k <= |steps| < |states|
  {
    exists j: nat, m: nat :: j < m < k && SecondAt(states, steps, j, m, k, a, b, c)
  }

  // Over every interleaving: two actions of a key are in flight exactly when the one was committed by a
  // transaction whose check passed over the other because a newer action hid it, and neither has been
  // settled since.
  lemma TwoInFlightIff(states: seq<State>, steps: seq<Step>, k: nat, a: ActionId, b: ActionId, c: Credential)
    requires IsRun(states, steps) && k < |states| && a != b
    ensures InFlight(states[k], a, c) && InFlight(states[k], b, c) <==>
            Second(states, steps, k, a, b, c) || Second(states, steps, k, b, a, c)
  {
    if InFlight(states[k], a, c) && InFlight(states[k], b, c) {
      TwoNeedAMiss(states, steps, k, a, b, c);
    }
    if Second(states, steps, k, a, b, c) {
      SecondsAreInFlight(states, steps, k, a, b, c);
    }
    if Second(states, steps, k, b, a, c) {
      SecondsAreInFlight(states, steps, k, b, a, c);
    }
  }

  lemma SecondsAreInFlight(states: seq<State>, steps: seq<Step>, k: nat, a: ActionId, b: ActionId, c: Credential)
    requires IsRun(states, steps) && k < |states| && Second(states, steps, k, a, b, c)
    ensures InFlight(states[k], a, c) && InFlight(states[k], b, c)
  {
    var j: nat, m: nat :| j < m < k && SecondAt(states, steps, j, m, k, a, b, c);
    StaysInFlight(states, steps, j, k, b, c);
    StepOf(states, steps, m);
    assert Cleared(states[m], steps[m].t, c);
    CommittedIsInFlight(states[m], steps[m].t, c);
    StaysInFlight(states, steps, m + 1, k, a, c);
  }

  lemma CommittedIsInFlight(s: State, t: Tx, c: Credential)
    requires LockInv(s) && LogInv(s) && Enabled(s, CommitKey(t)) && Cleared(s, t, c)
    ensures InFlight(Apply(s, CommitKey(t)), s.open[t].action, c)
  {
    assert OwnsAction(s, t, s.open[t].action);
  }

  lemma {:induction false} TwoNeedAMiss(states: seq<State>, steps: seq<Step>, k: nat, a: ActionId, b: ActionId, c: Credential)
    requires IsRun(states, steps) && k < |states| && a != b && InFlight(states[k], a, c) && InFlight(states[k], b, c)
    ensures Second(states, steps, k, a, b, c) || Second(states, steps, k, b, a, c)
    decreases k
  {
    var i: nat := k - 1;
    StepOf(states, steps, i);
    NewcomerOrBoth(states[i], steps[i], a, b, c);
    if InFlight(states[i], a, c) && InFlight(states[i], b, c) {
      TwoNeedAMiss(states, steps, i, a, b, c);
      if Second(states, steps, i, a, b, c) {
        SecondLasts(states, steps, i, a, b, c);
      } else {
        SecondLasts(states, steps, i, b, a, c);
      }
    } else if InFlight(states[i], b, c) {
      NewcomerIsSecond(states, steps, i, a, b, c);
    } else {
      NewcomerIsSecond(states, steps, i, b, a, c);
    }
  }

  // Both were in flight before the step, or the step commits the one while the other is in flight.
  lemma NewcomerOrBoth(s: State, st: Step, a: ActionId, b: ActionId, c: Credential)
    requires Enabled(s, st) && a != b && InFlight(Apply(s, st), a, c) && InFlight(Apply(s, st), b, c)
    ensures !Settles(st, a) && !Settles(st, b)
    ensures InFlight(s, a, c) || (InFlight(s, b, c) && st.CommitKey? && Cleared(s, st.t, c) && s.open[st.t].action == a)
    ensures InFlight(s, b, c) || (InFlight(s, a, c) && st.CommitKey? && Cleared(s, st.t, c) && s.open[st.t].action == b)
  {
  }

  lemma SecondLasts(states: seq<State>, steps: seq<Step>, i: nat, a: ActionId, b: ActionId, c: Credential)
    requires i < |steps| < |states| && Second(states, steps, i, a, b, c) && !Settles(steps[i], a) && !Settles(steps[i], b)
    ensures Second(states, steps, i + 1, a, b, c)
  {
    var j: nat, m: nat :| j < m < i && SecondAt(states, steps, j, m, i, a, b, c);
    assert SecondAt(states, steps, j, m, i + 1, a, b, c);
  }

  lemma NewcomerIsSecond(states: seq<State>, steps: seq<Step>, m: nat, a: ActionId, b: ActionId, c: Credential)
    requires IsRun(states, steps) && m < |steps| && steps[m].CommitKey?
    requires Cleared(states[m], steps[m].t, c) && states[m].open[steps[m].t].action == a && InFlight(states[m], b, c)
    ensures Second(states, steps, m + 1, a, b, c)
  {
    var j := InFlightBehindCheck(states, steps, m, steps[m].t, b, c);
    CommitMakesSecond(states, steps, j, m, a, b, c);
  }

  lemma CommitMakesSecond(states: seq<State>, steps: seq<Step>, j: nat, m: nat, a: ActionId, b: ActionId, c: Credential)
    requires j < m < |steps| < |states| && steps[m].CommitKey? && steps[m].t in states[m].open && states[m].open[steps[m].t].KeySubmit?
    requires PassedOver(states, steps, j, m, steps[m].t, b, c) && states[m].open[steps[m].t].action == a && Unsettled(steps, b, j, m)
    ensures Second(states, steps, m + 1, a, b, c)
  {
    assert SecondAt(states, steps, j, m, m + 1, a, b, c);
  }

  ghost predicate RejectPassedOver(states: seq<State>, steps: seq<Step>, j: nat, k: nat, t: Tx, x: ActionId, c: Credential)
    requires j < k <= |steps| < |states|
  {
    && steps[j] == CheckReject(t) && RejectMisses(states[j], t, x) && states[j].open[t].key == c
    && forall i :: j < i <= k ==> RejectCleared(states[i], t, c)
  }

  lemma {:induction false} InFlightBehindRejectCheck(states: seq<State>, steps: seq<Step>, k: nat, t: Tx, x: ActionId, c: Credential) returns (j: nat)
    requires IsRun(states, steps) && k < |states| && RejectCleared(states[k], t, c) && InFlight(states[k], x, c)
    ensures j < k && RejectPassedOver(states, steps, j, k, t, x, c) && Unsettled(steps, x, j, k)
    decreases k
  {
    var i: nat := k - 1;
    StepOf(states, steps, i);
    BackToRejectCheck(states[i], steps[i], t, x, c);
    if steps[i] == CheckReject(t) {
      j := i;
    } else {
      j := InFlightBehindRejectCheck(states, steps, i, t, x, c);
    }
  }

  // A key is rejected with an action in flight exactly when this very transaction's check passed over it
  // and it has not been settled since.
  lemma RejectedInFlightIff(states: seq<State>, steps: seq<Step>, k: nat, t: Tx, b: ActionId, c: Credential)
    requires IsRun(states, steps) && k < |steps| && steps[k] == CommitReject(t) && c == states[k].open[t].key
    ensures c in states[k + 1].keys && states[k + 1].keys[c] == REJECTED
    ensures InFlight(states[k + 1], b, c) <==>
            exists j: nat :: j < k && RejectPassedOver(states, steps, j, k, t, b, c) && Unsettled(steps, b, j, k)
  {
    StepOf(states, steps, k);
    assert InFlight(states[k + 1], b, c) <==> InFlight(states[k], b, c);
    if InFlight(states[k], b, c) {
      var j := InFlightBehindRejectCheck(states, steps, k, t, b, c);
    }
    if j: nat :| j < k && RejectPassedOver(states, steps, j, k, t, b, c) && Unsettled(steps, b, j, k) {
      StaysInFlight(states, steps, j, k, b, c);
    }
  }

  // ------------------------------------------------------------- what it takes to hide an action

  // A submit for c commits with an older submitted_at than that of an action already there.
  ghost predicate CommitsLate(s: State, st: Step, c: Credential) {
    && st.CommitKey? && Cleared(s, st.t, c)
    && exists y :: SubmittedFor(s, y, c) && s.open[st.t].started < s.actions[y].submitted.value
  }

  ghost predicate LateBefore(states: seq<State>, steps: seq<Step>, k: nat, c: Credential)
    requires k <= |steps| < |states|
  {
    exists m: nat :: m < k && CommitsLate(states[m], steps[m], c)
  }

  // Hiding an action in flight takes a late commit for the same key.
  lemma {:induction false} HiddenByLateCommit(states: seq<State>, steps: seq<Step>, k: nat, b: ActionId, y: ActionId, c: Credential)
    requires IsRun(states, steps) && k < |states| && InFlight(states[k], b, c) && SubmittedFor(states[k], y, c)
    requires states[k].actions[b].submitted.value < states[k].actions[y].submitted.value
    ensures LateBefore(states, steps, k, c)
    decreases k, 0
  {
    var i: nat := k - 1;
    StepOf(states, steps, i);
    var s, st := states[i], steps[i];
    HiderBefore(s, st, b, y, c);
    if st.CommitKey? && s.open[st.t].action == b {
      assert CommitsLate(s, st, c);
    } else if st.CommitKey? && s.open[st.t].action == y {
      var j := InFlightBehindCheck(states, steps, i, st.t, b, c);
      HiderNewer(states, steps, j, st.t, b, c);
    } else {
      HiddenByLateCommit(states, steps, i, b, y, c);
    }
  }

  lemma HiderBefore(s: State, st: Step, b: ActionId, y: ActionId, c: Credential)
    requires Enabled(s, st) && InFlight(Apply(s, st), b, c) && SubmittedFor(Apply(s, st), y, c)
    requires Apply(s, st).actions[b].submitted.value < Apply(s, st).actions[y].submitted.value
    ensures st.CommitKey? && s.open[st.t].action == b ==> CommitsLate(s, st, c)
    ensures st.CommitKey? && s.open[st.t].action == y ==> Cleared(s, st.t, c) && InFlight(s, b, c)
    ensures !(st.CommitKey? && s.open[st.t].action in {b, y}) ==>
              && InFlight(s, b, c) && SubmittedFor(s, y, c) && s.actions[b].submitted.value < s.actions[y].submitted.value
  {
    if st.CommitKey? && s.open[st.t].action == b {
      assert SubmittedFor(s, y, c) && s.open[st.t].started < s.actions[y].submitted.value;
    }
  }

  // What a check passes over has a newer action in front of it.
  lemma HiderNewer(states: seq<State>, steps: seq<Step>, j: nat, t: Tx, b: ActionId, c: Credential)
    requires IsRun(states, steps) && j < |steps| && Misses(states[j], t, b) && Subject(states[j], t).target == c
    ensures LateBefore(states, steps, j, c)
    decreases j, 1
  {
    var s := states[j];
    var y :| IsLatest(s, y, c) && y != b && LetsThrough(Subject(s, t).kind, s.actions[y]);
    RunKeepsTimes(states, steps, j);
    HiddenByLateCommit(states, steps, j, b, y, c);
  }

  lemma HiderOfRejectNewer(states: seq<State>, steps: seq<Step>, j: nat, t: Tx, b: ActionId, c: Credential)
    requires IsRun(states, steps) && j < |steps| && RejectMisses(states[j], t, b) && states[j].open[t].key == c
    ensures LateBefore(states, steps, j, c)
  {
    var s := states[j];
    var y :| IsLatest(s, y, c) && y != b && s.actions[y].chain !in {SENT, APPLIED};
    RunKeepsTimes(states, steps, j);
    HiddenByLateCommit(states, steps, j, b, y, c);
  }

  // While no submit for the key commits late, the key has at most one action in flight …
  lemma AtMostOneInFlight(states: seq<State>, steps: seq<Step>, k: nat, a: ActionId, b: ActionId, c: Credential)
    requires IsRun(states, steps) && k < |states| && InFlight(states[k], a, c) && InFlight(states[k], b, c)
    ensures a == b || LateBefore(states, steps, k, c)
  {
    if a != b {
      RunKeepsTimes(states, steps, k);
      if states[k].actions[a].submitted.value < states[k].actions[b].submitted.value {
        HiddenByLateCommit(states, steps, k, a, b, c);
      } else {
        HiddenByLateCommit(states, steps, k, b, a, c);
      }
    }
  }

  // … and none when it is rejected.
  lemma RejectedIsIdle(states: seq<State>, steps: seq<Step>, k: nat, t: Tx, b: ActionId, c: Credential)
    requires IsRun(states, steps) && k < |steps| && steps[k] == CommitReject(t) && c == states[k].open[t].key
    ensures !InFlight(states[k], b, c) || LateBefore(states, steps, k, c)
  {
    if InFlight(states[k], b, c) {
      StepOf(states, steps, k);
      var j := InFlightBehindRejectCheck(states, steps, k, t, b, c);
      HiderOfRejectNewer(states, steps, j, t, b, c);
    }
  }

  // ---------------------------------------------------------------------------- what goes through

  ghost predicate Follows(s: State, st: Step, s': State) {
    Enabled(s, st) && s' == Apply(s, st)
  }

  function SubmitSteps(t: Tx): seq<Step> {
    [LockAction(t), LockTarget(t), CheckInFlight(t), ShareKeySigner(t), CommitKey(t)]
  }

  ghost predicate OthersBegun(s: State, t: Tx) {
    forall u :: u in s.open && u != t ==> s.open[u].stage == Begun
  }

  // A submit with a draft and both keys fit, and nobody else past his first step.
  ghost predicate AloneWith(s: State, t: Tx, a: ActionId, stage: Stage) {
    && t in s.open && s.open[t].KeySubmit? && s.open[t].stage == stage && s.open[t].action == a && OthersBegun(s, t)
    && a in s.actions && s.actions[a].submitted == None
    && s.actions[a].target in s.keys && s.keys[s.actions[a].target] == (if s.actions[a].kind == Revoke then ACTIVE else PENDING)
    && s.actions[a].signer in s.keys && s.keys[s.actions[a].signer] == ACTIVE
  }

  ghost predicate CheckPasses(s: State, a: ActionId)
    requires a in s.actions
  {
    forall b :: IsLatest(s, b, s.actions[a].target) ==> LetsThrough(s.actions[a].kind, s.actions[b])
  }

  lemma TakesLocks(s: State, t: Tx, a: ActionId)
    requires AloneWith(s, t, a, Begun)
    ensures Follows(s, LockAction(t), At(s, t, ActionLocked))
    ensures Follows(At(s, t, ActionLocked), LockTarget(t), At(s, t, TargetLocked))
  {
  }

  lemma PassesCheck(s: State, t: Tx, a: ActionId)
    requires AloneWith(s, t, a, TargetLocked) && CheckPasses(s, a)
    ensures Follows(s, CheckInFlight(t), At(s, t, Checked))
  {
  }

  lemma Finishes(s: State, t: Tx, a: ActionId)
    requires AloneWith(s, t, a, Checked)
    ensures Follows(s, ShareKeySigner(t), At(s, t, SignerLocked))
    ensures Follows(At(s, t, SignerLocked), CommitKey(t), AfterSubmit(s, t, a))
  {
  }

  function AfterSubmit(s: State, t: Tx, a: ActionId): State
    requires t in s.open && s.open[t].KeySubmit? && a in s.actions
  {
    s.(open := s.open - {t}, actions := s.actions[a := s.actions[a].(submitted := Some(s.open[t].started))], log := s.log + [KeyCommitted(a)])
  }

  // A submit that meets no lock and no blocking action runs through.
  lemma Submits(s: State, t: Tx, a: ActionId) returns (states: seq<State>, s': State)
    requires AloneWith(s, t, a, Begun) && CheckPasses(s, a)
    ensures Path(Follows, states, SubmitSteps(t)) && states[0] == s && states[|SubmitSteps(t)|] == s'
    ensures s' == AfterSubmit(s, t, a)
  {
    var s2, s3 := At(s, t, TargetLocked), At(s, t, Checked);
    TakesLocks(s, t, a);
    assert forall b :: IsLatest(s2, b, s.actions[a].target) ==> IsLatest(s, b, s.actions[a].target);
    PassesCheck(s2, t, a);
    Finishes(s3, t, a);
    s' := AfterSubmit(s3, t, a);
    assert s3.open - {t} == s.open - {t};
    states := [s, At(s, t, ActionLocked), s2, s3, At(s3, t, SignerLocked), s'];
  }

  // So does a warehouse submit whose signer's key is ACTIVE and not revoked …
  lemma WarehouseCommits(s: State, t: Tx) returns (states: seq<State>)
    requires t in s.open && s.open[t].Warehouse? && s.open[t].stage == Begun && OthersBegun(s, t)
    requires var c := s.open[t].signer; c in s.keys && s.keys[c] == ACTIVE && !Revoked(s, c)
    ensures Path(Follows, states, [ShareSigner(t), CheckRevoked(t), CommitWarehouse(t)]) && states[0] == s
    ensures states[3].log == s.log + [WarehouseCommitted(s.open[t].signer)] && states[3].keys == s.keys && states[3].actions == s.actions
  {
    var s1, s2 := At(s, t, SignerLocked), At(s, t, Checked);
    assert Follows(s, ShareSigner(t), s1);
    assert s1.actions == s.actions;
    assert Follows(s1, CheckRevoked(t), s2);
    assert Follows(s2, CommitWarehouse(t), Apply(s2, CommitWarehouse(t)));
    states := [s, s1, s2, Apply(s2, CommitWarehouse(t))];
  }

  // … and the rejection of a PENDING key that has no action, or only failed ones.
  lemma Rejects(s: State, t: Tx) returns (states: seq<State>)
    requires t in s.open && s.open[t].KeyReject? && s.open[t].stage == Begun && OthersBegun(s, t)
    requires var c := s.open[t].key; c in s.keys && s.keys[c] == PENDING
    requires forall a :: SubmittedFor(s, a, s.open[t].key) ==> s.actions[a].chain == FAILED || s.actions[a].chain == REFUSED
    ensures Path(Follows, states, [LockPending(t), CheckReject(t), CommitReject(t)]) && states[0] == s
    ensures states[3].keys == s.keys[s.open[t].key := REJECTED] && states[3].actions == s.actions
  {
    var c, s1, s2 := s.open[t].key, At(s, t, TargetLocked), At(s, t, Checked);
    assert Follows(s, LockPending(t), s1);
    assert forall b :: IsLatest(s1, b, c) ==> SubmittedFor(s, b, c);
    assert Follows(s1, CheckReject(t), s2);
    assert Follows(s2, CommitReject(t), Apply(s2, CommitReject(t)));
    states := [s, s1, s2, Apply(s2, CommitReject(t))];
  }

  // ------------------------------------------------------------------------------------ runs

  const ADMIN: Credential := 9
  const NEWCOMER: Credential := 5

  const KEYS: map<Credential, KeyStatus> := map[ADMIN := ACTIVE, NEWCOMER := PENDING]

  function Registration(submitted: Option<Time>, chain: Confirmation): KeyAction {
    KeyAction(Register, NEWCOMER, ADMIN, submitted, chain)
  }

  function Revocation(submitted: Option<Time>, chain: Confirmation): KeyAction {
    KeyAction(Revoke, NEWCOMER, ADMIN, submitted, chain)
  }

  const DRAFT: KeyAction := Registration(None, SENT)

  const EMPTY: State := State(KEYS, map[], map[], 0, [])

  const TWO_BEGUN: State :=
    EMPTY.(actions := map[1 := DRAFT, 2 := DRAFT, 3 := DRAFT], open := map[0 := KeySubmit(1, 0, Begun), 1 := KeySubmit(2, 1, Begun)], clock := 2)

  lemma Opening() returns (states: seq<State>, steps: seq<Step>)
    ensures Path(Follows, states, steps) && states[0] == EMPTY && states[|steps|] == TWO_BEGUN
  {
    var s1 := EMPTY.(actions := map[1 := DRAFT]);
    var s2 := EMPTY.(actions := map[1 := DRAFT, 2 := DRAFT]);
    var s3 := EMPTY.(actions := TWO_BEGUN.actions);
    var s4 := s3.(open := map[0 := KeySubmit(1, 0, Begun)], clock := 1);
    assert Follows(EMPTY, Draft(1, DRAFT), s1);
    assert Follows(s1, Draft(2, DRAFT), s2);
    assert Follows(s2, Draft(3, DRAFT), s3);
    assert Follows(s3, BeginKey(0, 1), s4);
    assert Follows(s4, BeginKey(1, 2), TWO_BEGUN);
    states := [EMPTY, s1, s2, s3, s4, TWO_BEGUN];
    steps := [Draft(1, DRAFT), Draft(2, DRAFT), Draft(3, DRAFT), BeginKey(0, 1), BeginKey(1, 2)];
  }

  // The younger transaction submits first, and its action fails on chain.
  lemma YoungerFails() returns (states: seq<State>, steps: seq<Step>, s: State)
    ensures Path(Follows, states, steps) && states[0] == EMPTY && states[|steps|] == s
    ensures s.keys == KEYS && s.open == map[0 := KeySubmit(1, 0, Begun)] && s.clock == 2
    ensures s.actions == map[1 := DRAFT, 2 := Registration(Some(1), FAILED), 3 := DRAFT]
  {
    states, steps := Opening();
    var piece, s1 := Submits(TWO_BEGUN, 1, 2);
    states, steps := Joined(Follows, states, steps, piece, SubmitSteps(1));
    s := Apply(s1, Settle(2, FAILED));
    assert Follows(s1, Settle(2, FAILED), s);
    states, steps := Joined(Follows, states, steps, [s1, s], [Settle(2, FAILED)]);
  }

  // The older one follows with an older submitted_at and stays in flight unseen.
  lemma OlderFollows() returns (states: seq<State>, steps: seq<Step>, s: State)
    ensures Path(Follows, states, steps) && states[0] == EMPTY && states[|steps|] == s
    ensures s.keys == KEYS && s.open == map[2 := KeySubmit(3, 2, Begun)]
    ensures s.actions == map[1 := Registration(Some(0), SENT), 2 := Registration(Some(1), FAILED), 3 := DRAFT]
  {
    var s0, s1, piece;
    states, steps, s0 := YoungerFails();
    assert forall b :: IsLatest(s0, b, NEWCOMER) ==> b == 2;
    piece, s1 := Submits(s0, 0, 1);
    states, steps := Joined(Follows, states, steps, piece, SubmitSteps(0));
    s := Apply(s1, BeginKey(2, 3));
    assert Follows(s1, BeginKey(2, 3), s);
    states, steps := Joined(Follows, states, steps, [s1, s], [BeginKey(2, 3)]);
  }

  // Two registrations of one key in flight at once: the check of the second passed over the first.
  lemma TwoInFlight() returns (states: seq<State>, steps: seq<Step>)
    ensures IsRun(states, steps)
    ensures InFlight(states[|steps|], 1, NEWCOMER) && InFlight(states[|steps|], 3, NEWCOMER)
    ensures Second(states, steps, |steps|, 3, 1, NEWCOMER)
  {
    var s0, s1, piece;
    states, steps, s0 := OlderFollows();
    OnlySecondIsLatest(s0);
    piece, s1 := Submits(s0, 2, 3);
    states, steps := Joined(Follows, states, steps, piece, SubmitSteps(2));
    PathIsRun(states, steps);
    LastIsSecond(states, steps, 2, 3, 1, NEWCOMER);
  }

  lemma LastIsSecond(states: seq<State>, steps: seq<Step>, t: Tx, a: ActionId, b: ActionId, c: Credential)
    requires IsRun(states, steps) && |steps| > 0 && steps[|steps| - 1] == CommitKey(t) && a != b
    requires var s := states[|steps|]; InFlight(s, a, c) && InFlight(s, b, c) && s.log != [] && s.log[|s.log| - 1] == KeyCommitted(a)
    ensures Second(states, steps, |steps|, a, b, c)
  {
    var i: nat := |steps| - 1;
    StepOf(states, steps, i);
    NewcomerOrBoth(states[i], steps[i], a, b, c);
    assert states[i].open[t].action == a;
    NewcomerIsSecond(states, steps, i, a, b, c);
  }

  lemma OnlySecondIsLatest(s: State)
    requires s.actions == map[1 := Registration(Some(0), SENT), 2 := Registration(Some(1), FAILED), 3 := DRAFT]
    ensures forall b :: IsLatest(s, b, NEWCOMER) ==> b == 2
  {
    assert SubmittedFor(s, 2, NEWCOMER);
  }

  lemma PathIsRun(states: seq<State>, steps: seq<Step>)
    requires Path(Follows, states, steps) && Fresh(states[0])
    ensures IsRun(states, steps)
  {
    forall k | 0 <= k < |steps|
      ensures Enabled(states[k], steps[k]) && states[k + 1] == Apply(states[k], steps[k])
    {
      assert Follows(states[k], steps[k], states[k + 1]);
    }
  }

  // A key's life: registered, applied, activated, and then revoked by a submit that its own applied
  // registration does not stop.
  lemma RegisteredKeyIsRevoked() returns (states: seq<State>, steps: seq<Step>)
    ensures IsRun(states, steps)
    ensures var s := states[|steps|];
            && s.log == [KeyCommitted(1), KeyCommitted(2)] && s.keys == ACTIVATED
            && s.actions == map[1 := Registration(Some(0), APPLIED), 2 := Revocation(Some(1), SENT)]
  {
    var s, s1, piece;
    states, steps, s := Registered();
    piece, s1 := Submits(s, 1, 2);
    states, steps := Joined(Follows, states, steps, piece, SubmitSteps(1));
    PathIsRun(states, steps);
  }

  const ACTIVATED: map<Credential, KeyStatus> := map[ADMIN := ACTIVE, NEWCOMER := ACTIVE]

  lemma Registered() returns (states: seq<State>, steps: seq<Step>, s: State)
    ensures Path(Follows, states, steps) && states[0] == EMPTY && states[|steps|] == s
    ensures AloneWith(s, 1, 2, Begun) && CheckPasses(s, 2) && s.log == [KeyCommitted(1)] && s.keys == ACTIVATED && s.open[1].started == 1
    ensures s.actions == map[1 := Registration(Some(0), APPLIED), 2 := Revocation(None, SENT)]
  {
    var s2 := EMPTY.(actions := map[1 := DRAFT], open := map[0 := KeySubmit(1, 0, Begun)], clock := 1);
    assert Follows(EMPTY, Draft(1, DRAFT), EMPTY.(actions := map[1 := DRAFT]));
    assert Follows(EMPTY.(actions := map[1 := DRAFT]), BeginKey(0, 1), s2);
    var piece, s3 := Submits(s2, 0, 1);
    states, steps := Joined(Follows, [EMPTY, EMPTY.(actions := map[1 := DRAFT]), s2], [Draft(1, DRAFT), BeginKey(0, 1)], piece, SubmitSteps(0));
    assert s3.open == map[] && s3.actions == map[1 := Registration(Some(0), SENT)] && s3.log == [KeyCommitted(1)];
    var more, on;
    more, on, s := Applied(s3);
    states, steps := Joined(Follows, states, steps, more, on);
  }

  // The chain applies the registration, the key is activated, and its revoke drafted and begun.
  lemma Applied(s3: State) returns (states: seq<State>, steps: seq<Step>, s: State)
    requires s3 == State(KEYS, map[1 := Registration(Some(0), SENT)], map[], 1, [KeyCommitted(1)])
    ensures Path(Follows, states, steps) && states[0] == s3 && states[|steps|] == s
    ensures s == State(ACTIVATED, map[1 := Registration(Some(0), APPLIED), 2 := Revocation(None, SENT)], map[1 := KeySubmit(2, 1, Begun)], 2, s3.log)
    ensures AloneWith(s, 1, 2, Begun) && CheckPasses(s, 2)
  {
    var s5 := State(ACTIVATED, map[1 := Registration(Some(0), APPLIED)], map[], 1, s3.log);
    states, steps := Activated(s3);
    var more, on;
    more, on, s := RevokeBegun(s5);
    states, steps := Joined(Follows, states, steps, more, on);
  }

  lemma Activated(s3: State) returns (states: seq<State>, steps: seq<Step>)
    requires s3 == State(KEYS, map[1 := Registration(Some(0), SENT)], map[], 1, [KeyCommitted(1)])
    ensures Path(Follows, states, steps) && states[0] == s3
    ensures states[|steps|] == State(ACTIVATED, map[1 := Registration(Some(0), APPLIED)], map[], 1, s3.log)
  {
    var s4 := s3.(actions := map[1 := Registration(Some(0), APPLIED)]);
    assert Follows(s3, Settle(1, APPLIED), s4);
    assert Follows(s4, SetStatus(NEWCOMER, ACTIVE), s4.(keys := ACTIVATED));
    states, steps := [s3, s4, s4.(keys := ACTIVATED)], [Settle(1, APPLIED), SetStatus(NEWCOMER, ACTIVE)];
  }

  lemma RevokeBegun(s5: State) returns (states: seq<State>, steps: seq<Step>, s: State)
    requires s5 == State(ACTIVATED, map[1 := Registration(Some(0), APPLIED)], map[], 1, [KeyCommitted(1)])
    ensures Path(Follows, states, steps) && states[0] == s5 && states[|steps|] == s
    ensures s == State(ACTIVATED, map[1 := Registration(Some(0), APPLIED), 2 := Revocation(None, SENT)], map[1 := KeySubmit(2, 1, Begun)], 2, s5.log)
    ensures AloneWith(s, 1, 2, Begun) && CheckPasses(s, 2)
  {
    var s6 := s5.(actions := map[1 := Registration(Some(0), APPLIED), 2 := Revocation(None, SENT)]);
    s := s6.(open := map[1 := KeySubmit(2, 1, Begun)], clock := 2);
    assert Follows(s5, Draft(2, Revocation(None, SENT)), s6);
    assert Follows(s6, BeginKey(1, 2), s);
    states, steps := [s5, s6, s], [Draft(2, Revocation(None, SENT)), BeginKey(1, 2)];
    assert forall b :: IsLatest(s, b, NEWCOMER) ==> b == 1;
  }
}
