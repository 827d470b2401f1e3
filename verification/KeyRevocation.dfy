// Warehouse submits against key actions under READ COMMITTED: one snapshot a statement, FOR SHARE and
// FOR UPDATE row locks held to commit, any interleaving
// (wms/internal/signedops/repository.go, wms/internal/passkeys/actions_repository.go).
module KeyRevocation {
  import opened Basics

  type Tx = nat
  type Credential = nat
  type ActionId = nat
  type Time = nat

  datatype KeyStatus = PENDING | ACTIVE | REJECTED | REVOKED

  datatype KeyKind = Register | Revoke

  // ConfirmationStateOf: SENT stands for no row, PENDING and SENT; REFUSED and FAILED are the two
  // readings of onchain status 'FAILED', with and without a reason.
  datatype Confirmation = SENT | APPLIED | REFUSED | FAILED

  // submitted is submitted_at: NULL while the action is a draft.
  datatype KeyAction = KeyAction(kind: KeyKind, target: Credential, signer: Credential, submitted: Option<Time>, chain: Confirmation)

  datatype Stage = Begun | ActionLocked | TargetLocked | Checked | SignerLocked

  // started is what now() returns inside the transaction: the time it began.
  datatype Txn =
    | Warehouse(signer: Credential, stage: Stage)
    | KeySubmit(action: ActionId, started: Time, stage: Stage)
    | KeyReject(key: Credential, stage: Stage)

  datatype Entry = WarehouseCommitted(signer: Credential) | KeyCommitted(action: ActionId) | ChainFailed(action: ActionId)

  // keys and actions are the committed rows; log is what was committed, in order.
  datatype State = State(keys: map<Credential, KeyStatus>, actions: map<ActionId, KeyAction>, open: map<Tx, Txn>,
                         clock: Time, log: seq<Entry>)

  datatype Step =
    | Draft(a: ActionId, action: KeyAction)
    | BeginWarehouse(t: Tx, signer: Credential)
    | ShareSigner(t: Tx)
    | CheckRevoked(t: Tx)
    | CommitWarehouse(t: Tx)
    | BeginKey(t: Tx, a: ActionId)
    | LockAction(t: Tx)
    | LockTarget(t: Tx)
    | CheckInFlight(t: Tx)
    | ShareKeySigner(t: Tx)
    | CommitKey(t: Tx)
    | BeginReject(t: Tx, key: Credential)
    | LockPending(t: Tx)
    | CheckReject(t: Tx)
    | CommitReject(t: Tx)
    | Settle(a: ActionId, chain: Confirmation)
    | SetStatus(key: Credential, status: KeyStatus)
    | Abort(t: Tx)

  // ------------------------------------------------------------------------------ locks

  // FOR SHARE on the signer's row.
  predicate Shares(s: State, t: Tx, c: Credential) {
    && t in s.open
    && match s.open[t]
       case Warehouse(signer, stage) => signer == c && stage in {SignerLocked, Checked}
       case KeySubmit(a, _, stage) => a in s.actions && s.actions[a].signer == c && stage == SignerLocked
       case KeyReject(_, _) => false
  }

  // FOR UPDATE on a key's row.
  predicate Owns(s: State, t: Tx, c: Credential) {
    && t in s.open
    && match s.open[t]
       case Warehouse(_, _) => false
       case KeySubmit(a, _, stage) => a in s.actions && s.actions[a].target == c && stage in {TargetLocked, Checked, SignerLocked}
       case KeyReject(key, stage) => key == c && stage in {TargetLocked, Checked}
  }

  predicate OwnsAction(s: State, t: Tx, a: ActionId) {
    t in s.open && s.open[t].KeySubmit? && s.open[t].action == a && s.open[t].stage != Begun
  }

  ghost predicate MayShare(s: State, t: Tx, c: Credential) {
    forall u :: u != t ==> !Owns(s, u, c)
  }

  ghost predicate MayOwn(s: State, t: Tx, c: Credential) {
    forall u :: u != t ==> !Owns(s, u, c) && !Shares(s, u, c)
  }

  // --------------------------------------------------------------------------- queries

  predicate SubmittedFor(s: State, a: ActionId, c: Credential) {
    a in s.actions && s.actions[a].target == c && s.actions[a].submitted.Some?
  }

  predicate ChainFailedNow(k: KeyAction) {
    k.chain in {REFUSED, FAILED}
  }

  // Statement 2 of LockSigner: a submitted revoke whose onchain status is distinct from FAILED.
  predicate Revoked(s: State, c: Credential) {
    exists a :: a in s.actions && SubmittedFor(s, a, c) && s.actions[a].kind == Revoke && !ChainFailedNow(s.actions[a])
  }

  // ORDER BY submitted_at DESC LIMIT 1
  ghost predicate IsLatest(s: State, a: ActionId, c: Credential) {
    SubmittedFor(s, a, c) && forall b :: SubmittedFor(s, b, c) ==> s.actions[b].submitted.value <= s.actions[a].submitted.value
  }

  predicate Blocks(kind: KeyKind, latest: KeyAction) {
    latest.chain == SENT || (latest.chain == APPLIED && (kind == Register || latest.kind == Revoke))
  }

  function WantedStatus(kind: KeyKind): KeyStatus {
    if kind == Revoke then ACTIVE else PENDING
  }

  predicate AtStage(s: State, t: Tx, stage: Stage) {
    t in s.open && s.open[t].stage == stage
  }

  predicate SubmitAt(s: State, t: Tx, stage: Stage) {
    AtStage(s, t, stage) && s.open[t].KeySubmit? && s.open[t].action in s.actions
  }

  function Subject(s: State, t: Tx): KeyAction
    requires t in s.open && s.open[t].KeySubmit? && s.open[t].action in s.actions
  {
    s.actions[s.open[t].action]
  }

  ghost predicate Enabled(s: State, st: Step) {
    match st
    case Draft(a, k) => a !in s.actions && k.submitted == None && k.chain == SENT
    case BeginWarehouse(t, _) => t !in s.open
    case ShareSigner(t) =>
      && AtStage(s, t, Begun) && s.open[t].Warehouse?
      && s.open[t].signer in s.keys && s.keys[s.open[t].signer] == ACTIVE && MayShare(s, t, s.open[t].signer)
    case CheckRevoked(t) => AtStage(s, t, SignerLocked) && s.open[t].Warehouse? && !Revoked(s, s.open[t].signer)
    case CommitWarehouse(t) => AtStage(s, t, Checked) && s.open[t].Warehouse?
    case BeginKey(t, a) => t !in s.open && a in s.actions
    case LockAction(t) =>
      && SubmitAt(s, t, Begun) && Subject(s, t).submitted == None
      && forall u :: u != t ==> !OwnsAction(s, u, s.open[t].action)
    case LockTarget(t) =>
      && SubmitAt(s, t, ActionLocked)
      && Subject(s, t).target in s.keys && s.keys[Subject(s, t).target] == WantedStatus(Subject(s, t).kind)
      && MayOwn(s, t, Subject(s, t).target)
    case CheckInFlight(t) =>
      SubmitAt(s, t, TargetLocked) && forall b :: IsLatest(s, b, Subject(s, t).target) ==> !Blocks(Subject(s, t).kind, s.actions[b])
    case ShareKeySigner(t) =>
      && SubmitAt(s, t, Checked)
      && Subject(s, t).signer in s.keys && s.keys[Subject(s, t).signer] == ACTIVE && MayShare(s, t, Subject(s, t).signer)
    case CommitKey(t) => SubmitAt(s, t, SignerLocked)
    case BeginReject(t, _) => t !in s.open
    case LockPending(t) =>
      AtStage(s, t, Begun) && s.open[t].KeyReject? && s.open[t].key in s.keys && s.keys[s.open[t].key] == PENDING && MayOwn(s, t, s.open[t].key)
    case CheckReject(t) =>
      && AtStage(s, t, TargetLocked) && s.open[t].KeyReject?
      && forall b :: IsLatest(s, b, s.open[t].key) ==> s.actions[b].chain !in {SENT, APPLIED}
    case CommitReject(t) => AtStage(s, t, Checked) && s.open[t].KeyReject?
    // only what left the outbox reaches the chain; APPLIED and REFUSED are final, nothing becomes SENT again
    case Settle(a, chain) =>
      a in s.actions && s.actions[a].submitted.Some? && s.actions[a].chain in {SENT, FAILED} && chain != SENT
    case SetStatus(c, _) => forall u :: !Owns(s, u, c) && !Shares(s, u, c)
    case Abort(t) => t in s.open
  }

  function At(s: State, t: Tx, stage: Stage): State
    requires t in s.open
  {
    s.(open := s.open[t := s.open[t].(stage := stage)])
  }

  ghost function Apply(s: State, st: Step): State
    requires Enabled(s, st)
  {
    match st
    case Draft(a, k) => s.(actions := s.actions[a := k])
    case BeginWarehouse(t, c) => s.(open := s.open[t := Warehouse(c, Begun)])
    case ShareSigner(t) => At(s, t, SignerLocked)
    case CheckRevoked(t) => At(s, t, Checked)
    case CommitWarehouse(t) => s.(open := s.open - {t}, log := s.log + [WarehouseCommitted(s.open[t].signer)])
    case BeginKey(t, a) => s.(open := s.open[t := KeySubmit(a, s.clock, Begun)], clock := s.clock + 1)
    case LockAction(t) => At(s, t, ActionLocked)
    case LockTarget(t) => At(s, t, TargetLocked)
    case CheckInFlight(t) => At(s, t, Checked)
    case ShareKeySigner(t) => At(s, t, SignerLocked)
    case CommitKey(t) =>
      var a := s.open[t].action;
      s.(open := s.open - {t}, actions := s.actions[a := s.actions[a].(submitted := Some(s.open[t].started))],
         log := s.log + [KeyCommitted(a)])
    case BeginReject(t, c) => s.(open := s.open[t := KeyReject(c, Begun)])
    case LockPending(t) => At(s, t, TargetLocked)
    case CheckReject(t) => At(s, t, Checked)
    case CommitReject(t) => s.(open := s.open - {t}, keys := s.keys[s.open[t].key := REJECTED])
    case Settle(a, chain) =>
      var s1 := s.(actions := s.actions[a := s.actions[a].(chain := chain)]);
      if chain in {REFUSED, FAILED} then s1.(log := s.log + [ChainFailed(a)]) else s1
    case SetStatus(c, status) => s.(keys := s.keys[c := status])
    case Abort(t) => s.(open := s.open - {t})
  }

  ghost predicate Fresh(s: State) {
    s.actions == map[] && s.open == map[] && s.log == []
  }

  ghost predicate IsRun(states: seq<State>, steps: seq<Step>) {
    && |states| == |steps| + 1 && Fresh(states[0])
    && forall k :: 0 <= k < |steps| ==> Enabled(states[k], steps[k]) && states[k + 1] == Apply(states[k], steps[k])
  }

  // -------------------------------------------------------------------------- invariants

  ghost predicate LockInv(s: State) {
    && (forall t, u, c :: Owns(s, t, c) && Owns(s, u, c) ==> t == u)
    && (forall t, u, c :: Owns(s, t, c) && Shares(s, u, c) ==> t == u)
    && (forall t, u, a :: OwnsAction(s, t, a) && OwnsAction(s, u, a) ==> t == u)
    && (forall t, c :: Shares(s, t, c) ==> c in s.keys && s.keys[c] == ACTIVE)
    && (forall t :: t in s.open && s.open[t].KeySubmit? ==> s.open[t].action in s.actions)
    && (forall t, a :: OwnsAction(s, t, a) && a in s.actions ==> s.actions[a].submitted == None)
  }

  ghost predicate TargetInv(s: State) {
    forall t :: SubmitAt(s, t, TargetLocked) || SubmitAt(s, t, Checked) || SubmitAt(s, t, SignerLocked)
      ==> Subject(s, t).target in s.keys && s.keys[Subject(s, t).target] == WantedStatus(Subject(s, t).kind)
  }

  // The log against the rows.
  ghost predicate LogInv(s: State) {
    && (forall i, a :: Logged(s.log, i, KeyCommitted(a)) ==> a in s.actions && s.actions[a].submitted.Some?)
    && (forall i, a :: Logged(s.log, i, ChainFailed(a)) ==> a in s.actions && s.actions[a].submitted.Some?)
    && (forall a :: a in s.actions && ChainFailedNow(s.actions[a]) ==> FailedInLog(s, a))
    && (forall i, k, a :: Logged(s.log, i, KeyCommitted(a)) && Logged(s.log, k, ChainFailed(a)) ==> i < k)
    && (forall a :: a in s.actions && s.actions[a].submitted == None ==> s.actions[a].chain == SENT)
  }

  ghost predicate Logged(log: seq<Entry>, i: int, e: Entry) {
    0 <= i < |log| && log[i] == e
  }

  ghost predicate FailedInLog(s: State, a: ActionId) {
    exists k :: Logged(s.log, k, ChainFailed(a))
  }

  // A warehouse submit past its revocation check: every revoke submitted so far has failed once.
  ghost predicate CheckInv(s: State) {
    forall t, a :: AtStage(s, t, Checked) && s.open[t].Warehouse? && SubmittedFor(s, a, s.open[t].signer) && s.actions[a].kind == Revoke
      ==> FailedInLog(s, a)
  }

  // No warehouse row follows a revoke of its signer without a failure of that revoke in between.
  ghost predicate Serialized(s: State) {
    forall i, j, a :: Logged(s.log, i, KeyCommitted(a)) && a in s.actions && s.actions[a].kind == Revoke && i < j < |s.log|
                      && s.log[j] == WarehouseCommitted(s.actions[a].target)
      ==> exists k :: i < k < j && s.log[k] == ChainFailed(a)
  }

  ghost predicate Inv(s: State) {
    LockInv(s) && TargetInv(s) && LogInv(s) && CheckInv(s) && Serialized(s)
  }

  // ------------------------------------------------------------------------------- locks

  lemma LockStep(s: State, st: Step)
    requires LockInv(s) && Enabled(s, st)
    ensures LockInv(Apply(s, st))
  {
    var s' := Apply(s, st);
    OwnsStep(s, st);
    SharesStep(s, st);
    ActionStep(s, st);
  }

  // Who holds what after a step: what was held before, but for the lock just taken.
  lemma OwnsStep(s: State, st: Step)
    requires LockInv(s) && Enabled(s, st)
    ensures forall u, c :: Owns(Apply(s, st), u, c) ==>
              || Owns(s, u, c)
              || (st.LockTarget? && u == st.t && c == Subject(s, u).target)
              || (st.LockPending? && u == st.t && c == s.open[u].key)
  {
  }

  lemma SharesStep(s: State, st: Step)
    requires LockInv(s) && Enabled(s, st)
    ensures forall u, c :: Shares(Apply(s, st), u, c) ==>
              || Shares(s, u, c)
              || (st.ShareSigner? && u == st.t && c == s.open[u].signer)
              || (st.ShareKeySigner? && u == st.t && c == Subject(s, u).signer)
    ensures forall u, c :: Shares(Apply(s, st), u, c) ==> c in Apply(s, st).keys && Apply(s, st).keys[c] == ACTIVE
  {
    if st.CommitReject? {
      assert Owns(s, st.t, s.open[st.t].key);
    }
  }

  lemma ActionStep(s: State, st: Step)
    requires LockInv(s) && Enabled(s, st)
    ensures var s' := Apply(s, st);
            && (forall u, a :: OwnsAction(s', u, a) ==> OwnsAction(s, u, a) || (st.LockAction? && u == st.t && a == s.open[u].action))
            && (forall u :: u in s'.open && s'.open[u].KeySubmit? ==> s'.open[u].action in s'.actions)
            && (forall u, a :: OwnsAction(s', u, a) && a in s'.actions ==> s'.actions[a].submitted == None)
  {
    if st.CommitKey? {
      assert OwnsAction(s, st.t, s.open[st.t].action);
    }
  }

  // The target's row is owned, so its status stays what the check wanted.
  lemma TargetStep(s: State, st: Step)
    requires LockInv(s) && TargetInv(s) && Enabled(s, st)
    ensures TargetInv(Apply(s, st))
  {
    var s' := Apply(s, st);
    forall t | SubmitAt(s', t, TargetLocked) || SubmitAt(s', t, Checked) || SubmitAt(s', t, SignerLocked)
      ensures Subject(s', t).target in s'.keys && s'.keys[Subject(s', t).target] == WantedStatus(Subject(s', t).kind)
    {
      var c := Subject(s', t).target;
      if !(st.LockTarget? && st.t == t) {
        assert Owns(s, t, c);
        assert SubmitAt(s, t, TargetLocked) || SubmitAt(s, t, Checked) || SubmitAt(s, t, SignerLocked);
        assert st.CommitReject? ==> Owns(s, st.t, s.open[st.t].key);
      }
    }
  }

  // --------------------------------------------------------------------------------- log

  lemma LogStep(s: State, st: Step)
    requires LockInv(s) && LogInv(s) && Enabled(s, st)
    ensures LogInv(Apply(s, st))
  {
    var s' := Apply(s, st);
    LogGrows(s, st);
    if st.CommitKey? {
      assert OwnsAction(s, st.t, s.open[st.t].action);
    }
    forall a | a in s'.actions && ChainFailedNow(s'.actions[a])
      ensures FailedInLog(s', a)
    {
      if a in s.actions && ChainFailedNow(s.actions[a]) {
        FailureStays(s, s', a);
      } else {
        assert Logged(s'.log, |s.log|, ChainFailed(a));
      }
    }
  }

  lemma FailureStays(s: State, s': State, a: ActionId)
    requires FailedInLog(s, a) && s.log <= s'.log
    ensures FailedInLog(s', a)
  {
    var k :| Logged(s.log, k, ChainFailed(a));
    assert Logged(s'.log, k, ChainFailed(a));
  }

  // At most one entry is added, by the step that commits it or by the chain.
  lemma LogGrows(s: State, st: Step)
    requires Enabled(s, st)
    ensures var s' := Apply(s, st);
            && s.log <= s'.log
            && (forall i, e :: Logged(s'.log, i, e) ==>
                  || Logged(s.log, i, e)
                  || (i == |s.log| && ((st.CommitWarehouse? && e == WarehouseCommitted(s.open[st.t].signer))
                                       || (st.CommitKey? && e == KeyCommitted(s.open[st.t].action))
                                       || (st.Settle? && e == ChainFailed(st.a)))))
  {
  }

  // A revoke cannot commit while a checked warehouse submit holds the signer's row.
  lemma CheckStep(s: State, st: Step)
    requires LockInv(s) && LogInv(s) && CheckInv(s) && Enabled(s, st)
    ensures CheckInv(Apply(s, st))
  {
    var s' := Apply(s, st);
    LogGrows(s, st);
    forall t, a | AtStage(s', t, Checked) && s'.open[t].Warehouse? && SubmittedFor(s', a, s'.open[t].signer) && s'.actions[a].kind == Revoke
      ensures FailedInLog(s', a)
    {
      var c := s'.open[t].signer;
      if st.CheckRevoked? && st.t == t {
        assert SubmittedFor(s, a, c);
      } else {
        assert Shares(s, t, c);
        if st.CommitKey? && s.open[st.t].action == a {
          assert Owns(s, st.t, c);
        } else {
          assert SubmittedFor(s, a, c);
          FailureStays(s, s', a);
        }
      }
    }
  }

  lemma SerializedStep(s: State, st: Step)
    requires Inv(s) && Enabled(s, st)
    ensures Serialized(Apply(s, st))
  {
    var s' := Apply(s, st);
    LogGrows(s, st);
    forall i, j, a | Logged(s'.log, i, KeyCommitted(a)) && a in s'.actions && s'.actions[a].kind == Revoke && i < j < |s'.log|
                     && s'.log[j] == WarehouseCommitted(s'.actions[a].target)
      ensures exists k :: i < k < j && s'.log[k] == ChainFailed(a)
    {
      assert Logged(s'.log, j, s'.log[j]);
      assert Logged(s.log, i, KeyCommitted(a)) && s.actions[a].target == s'.actions[a].target;
      if Logged(s.log, j, s'.log[j]) {
        var k :| i < k < j && s.log[k] == ChainFailed(a);
        assert s'.log[k] == ChainFailed(a);
      } else {
        assert AtStage(s, st.t, Checked) && SubmittedFor(s, a, s.open[st.t].signer);
        var k :| Logged(s.log, k, ChainFailed(a));
        assert s'.log[k] == ChainFailed(a);
      }
    }
  }

  lemma {:induction false} RunKeepsInv(states: seq<State>, steps: seq<Step>, k: nat)
    requires IsRun(states, steps) && k < |states|
    ensures Inv(states[k])
    decreases k
  {
    if k > 0 {
      RunKeepsInv(states, steps, k - 1);
      var s, st := states[k - 1], steps[k - 1];
      LockStep(s, st);
      TargetStep(s, st);
      LogStep(s, st);
      CheckStep(s, st);
      SerializedStep(s, st);
    }
  }

  // ------------------------------------------------------------------------ main results

  // Over every interleaving: once a revoke of key c has committed, no warehouse row signed by c
  // commits unless that revoke failed on chain in between.
  lemma RevocationIsSerialized(states: seq<State>, steps: seq<Step>, n: nat, i: nat, j: nat, a: ActionId)
    requires IsRun(states, steps) && n < |states| && i < j < |states[n].log|
    requires states[n].log[i] == KeyCommitted(a) && a in states[n].actions && states[n].actions[a].kind == Revoke
    requires states[n].log[j] == WarehouseCommitted(states[n].actions[a].target)
    ensures exists k :: i < k < j && states[n].log[k] == ChainFailed(a)
  {
    RunKeepsInv(states, steps, n);
    assert Logged(states[n].log, i, KeyCommitted(a));
  }

  // Whatever commits, commits while its signer's key is ACTIVE; a revoke while its target is ACTIVE,
  // a registration while its target is PENDING.
  lemma KeysAreFitAtCommit(states: seq<State>, steps: seq<Step>, n: nat)
    requires IsRun(states, steps) && n < |steps|
    ensures FitToCommit(states[n], steps[n])
  {
    RunKeepsInv(states, steps, n);
    HeldKeysAreFit(states[n], steps[n]);
  }

  ghost predicate FitToCommit(s: State, st: Step) {
    && (st.CommitWarehouse? && st.t in s.open && s.open[st.t].Warehouse? ==>
          s.open[st.t].signer in s.keys && s.keys[s.open[st.t].signer] == ACTIVE)
    && (st.CommitKey? && SubmitAt(s, st.t, SignerLocked) ==>
          var k := Subject(s, st.t);
          && k.signer in s.keys && s.keys[k.signer] == ACTIVE
          && k.target in s.keys && s.keys[k.target] == (if k.kind == Revoke then ACTIVE else PENDING)
          && k.submitted == None)
  }

  lemma HeldKeysAreFit(s: State, st: Step)
    requires LockInv(s) && TargetInv(s) && Enabled(s, st)
    ensures FitToCommit(s, st)
  {
    if st.CommitWarehouse? {
      assert Shares(s, st.t, s.open[st.t].signer);
    }
    if st.CommitKey? {
      assert Shares(s, st.t, Subject(s, st.t).signer) && OwnsAction(s, st.t, s.open[st.t].action);
    }
  }
}
