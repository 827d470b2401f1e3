// The signer's client: one local nonce, recovered when another sender uses the key, and the lower
// bounds on gas (ledger-adapter/internal/chain/{client,warehouseactions,keyactions}.go).
module ChainClient {
  import opened Basics

  // ------------------------------------------------------------------------------- gas

  const TX_BASE_GAS: nat := 21000
  const ACTION_GAS_FLOOR: nat := 70000
  const RECEIVE_ITEM_GAS_FLOOR: nat := 28000
  const MOVE_ITEM_GAS_FLOOR: nat := 9000
  const RECEIVE: nat := 1

  const GAS_LIMIT_HEADROOM_NUM: nat := 3
  const GAS_LIMIT_HEADROOM_DEN: nat := 2

  // The Go sums are uint64: they wrap.
  const TWO_64: nat := 0x1_0000_0000_0000_0000

  datatype WarehouseAction = WarehouseAction(actionType: nat, items: nat)

  function ActionFloor(a: WarehouseAction): nat {
    ACTION_GAS_FLOOR + a.items * (if a.actionType == RECEIVE then RECEIVE_ITEM_GAS_FLOOR else MOVE_ITEM_GAS_FLOOR)
  }

  function FloorOf(actions: seq<WarehouseAction>): nat {
    if actions == [] then TX_BASE_GAS else FloorOf(actions[..|actions| - 1]) + ActionFloor(actions[|actions| - 1])
  }

  // Splitting a list of actions over two transactions costs one more base fee and nothing else.
  lemma {:induction false} FloorIsAdditive(a: seq<WarehouseAction>, b: seq<WarehouseAction>)
    ensures FloorOf(a + b) + TX_BASE_GAS == FloorOf(a) + FloorOf(b)
    decreases |b|
  {
    if b == [] {
      assert a + b == a;
    } else {
      FloorIsAdditive(a, b[..|b| - 1]);
      assert (a + b)[..|a + b| - 1] == a + b[..|b| - 1];
    }
  }

  method ApplyActionsGasFloor(actions: seq<WarehouseAction>) returns (floor: nat)
    ensures floor == FloorOf(actions) % TWO_64
  {
    floor := TX_BASE_GAS;
    var i := 0;
    while i < |actions|
      invariant 0 <= i <= |actions| && floor == FloorOf(actions[..i]) % TWO_64
    {
      var a := actions[i];
      assert actions[..i + 1][..i] == actions[..i];
      floor := (floor + ACTION_GAS_FLOOR) % TWO_64;
      var perItem := MOVE_ITEM_GAS_FLOOR;
      if a.actionType == RECEIVE {
        perItem := RECEIVE_ITEM_GAS_FLOOR;
      }
      WrapsOnce(FloorOf(actions[..i]), ACTION_GAS_FLOOR);
      WrapsOnce(FloorOf(actions[..i]) + ACTION_GAS_FLOOR, a.items * perItem);
      floor := (floor + (a.items * perItem) % TWO_64) % TWO_64;
      i := i + 1;
    }
    assert actions[..i] == actions;
  }

  lemma WrapsOnce(x: nat, y: nat)
    ensures (x % TWO_64 + y) % TWO_64 == (x + y) % TWO_64
    ensures (x % TWO_64 + y % TWO_64) % TWO_64 == (x + y) % TWO_64
  {
  }

  // -------------------------------------------------------------------------- the nonce

  // What the node and the signer answer to one send, call by call.
  datatype Estimate = Gas(gas: nat) | Reverts | NoAnswer

  datatype Signing = Signed | SignerAway | SigningFails

  // LostReply: the node took the transaction, the client saw an error.
  datatype Delivery = Accepted | LostReply | NonceTooLow | Unreachable

  datatype Answers = Answers(pendingNonce: bool, gasPrice: bool, estimate: Estimate, chainId: bool, signing: Signing,
                             delivery: Delivery, reseed: bool)

  datatype Result = Sent(nonce: nat, gas: nat) | Transient | Revert | Fatal

  // The estimate and half as much again, but not below the floor.
  function GasLimit(estimate: nat, minGas: nat): nat {
    var scaled := estimate * GAS_LIMIT_HEADROOM_NUM % TWO_64 / GAS_LIMIT_HEADROOM_DEN;
    if scaled < minGas then minGas else scaled
  }

  // At least the floor and at least one and a half times the estimate, and no more than the larger of the two.
  lemma GasLimitIsEnough(estimate: nat, minGas: nat)
    requires 3 * estimate < TWO_64
    ensures var limit := GasLimit(estimate, minGas);
            && limit >= minGas && 2 * limit + 1 >= 3 * estimate
            && (limit > minGas ==> 3 * estimate - 1 <= 2 * limit <= 3 * estimate)
  {
  }

  // Receiving ten items, and moving ten.
  lemma FloorsInNumbers()
    ensures FloorOf([]) == 21000
    ensures FloorOf([WarehouseAction(1, 10)]) == 21000 + 70000 + 280000
    ensures FloorOf([WarehouseAction(2, 10)]) == 21000 + 70000 + 90000
  {
    assert [WarehouseAction(1, 10)][..0] == [] && [WarehouseAction(2, 10)][..0] == [];
  }

  // How far one call gets.
  predicate ReachesEstimate(seeded: bool, a: Answers) {
    (seeded || a.pendingNonce) && a.gasPrice
  }

  predicate Reaches(seeded: bool, a: Answers) {
    ReachesEstimate(seeded, a) && a.estimate.Gas? && a.chainId && a.signing == Signed
  }

  // What a send comes to: its result, the local nonce after it (None: to be read again), the node's pending nonce.
  datatype Sending = Sending(result: Result, local: Option<nat>, pending: nat)

  // With the nonce at hand.
  function Transmission(nonce: nat, pending: nat, minGas: nat, a: Answers): Sending {
    if !a.gasPrice || a.estimate == NoAnswer then Sending(Transient, Some(nonce), pending)
    else if a.estimate == Reverts then Sending(Revert, Some(nonce), pending)
    else if !a.chainId || a.signing == SignerAway then Sending(Transient, Some(nonce), pending)
    else if a.signing == SigningFails then Sending(Fatal, Some(nonce), pending)
    else
      match a.delivery
      case Accepted => Sending(Sent(nonce, GasLimit(a.estimate.gas, minGas)), Some(nonce + 1), Pooled(nonce, pending))
      case LostReply => Sending(Transient, Some(nonce), Pooled(nonce, pending))
      case NonceTooLow => Sending(Transient, if a.reseed then Some(pending) else None, pending)
      case Unreachable => Sending(Transient, Some(nonce), pending)
  }

  // The pending nonce once the pool holds a transaction with this one.
  function Pooled(nonce: nat, pending: nat): nat {
    if nonce >= pending then nonce + 1 else pending
  }

  function SendOnce(local: Option<nat>, pending: nat, minGas: nat, a: Answers): Sending {
    if local == None && !a.pendingNonce then Sending(Transient, None, pending)
    else Transmission(if local.Some? then local.value else pending, pending, minGas, a)
  }

  // The node takes no nonce it has already mined, and calls no other too low.
  predicate Honest(account: nat, nonce: nat, a: Answers) {
    && (a.delivery in {Accepted, LostReply} ==> account <= nonce)
    && (a.delivery == NonceTooLow ==> nonce < account)
  }

  // The node's view of the key: the next nonce to be mined and the next one unused in its pool.
  class Node {
    var account: nat
    var pending: nat

    ghost predicate Valid()
      reads this
    {
      account <= pending
    }

    constructor ()
      ensures Valid()
    {
      account, pending := 0, 0;
    }

    method Accept(nonce: nat)
      requires Valid() && account <= nonce
      modifies this
      ensures Valid() && account == old(account)
      ensures pending == if nonce >= old(pending) then nonce + 1 else old(pending)
    {
      if nonce >= pending {
        pending := nonce + 1;
      }
    }

    // Another sender's transaction, or a block.
    method Elsewhere(sent: nat, mined: nat)
      requires Valid() && account + mined <= pending + sent
      modifies this
      ensures Valid() && pending == old(pending) + sent && account == old(account) + mined
    {
      account, pending := account + mined, pending + sent;
    }
  }

  class Client {
    const node: Node
    var nonce: nat
    var nonceSeeded: bool

    // A seeded nonce never runs ahead of the node: sending it leaves no gap.
    ghost predicate Valid()
      reads this, node
    {
      node.Valid() && (nonceSeeded ==> nonce <= node.pending)
    }

    constructor (n: Node)
      requires n.Valid()
      ensures Valid() && node == n && !nonceSeeded
    {
      node, nonce, nonceSeeded := n, 0, false;
    }

    // What others send with the same key, and blocks, between two sends: the local nonce may fall behind,
    // never ahead.
    method Meanwhile(sent: nat, mined: nat)
      requires Valid() && node.account + mined <= node.pending + sent
      modifies node
      ensures Valid() && nonce == old(nonce) && nonceSeeded == old(nonceSeeded)
      ensures node.pending == old(node.pending) + sent && node.account == old(node.account) + mined
    {
      node.Elsewhere(sent, mined);
    }

    // The nonce the next send will use.
    ghost function NextNonce(): nat
      reads this, node
    {
      if nonceSeeded then nonce else node.pending
    }

    ghost function Local(): Option<nat>
      reads this
    {
      if nonceSeeded then Some(nonce) else None
    }

    method ReseedLocked(answers: bool) returns (ok: bool)
      requires Valid()
      modifies `nonce, `nonceSeeded
      ensures Valid() && ok == answers
      ensures ok ==> nonceSeeded && nonce == node.pending
      ensures !ok ==> nonce == old(nonce) && nonceSeeded == old(nonceSeeded)
    {
      if answers {
        nonce, nonceSeeded := node.pending, true;
      }
      ok := answers;
    }

    // One transaction at most leaves, with the local nonce; the nonce advances exactly when the client
    // saw it accepted, and a nonce the node has already mined is dropped or read again.
    method Send(minGas: nat, a: Answers) returns (r: Result)
      requires Valid()
      requires a.delivery in {Accepted, LostReply} ==> node.account <= NextNonce()
      modifies `nonce, `nonceSeeded, node
      ensures Valid()
      ensures Sending(r, Local(), node.pending) == SendOnce(old(Local()), old(node.pending), minGas, a)
      ensures r.Sent? ==>
                && r.nonce == old(NextNonce()) && r.nonce <= old(node.pending)
                && nonceSeeded && nonce == r.nonce + 1
                && a.estimate.Gas? && r.gas == GasLimit(a.estimate.gas, minGas)
      ensures !r.Sent? && nonceSeeded ==> nonce == old(NextNonce()) || (a.delivery == NonceTooLow && nonce == node.pending)
      ensures Reaches(old(nonceSeeded), a) && a.delivery == NonceTooLow ==> !nonceSeeded || nonce == node.pending
      ensures node.account == old(node.account) && node.pending ==
                if Reaches(old(nonceSeeded), a) && a.delivery in {Accepted, LostReply} && old(NextNonce()) == old(node.pending) then old(node.pending) + 1 else old(node.pending)
      ensures r.Sent? <==> Reaches(old(nonceSeeded), a) && a.delivery == Accepted
      ensures r == Fatal <==> ReachesEstimate(old(nonceSeeded), a) && a.estimate.Gas? && a.chainId && a.signing == SigningFails
      ensures r == Revert <==> ReachesEstimate(old(nonceSeeded), a) && a.estimate == Reverts
    {
      if !nonceSeeded {
        if !a.pendingNonce {
          return Transient;
        }
        nonce, nonceSeeded := node.pending, true;
      }
      var used := nonce;
      if !a.gasPrice {
        return Transient;
      }
      if a.estimate == NoAnswer {
        return Transient;
      }
      if a.estimate == Reverts {
        return Revert;
      }
      var gasLimit := (a.estimate.gas * GAS_LIMIT_HEADROOM_NUM) % TWO_64 / GAS_LIMIT_HEADROOM_DEN;
      if gasLimit < minGas {
        gasLimit := minGas;
      }
      if !a.chainId {
        return Transient;
      }
      if a.signing == SignerAway {
        return Transient;
      }
      if a.signing == SigningFails {
        return Fatal;
      }
      match a.delivery {
        case Accepted =>
          node.Accept(used);
          nonce := nonce + 1;
          return Sent(used, gasLimit);
        case LostReply =>
          node.Accept(used);
          return Transient;
        case NonceTooLow =>
          var ok := ReseedLocked(a.reseed);
          if !ok {
            nonceSeeded := false;
          }
          return Transient;
        case Unreachable =>
          return Transient;
      }
    }
  }
}
