// Outcomes of signed actions on chain, and the contract's rule for processing an action
// (ledger-adapter/contracts/SignedMappingWMS.sol, ledger-adapter/internal/chain/actioncontract.go).
module ActionOutcomes {
  import opened Basics
  import opened EventStore

  datatype Outcome = Applied | Rejected(reason: nat)

  datatype Receipt = Reverted | Mined(logs: map<Id, Outcome>)

  // How the contract judges an action it has no state for. A signer that does not verify is
  // reported in a log without recording a state; other refusals are recorded.
  datatype Verdict = Accept | Refuse(reason: nat, recorded: bool)

  function OutcomeOfVerdict(v: Verdict): Outcome {
    if v.Accept? then Applied else Rejected(v.reason)
  }

  // One log per action processed now; an action with a state is skipped silently.
  function LogsOf(state: map<Id, Outcome>, ids: set<Id>, judge: Id -> Verdict): map<Id, Outcome> {
    map id | id in ids && id !in state :: OutcomeOfVerdict(judge(id))
  }

  function StateAfter(state: map<Id, Outcome>, ids: set<Id>, judge: Id -> Verdict): map<Id, Outcome> {
    state + map id | id in ids && id !in state && (judge(id).Accept? || judge(id).recorded) :: OutcomeOfVerdict(judge(id))
  }

  // The receipt's own log first, the contract's state for an action without one.
  function Resolve(logs: map<Id, Outcome>, state: map<Id, Outcome>, id: Id): Option<Outcome> {
    if id in logs then Some(logs[id])
    else if id in state then Some(state[id])
    else None
  }
}
