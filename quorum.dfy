/** The quorum rules: who may approve a sender, how many approvals each sender
    needs, and the gate `finalizeApproval` passes before the contract moves to
    Approved. Every rule reads the world afresh, so an admin list or threshold
    changed after the approvals were recorded is what counts. */
module Quorum {
  import opened Errors
  import opened Registry
  import opened Oracle

  /** Whether `caller` may approve `sender`, given what probing `sender` returns:
      a plain account approves only for itself, a sender contract only through
      one of its current admins; a contract that cannot be queried, or one whose
      admin list is empty, admits nobody. */
  function Authorize(kind: AddressKind, sender: Address, caller: Address): (r: Outcome)
    ensures r.Pass? <==> (kind.Eoa? && caller == sender) || (kind.ContractWithState? && caller in kind.admins)
    ensures kind.Eoa? && caller != sender ==> r == Fail(SenderNotCaller)
    ensures kind.ContractWithoutGetState? ==> r == Fail(CallFailed)
    ensures kind.ContractWithState? && kind.admins == [] ==> r == Fail(EmptyAdminList)
    ensures kind.ContractWithState? && kind.admins != [] && caller !in kind.admins ==> r == Fail(CallerNotAdmin)
  {
    match kind
    case Eoa => if caller == sender then Pass else Fail(SenderNotCaller)
    case ContractWithoutGetState => Fail(CallFailed)
    case ContractWithState(admins, _) =>
      if |admins| == 0 then Fail(EmptyAdminList)
      else if caller !in admins then Fail(CallerNotAdmin)
      else Pass
  }

  /** The live approval threshold of a sender: one for a plain account, the
      contract's own `minReq` for a sender contract; reading it fails for a
      contract without `getState()`. */
  function RequiredApprovals(kind: AddressKind): (r: Result<nat>)
    ensures r.Err? <==> kind.ContractWithoutGetState?
    ensures r.Err? ==> r.error == CallFailed
    ensures kind.Eoa? ==> r == Ok(1)
    ensures kind.ContractWithState? ==> r == Ok(kind.minReq)
  {
    match kind
    case Eoa => Ok(1)
    case ContractWithState(_, minReq) => Ok(minReq)
    case ContractWithoutGetState => Err(CallFailed)
  }

  /** Reference definition: the approvals recorded for `s` reach its current threshold. */
  predicate MeetsQuorum(s: Sender, w: World)
  {
    match w.KindOf(s.addr)
    case Eoa => |s.approvers| >= 1
    case ContractWithState(_, minReq) => |s.approvers| >= minReq
    case ContractWithoutGetState => false
  }

  /** The verdict on one sender, with the error `finalizeApproval` reverts with. */
  function SenderQuorum(s: Sender, w: World): Outcome
  {
    match RequiredApprovals(w.KindOf(s.addr))
    case Err(e) => Fail(e)
    case Ok(minReq) => if |s.approvers| < minReq then Fail(QuorumNotReached) else Pass
  }

  /** The verdict on one sender agrees with the reference definition: it
      passes exactly when the sender meets its quorum, and otherwise names
      the unreadable threshold or the missing approvals. */
  lemma SenderQuorumSpec(s: Sender, w: World)
    ensures SenderQuorum(s, w).Pass? <==> MeetsQuorum(s, w)
    ensures SenderQuorum(s, w).Fail? ==>
      SenderQuorum(s, w).error == (if w.KindOf(s.addr).ContractWithoutGetState? then CallFailed else QuorumNotReached)
  {
  }

  /** The verdict on all senders, taken in registration order: the first
      sender that falls short decides the error. */
  function QuorumOutcome(ss: seq<Sender>, w: World): Outcome
    decreases |ss|
  {
    if ss == [] then Pass
    else if SenderQuorum(ss[0], w).Fail? then SenderQuorum(ss[0], w)
    else QuorumOutcome(ss[1..], w)
  }

  /** The sum of the senders' current balances. */
  function SumBalances(ss: seq<Sender>, w: World): nat
    decreases |ss|
  {
    if ss == [] then 0 else w.BalanceOf(ss[0].addr) + SumBalances(ss[1..], w)
  }

  /** What `finalizeApproval` checks once the caller and the stage are right:
      first the quorum of every sender, then that the treasury amount is below
      what the senders hold. */
  function ApprovalGate(ss: seq<Sender>, treasuryAmount: nat, w: World): Outcome
  {
    var q := QuorumOutcome(ss, w);
    if q.Fail? then q
    else if treasuryAmount < SumBalances(ss, w) then Pass
    else Fail(InsufficientFunds)
  }

  /** The quorum check passes exactly when every sender meets its threshold,
      and when it fails it reports a missing call or a missing approval. */
  lemma {:induction false} QuorumOutcomeSpec(ss: seq<Sender>, w: World)
    ensures QuorumOutcome(ss, w).Pass? <==> forall k :: 0 <= k < |ss| ==> MeetsQuorum(ss[k], w)
    ensures QuorumOutcome(ss, w).Fail? ==> QuorumOutcome(ss, w).error in {CallFailed, QuorumNotReached}
    decreases |ss|
  {
    if ss != [] {
      QuorumOutcomeSpec(ss[1..], w);
      assert SenderQuorum(ss[0], w).Pass? <==> MeetsQuorum(ss[0], w);
      if forall k :: 0 <= k < |ss[1..]| ==> MeetsQuorum(ss[1..][k], w) {
        assert forall k :: 1 <= k < |ss| ==> MeetsQuorum(ss[k], w) by {
          forall k | 1 <= k < |ss| ensures MeetsQuorum(ss[k], w) {
            assert ss[k] == ss[1..][k - 1];
          }
        }
      }
    }
  }

  /** `finalizeApproval` goes through exactly when every sender has reached its
      live threshold and the treasury amount is strictly below the senders'
      combined balance; it reports lack of funds exactly when the quorum is
      met but the balance is not enough. */
  lemma ApprovalGateSpec(ss: seq<Sender>, treasuryAmount: nat, w: World)
    ensures ApprovalGate(ss, treasuryAmount, w).Pass? <==>
      (forall k :: 0 <= k < |ss| ==> MeetsQuorum(ss[k], w)) && treasuryAmount < SumBalances(ss, w)
    ensures ApprovalGate(ss, treasuryAmount, w) == Fail(InsufficientFunds) <==>
      (forall k :: 0 <= k < |ss| ==> MeetsQuorum(ss[k], w)) && treasuryAmount >= SumBalances(ss, w)
  {
    QuorumOutcomeSpec(ss, w);
  }
}
