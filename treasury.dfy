/** The treasury rebalance contract: an owner registers senders and receivers,
    the senders' admins approve, and the owner moves the contract through
    Initialized, Registered, Approved and Finalized. Until it is finalized and
    while the rebalance block has not been reached, the owner may reset it.
    The caller (`msg.sender`), the current block number and the outside world
    are parameters of the calls that read them. */
module Rebalance {
  import opened Errors
  import opened Registry
  import opened Oracle
  import opened Quorum

  datatype Status = Initialized | Registered | Approved | Finalized

  /** The number the contract's `status()` getter reports. */
  function StatusCode(s: Status): (code: nat)
    ensures code <= 3
    ensures code == 0 <==> s == Initialized
    ensures code == 3 <==> s == Finalized
  {
    match s
    case Initialized => 0
    case Registered => 1
    case Approved => 2
    case Finalized => 3
  }

  /** Different stages are reported as different numbers. */
  lemma StatusCodeDistinct(a: Status, b: Status)
    ensures StatusCode(a) == StatusCode(b) <==> a == b
  {
  }

  /** Everything in the contract that calls change. */
  datatype State = State(
    status: Status,
    memo: string,
    senders: seq<Sender>,
    receivers: seq<Receiver>,
    treasuryAmount: nat)

  /** The state right after deployment, and after every reset. */
  const InitialState := State(Initialized, "", [], [], 0)

  /** The invariant every call keeps: the treasury amount is the sum of the
      receivers' amounts; sender and receiver addresses are unique and never
      the zero address; receivers get a positive amount; a sender never has
      the same approver twice; and before registration is finalized nobody
      has approved anything. */
  predicate Consistent(st: State)
  {
    && st.treasuryAmount == SumAmounts(st.receivers)
    && UniqueSenders(st.senders)
    && UniqueReceivers(st.receivers)
    && (forall k :: 0 <= k < |st.senders| ==>
          st.senders[k].addr != ZeroAddress && Distinct(st.senders[k].approvers))
    && (forall k :: 0 <= k < |st.receivers| ==>
          st.receivers[k].addr != ZeroAddress && st.receivers[k].amount > 0)
    && (st.status == Initialized ==> forall k :: 0 <= k < |st.senders| ==> st.senders[k].approvers == [])
  }

  class TreasuryRebalance {
    const owner: Address
    const rebalanceBlockNumber: nat
    var status: Status
    var memo: string
    var senders: seq<Sender>
    var receivers: seq<Receiver>
    var treasuryAmount: nat

    function Abs(): State
      reads this
    {
      State(status, memo, senders, receivers, treasuryAmount)
    }

    ghost predicate Valid()
      reads this
    {
      Consistent(Abs())
    }

    /** Deployment by `deployer`, who becomes the owner; the rebalance block is fixed for good. */
    constructor (deployer: Address, rebalanceBlockNumber: nat)
      ensures Valid()
      ensures owner == deployer && this.rebalanceBlockNumber == rebalanceBlockNumber
      ensures Abs() == InitialState
    {
      owner := deployer;
      this.rebalanceBlockNumber := rebalanceBlockNumber;
      status := Initialized;
      memo := "";
      senders := [];
      receivers := [];
      treasuryAmount := 0;
    }

    /** Scan of the sender list; -1 when `a` is not registered. */
    method FindSender(a: Address) returns (i: int)
      ensures i == SenderIndex(senders, a)
      ensures 0 <= i ==> i < |senders| && senders[i].addr == a
    {
      i := 0;
      while i < |senders|
        invariant 0 <= i <= |senders|
        invariant forall k :: 0 <= k < i ==> senders[k].addr != a
      {
        if senders[i].addr == a {
          return;
        }
        i := i + 1;
      }
      i := -1;
    }

    /** Scan of the receiver list; -1 when `a` is not registered. */
    method FindReceiver(a: Address) returns (i: int)
      ensures i == ReceiverIndex(receivers, a)
      ensures 0 <= i ==> i < |receivers| && receivers[i].addr == a
    {
      i := 0;
      while i < |receivers|
        invariant 0 <= i <= |receivers|
        invariant forall k :: 0 <= k < i ==> receivers[k].addr != a
      {
        if receivers[i].addr == a {
          return;
        }
        i := i + 1;
      }
      i := -1;
    }

    /** `getSender`: the sender registered under `a` with its approvers. */
    method GetSender(a: Address) returns (r: Result<Sender>)
      ensures r.Ok? <==> exists k :: 0 <= k < |senders| && senders[k].addr == a
      ensures r.Ok? ==> r.value in senders && r.value.addr == a
      ensures r.Ok? ==> r.value == senders[SenderIndex(senders, a)]
      ensures r.Err? ==> r.error == SenderDoesNotExist
    {
      var i := FindSender(a);
      if i < 0 {
        return Err(SenderDoesNotExist);
      }
      r := Ok(senders[i]);
    }

    /** `getReceiver`: the receiver registered under `a` with its amount. */
    method GetReceiver(a: Address) returns (r: Result<Receiver>)
      ensures r.Ok? <==> exists k :: 0 <= k < |receivers| && receivers[k].addr == a
      ensures r.Ok? ==> r.value in receivers && r.value.addr == a
      ensures r.Ok? ==> r.value == receivers[ReceiverIndex(receivers, a)]
      ensures r.Err? ==> r.error == ReceiverDoesNotExist
    {
      var i := FindReceiver(a);
      if i < 0 {
        return Err(ReceiverDoesNotExist);
      }
      r := Ok(receivers[i]);
    }

    /** `getTreasuryAmount`: what the receivers are owed in total. */
    function GetTreasuryAmount(): (amount: nat)
      reads this
      requires Valid()
      ensures amount == SumAmounts(receivers)
    {
      treasuryAmount
    }

    /** `registerSender`: the owner adds a sender, with no approvals yet. */
    method RegisterSender(caller: Address, a: Address) returns (r: Outcome)
      requires Valid()
      modifies this
      ensures Valid()
      ensures r == (if caller != owner then Fail(NotOwner)
                    else if old(status) != Initialized then Fail(NotAllowedAtStage)
                    else if a == ZeroAddress then Fail(InvalidAddress)
                    else if SenderIndex(old(senders), a) >= 0 then Fail(SenderAlreadyRegistered)
                    else Pass)
      ensures r.Pass? ==> Abs() == old(Abs()).(senders := old(senders) + [Sender(a, [])])
      ensures r.Fail? ==> Abs() == old(Abs())
    {
      if caller != owner {
        return Fail(NotOwner);
      }
      if status != Initialized {
        return Fail(NotAllowedAtStage);
      }
      if a == ZeroAddress {
        return Fail(InvalidAddress);
      }
      var i := FindSender(a);
      if i >= 0 {
        return Fail(SenderAlreadyRegistered);
      }
      senders := senders + [Sender(a, [])];
      r := Pass;
    }

    /** `removeSender`: the owner takes a sender off the list. Only the
        remaining entries are promised, not their order. */
    method RemoveSender(caller: Address, a: Address) returns (r: Outcome)
      requires Valid()
      modifies this
      ensures Valid()
      ensures r == (if caller != owner then Fail(NotOwner)
                    else if old(status) != Initialized then Fail(NotAllowedAtStage)
                    else if SenderIndex(old(senders), a) < 0 then Fail(SenderDoesNotExist)
                    else Pass)
      ensures r.Pass? ==> multiset(senders) == multiset(old(senders)) - multiset{Sender(a, [])}
      ensures r.Pass? ==> Abs() == old(Abs()).(senders := senders)
      ensures r.Fail? ==> Abs() == old(Abs())
    {
      if caller != owner {
        return Fail(NotOwner);
      }
      if status != Initialized {
        return Fail(NotAllowedAtStage);
      }
      var i := FindSender(a);
      if i < 0 {
        return Fail(SenderDoesNotExist);
      }
      var rest := Without(senders, i);
      UniqueSendersWithout(senders, i);
      forall k | 0 <= k < |rest|
        ensures rest[k].addr != ZeroAddress && Distinct(rest[k].approvers) && rest[k].approvers == []
      {
        assert rest[k] == senders[if k < i then k else k + 1];
      }
      assert senders[i] == Sender(a, []);
      senders := rest;
      r := Pass;
    }

    /** `registerReceiver`: the owner allocates `amount` to a new receiver. */
    method RegisterReceiver(caller: Address, a: Address, amount: nat) returns (r: Outcome)
      requires Valid()
      modifies this
      ensures Valid()
      ensures r == (if caller != owner then Fail(NotOwner)
                    else if old(status) != Initialized then Fail(NotAllowedAtStage)
                    else if a == ZeroAddress then Fail(InvalidAddress)
                    else if amount == 0 then Fail(ZeroAmount)
                    else if ReceiverIndex(old(receivers), a) >= 0 then Fail(ReceiverAlreadyRegistered)
                    else Pass)
      ensures r.Pass? ==> Abs() == old(Abs()).(receivers := old(receivers) + [Receiver(a, amount)],
                                                 treasuryAmount := old(treasuryAmount) + amount)
      ensures r.Fail? ==> Abs() == old(Abs())
    {
      if caller != owner {
        return Fail(NotOwner);
      }
      if status != Initialized {
        return Fail(NotAllowedAtStage);
      }
      if a == ZeroAddress {
        return Fail(InvalidAddress);
      }
      if amount == 0 {
        return Fail(ZeroAmount);
      }
      var i := FindReceiver(a);
      if i >= 0 {
        return Fail(ReceiverAlreadyRegistered);
      }
      SumAmountsAppend(receivers, Receiver(a, amount));
      receivers := receivers + [Receiver(a, amount)];
      treasuryAmount := treasuryAmount + amount;
      r := Pass;
    }

    /** `removeReceiver`: the owner drops a receiver and its allocation. Only
        the remaining entries are promised, not their order. */
    method RemoveReceiver(caller: Address, a: Address) returns (r: Outcome)
      requires Valid()
      modifies this
      ensures Valid()
      ensures r == (if caller != owner then Fail(NotOwner)
                    else if old(status) != Initialized then Fail(NotAllowedAtStage)
                    else if ReceiverIndex(old(receivers), a) < 0 then Fail(ReceiverDoesNotExist)
                    else Pass)
      ensures r.Pass? ==>
        var removed := old(receivers)[ReceiverIndex(old(receivers), a)];
        && multiset(receivers) == multiset(old(receivers)) - multiset{removed}
        && treasuryAmount == old(treasuryAmount) - removed.amount
        && Abs() == old(Abs()).(receivers := receivers, treasuryAmount := treasuryAmount)
      ensures r.Fail? ==> Abs() == old(Abs())
    {
      if caller != owner {
        return Fail(NotOwner);
      }
      if status != Initialized {
        return Fail(NotAllowedAtStage);
      }
      var i := FindReceiver(a);
      if i < 0 {
        return Fail(ReceiverDoesNotExist);
      }
      var rest := Without(receivers, i);
      SumAmountsWithout(receivers, i);
      UniqueReceiversWithout(receivers, i);
      forall k | 0 <= k < |rest| ensures rest[k].addr != ZeroAddress && rest[k].amount > 0 {
        assert rest[k] == receivers[if k < i then k else k + 1];
      }
      treasuryAmount := treasuryAmount - receivers[i].amount;
      receivers := rest;
      r := Pass;
    }

    /** `approve`: `caller` approves the transfer out of `s`. Anyone may call;
        the world decides whether the caller speaks for `s`. The result is the
        number of approvers `s` has afterwards. */
    method Approve(w: World, caller: Address, s: Address) returns (r: Result<nat>)
      requires Valid()
      modifies this
      ensures Valid()
      ensures old(status) != Registered ==> r == Err(NotAllowedAtStage)
      ensures old(status) == Registered && SenderIndex(old(senders), s) < 0 ==> r == Err(SenderNotRegistered)
      ensures old(status) == Registered && SenderIndex(old(senders), s) >= 0 ==>
        var i := SenderIndex(old(senders), s);
        var approvers := old(senders)[i].approvers;
        var auth := Authorize(w.KindOf(s), s, caller);
        && r == (if auth.Fail? then Err(auth.error)
                 else if caller in approvers then Err(DuplicateApprover)
                 else Ok(|approvers| + 1))
        && (r.Ok? ==> Abs() == old(Abs()).(senders := old(senders)[i := Sender(s, approvers + [caller])]))
      ensures r.Err? ==> Abs() == old(Abs())
      ensures r.Ok? && !IsContractAddr(w, s) ==> caller == s
      ensures r.Ok? && IsContractAddr(w, s) ==> w.KindOf(s).ContractWithState? && caller in w.KindOf(s).admins
    {
      if status != Registered {
        return Err(NotAllowedAtStage);
      }
      var i := FindSender(s);
      if i < 0 {
        return Err(SenderNotRegistered);
      }
      match w.KindOf(s) {
        case Eoa =>
          if caller != s {
            return Err(SenderNotCaller);
          }
        case ContractWithoutGetState =>
          return Err(CallFailed);
        case ContractWithState(admins, _) =>
          if |admins| == 0 {
            return Err(EmptyAdminList);
          }
          var isAdmin := Contains(admins, caller);
          if !isAdmin {
            return Err(CallerNotAdmin);
          }
      }
      var approvers := senders[i].approvers;
      var duplicate := Contains(approvers, caller);
      if duplicate {
        return Err(DuplicateApprover);
      }
      senders := senders[i := Sender(s, approvers + [caller])];
      r := Ok(|approvers| + 1);
    }

    /** `finalizeRegistration`: the owner closes registration. */
    method FinalizeRegistration(caller: Address) returns (r: Outcome)
      requires Valid()
      modifies this
      ensures Valid()
      ensures r == (if caller != owner then Fail(NotOwner)
                    else if old(status) != Initialized then Fail(NotAllowedAtStage)
                    else Pass)
      ensures r.Pass? ==> Abs() == old(Abs()).(status := Registered)
      ensures r.Fail? ==> Abs() == old(Abs())
    {
      if caller != owner {
        return Fail(NotOwner);
      }
      if status != Initialized {
        return Fail(NotAllowedAtStage);
      }
      status := Registered;
      r := Pass;
    }

    /** The quorum loop of `finalizeApproval`: every sender's threshold is read
        live and compared with its recorded approvals. */
    method CheckQuorum(w: World) returns (r: Outcome)
      ensures r == QuorumOutcome(senders, w)
    {
      var k := 0;
      while k < |senders|
        invariant 0 <= k <= |senders|
        invariant QuorumOutcome(senders, w) == QuorumOutcome(senders[k..], w)
      {
        assert senders[k..][0] == senders[k] && senders[k..][1..] == senders[k + 1..];
        var required := RequiredApprovals(w.KindOf(senders[k].addr));
        if required.Err? {
          return Fail(required.error);
        }
        if |senders[k].approvers| < required.value {
          return Fail(QuorumNotReached);
        }
        k := k + 1;
      }
      assert senders[k..] == [];
      r := Pass;
    }

    /** The balance loop of `finalizeApproval`: the senders' current balances, summed. */
    method SumOfSenderBalances(w: World) returns (total: nat)
      ensures total == SumBalances(senders, w)
    {
      total := 0;
      var k := 0;
      while k < |senders|
        invariant 0 <= k <= |senders|
        invariant total + SumBalances(senders[k..], w) == SumBalances(senders, w)
      {
        assert senders[k..][1..] == senders[k + 1..];
        total := total + w.BalanceOf(senders[k].addr);
        k := k + 1;
      }
      assert senders[k..] == [];
    }

    /** `finalizeApproval`: the owner closes the approval round, provided
        every sender has its quorum now and the senders can cover the treasury amount. */
    method FinalizeApproval(w: World, caller: Address) returns (r: Outcome)
      requires Valid()
      modifies this
      ensures Valid()
      ensures r == (if caller != owner then Fail(NotOwner)
                    else if old(status) != Registered then Fail(NotAllowedAtStage)
                    else ApprovalGate(old(senders), old(treasuryAmount), w))
      ensures r.Pass? ==> Abs() == old(Abs()).(status := Approved)
      ensures r.Fail? ==> Abs() == old(Abs())
    {
      if caller != owner {
        return Fail(NotOwner);
      }
      if status != Registered {
        return Fail(NotAllowedAtStage);
      }
      r := CheckQuorum(w);
      if r.Fail? {
        return;
      }
      var total := SumOfSenderBalances(w);
      if treasuryAmount >= total {
        return Fail(InsufficientFunds);
      }
      status := Approved;
    }

    /** `finalizeContract`: the owner records `m` and finalizes for good. */
    method FinalizeContract(caller: Address, m: string) returns (r: Outcome)
      requires Valid()
      modifies this
      ensures Valid()
      ensures r == (if caller != owner then Fail(NotOwner)
                    else if old(status) != Approved then Fail(NotAllowedAtStage)
                    else Pass)
      ensures r.Pass? ==> Abs() == old(Abs()).(status := Finalized, memo := m)
      ensures r.Fail? ==> Abs() == old(Abs())
    {
      if caller != owner {
        return Fail(NotOwner);
      }
      if status != Approved {
        return Fail(NotAllowedAtStage);
      }
      memo := m;
      status := Finalized;
      r := Pass;
    }

    /** `reset`: the owner wipes senders, receivers and memo and goes back to
        Initialized, unless the contract is finalized or `currentBlock` has
        reached the rebalance block. */
    method Reset(caller: Address, currentBlock: nat) returns (r: Outcome)
      requires Valid()
      modifies this
      ensures Valid()
      ensures r == (if caller != owner then Fail(NotOwner)
                    else if old(status) == Finalized || currentBlock >= rebalanceBlockNumber then Fail(ResetNotAllowed)
                    else Pass)
      ensures r.Pass? ==> Abs() == InitialState
      ensures r.Fail? ==> Abs() == old(Abs())
    {
      if caller != owner {
        return Fail(NotOwner);
      }
      if status == Finalized || currentBlock >= rebalanceBlockNumber {
        return Fail(ResetNotAllowed);
      }
      senders := [];
      receivers := [];
      treasuryAmount := 0;
      memo := "";
      status := Initialized;
      r := Pass;
    }

    /** The receive and fallback functions: payments sent to the contract always revert. */
    method Receive(value: nat) returns (r: Outcome)
      ensures r == Fail(PaymentsNotAccepted)
    {
      r := Fail(PaymentsNotAccepted);
    }
  }
}
