/** Call sequences of the contract's behavioural tests, replayed against the
    model. Each scenario deploys a fresh contract, makes the calls a test
    makes and returns what the test observes; its postcondition is what the
    test expects. Amounts are in whole coins. The last four methods state
    the same properties for every valid state instead of one sequence. */
module Scenarios {
  import opened Errors
  import opened Registry
  import opened Oracle
  import opened Quorum
  import opened Rebalance

  // The accounts of the test fixture.
  const Owner: Address := 1
  const Account1: Address := 2
  const Receiver1: Address := 3
  const Receiver2: Address := 4
  const Sender1: Address := 10
  const Sender2: Address := 11
  /** The rebalance contract's own address: a contract without `getState()`. */
  const Self: Address := 12

  /** The chain after the fixture runs: two sender contracts, each with `Owner`
      as sole admin and a threshold of one, each holding 20 coins. */
  function Fixture(): World
  {
    World(map[Sender1 := ContractWithState([Owner], 1),
              Sender2 := ContractWithState([Owner], 1),
              Self := ContractWithoutGetState],
          map[Sender1 := 20, Sender2 := 20])
  }

  /** The fixture after `Sender1` added `Account1` as admin and raised its threshold to two. */
  function RaisedQuorum(): World
  {
    Fixture().(kinds := Fixture().kinds[Sender1 := ContractWithState([Owner, Account1], 2)])
  }

  // ----- Set-up shared by several scenarios -----

  /** Deployment by `Owner`, activating 40 blocks after `deployBlock`. */
  method Deploy(deployBlock: nat) returns (t: TreasuryRebalance)
    ensures fresh(t) && t.Valid() && t.owner == Owner && t.rebalanceBlockNumber == deployBlock + 40
    ensures t.Abs() == InitialState
  {
    t := new TreasuryRebalance(Owner, deployBlock + 40);
  }

  /** Deployment, then both sender contracts registered. */
  method DeployWithSenders(deployBlock: nat) returns (t: TreasuryRebalance)
    ensures fresh(t) && t.Valid() && t.owner == Owner && t.rebalanceBlockNumber == deployBlock + 40
    ensures t.Abs() == InitialState.(senders := [Sender(Sender1, []), Sender(Sender2, [])])
  {
    t := Deploy(deployBlock);
    var r := t.RegisterSender(Owner, Sender1);
    r := t.RegisterSender(Owner, Sender2);
  }

  /** Both sender contracts registered and approved by `Owner`, registration closed. */
  method DeployApproved(deployBlock: nat) returns (t: TreasuryRebalance)
    ensures fresh(t) && t.Valid() && t.owner == Owner && t.rebalanceBlockNumber == deployBlock + 40
    ensures t.Abs() == InitialState.(status := Registered,
                                     senders := [Sender(Sender1, [Owner]), Sender(Sender2, [Owner])])
  {
    t := DeployWithSenders(deployBlock);
    var r := t.FinalizeRegistration(Owner);
    assert t.senders == [Sender(Sender1, []), Sender(Sender2, [])];
    assert Fixture().KindOf(Sender1) == ContractWithState([Owner], 1);
    assert Fixture().KindOf(Sender2) == ContractWithState([Owner], 1);
    assert SenderIndex(t.senders, Sender1) == 0;
    assert SenderIndex(t.senders, Sender2) == 1;
    ghost var before := t.Abs();
    var a := t.Approve(Fixture(), Owner, Sender1);
    assert a == Ok(1);
    assert t.Abs() == before.(senders := before.senders[0 := Sender(Sender1, [] + [Owner])]);
    assert [] + [Owner] == [Owner];
    assert t.senders == [Sender(Sender1, [Owner]), Sender(Sender2, [])];
    assert SenderIndex(t.senders, Sender2) == 1;
    a := t.Approve(Fixture(), Owner, Sender2);
    assert a == Ok(1);
  }

  /** With both sender contracts approved by `Owner` and nothing owed, the
      fixture passes the approval gate: each meets its threshold of one and
      together they hold 40 coins. */
  lemma FixtureGatePasses()
    ensures ApprovalGate([Sender(Sender1, [Owner]), Sender(Sender2, [Owner])], 0, Fixture()) == Pass
  {
    var ss := [Sender(Sender1, [Owner]), Sender(Sender2, [Owner])];
    assert Fixture().KindOf(Sender1) == ContractWithState([Owner], 1);
    assert Fixture().KindOf(Sender2) == ContractWithState([Owner], 1);
    assert SenderQuorum(ss[0], Fixture()) == Pass && SenderQuorum(ss[1], Fixture()) == Pass;
    assert QuorumOutcome(ss[1..][1..], Fixture()) == Pass;
    assert QuorumOutcome(ss, Fixture()) == Pass;
    assert SumBalances(ss[1..][1..], Fixture()) == 0;
    assert SumBalances(ss, Fixture()) == 40;
  }

  /** `DeployApproved` followed by the closing of the approval round. */
  method DeployApprovalClosed(deployBlock: nat) returns (t: TreasuryRebalance)
    ensures fresh(t) && t.Valid() && t.owner == Owner && t.rebalanceBlockNumber == deployBlock + 40
    ensures t.Abs() == InitialState.(status := Approved,
                                     senders := [Sender(Sender1, [Owner]), Sender(Sender2, [Owner])])
  {
    t := DeployApproved(deployBlock);
    FixtureGatePasses();
    var r := t.FinalizeApproval(Fixture(), Owner);
  }

  /** One sender contract and one receiver of 10 coins registered, registration closed. */
  method DeployOneSender(deployBlock: nat) returns (t: TreasuryRebalance)
    ensures fresh(t) && t.Valid() && t.owner == Owner && t.rebalanceBlockNumber == deployBlock + 40
    ensures t.Abs() == State(Registered, "", [Sender(Sender1, [])], [Receiver(Receiver1, 10)], 10)
  {
    t := Deploy(deployBlock);
    var r := t.RegisterSender(Owner, Sender1);
    r := t.RegisterReceiver(Owner, Receiver1, 10);
    r := t.FinalizeRegistration(Owner);
  }

  /** The set-up of the Approved-stage `reset` tests: `DeployOneSender`, the
      sender approved and the approval round closed. */
  method DeployOneSenderClosed(deployBlock: nat) returns (t: TreasuryRebalance)
    ensures fresh(t) && t.Valid() && t.owner == Owner && t.rebalanceBlockNumber == deployBlock + 40
    ensures t.Abs() == State(Approved, "", [Sender(Sender1, [Owner])], [Receiver(Receiver1, 10)], 10)
  {
    t := DeployOneSender(deployBlock);
    assert Fixture().KindOf(Sender1) == ContractWithState([Owner], 1);
    var a := t.Approve(Fixture(), Owner, Sender1);
    assert [] + [Owner] == [Owner];
    var ss := t.senders;
    assert ss == [Sender(Sender1, [Owner])];
    assert SenderQuorum(ss[0], Fixture()) == Pass;
    assert QuorumOutcome(ss, Fixture()) == Pass;
    assert SumBalances(ss, Fixture()) == 20;
    var r := t.FinalizeApproval(Fixture(), Owner);
  }

  /** The senders the `approve` tests register, in order: two sender
      contracts, two plain accounts and the rebalance contract itself. */
  const ApprovalSenders := [Sender(Sender1, []), Sender(Sender2, []), Sender(Owner, []),
                            Sender(Receiver1, []), Sender(Self, [])]

  /** The first four senders of the `approve` tests registered, registration still open. */
  method DeployFourSenders(deployBlock: nat) returns (t: TreasuryRebalance)
    ensures fresh(t) && t.Valid() && t.owner == Owner
    ensures t.Abs() == InitialState.(senders := ApprovalSenders[..4])
  {
    t := DeployWithSenders(deployBlock);
    assert SenderIndex(t.senders, Owner) < 0;
    var r := t.RegisterSender(Owner, Owner);
    assert t.senders == ApprovalSenders[..3];
    assert SenderIndex(t.senders, Receiver1) < 0;
    r := t.RegisterSender(Owner, Receiver1);
  }

  /** The set-up of the `approve` tests: five senders registered, registration closed. */
  method DeployForApproval(deployBlock: nat) returns (t: TreasuryRebalance)
    ensures fresh(t) && t.Valid() && t.owner == Owner
    ensures t.status == Registered && t.senders == ApprovalSenders
  {
    t := DeployFourSenders(deployBlock);
    assert SenderIndex(t.senders, Self) < 0;
    var r := t.RegisterSender(Owner, Self);
    r := t.FinalizeRegistration(Owner);
  }

  // ----- Deployment -----

  /** Status 0, nothing owed, the rebalance block after the deploy block. */
  method DeploymentScenario(deployBlock: nat) returns (status: nat, amount: nat, rebalanceBlock: nat)
    ensures status == 0 && amount == 0 && rebalanceBlock > deployBlock
  {
    var t := Deploy(deployBlock);
    status := StatusCode(t.status);
    amount := t.GetTreasuryAmount();
    rebalanceBlock := t.rebalanceBlockNumber;
  }

  // ----- Senders -----

  /** A registered sender reads back with no approvers, is counted, and cannot be registered twice. */
  method RegisterSenderScenario(deployBlock: nat)
    returns (added: Result<Sender>, count: nat, twice: Outcome)
    ensures added == Ok(Sender(Sender1, [])) && count == 1
    ensures twice == Fail(SenderAlreadyRegistered)
  {
    var t := Deploy(deployBlock);
    var r := t.RegisterSender(Owner, Sender1);
    added := t.GetSender(Sender1);
    count := |t.senders|;
    twice := t.RegisterSender(Owner, Sender1);
  }

  /** Strangers, the zero address and a closed registration are refused. */
  method RegisterSenderRefusedScenario(deployBlock: nat)
    returns (byOther: Outcome, zero: Outcome, late: Outcome)
    ensures byOther == Fail(NotOwner)
    ensures zero == Fail(InvalidAddress)
    ensures late == Fail(NotAllowedAtStage)
  {
    var t := Deploy(deployBlock);
    byOther := t.RegisterSender(Account1, Sender2);
    zero := t.RegisterSender(Owner, ZeroAddress);
    var r := t.FinalizeRegistration(Owner);
    late := t.RegisterSender(Owner, Sender1);
  }

  /** A removed sender can no longer be read; an unknown one cannot be removed. */
  method RemoveSenderScenario(deployBlock: nat)
    returns (removed: Outcome, gone: Result<Sender>, unknown: Outcome)
    ensures removed == Pass && gone == Err(SenderDoesNotExist)
    ensures unknown == Fail(SenderDoesNotExist)
  {
    var t := Deploy(deployBlock);
    var r := t.RegisterSender(Owner, Sender1);
    unknown := t.RemoveSender(Owner, Owner);
    removed := t.RemoveSender(Owner, Sender1);
    assert |multiset(t.senders)| == 0;
    gone := t.GetSender(Sender1);
  }

  /** Strangers and a closed registration cannot remove a sender. */
  method RemoveSenderRefusedScenario(deployBlock: nat) returns (byOther: Outcome, late: Outcome)
    ensures byOther == Fail(NotOwner)
    ensures late == Fail(NotAllowedAtStage)
  {
    var t := Deploy(deployBlock);
    var r := t.RegisterSender(Owner, Sender1);
    byOther := t.RemoveSender(Account1, Sender1);
    r := t.FinalizeRegistration(Owner);
    late := t.RemoveSender(Owner, Sender1);
  }

  // ----- Receivers -----

  /** A receiver reads back with its amount, is counted, makes up the treasury
      amount, and cannot be registered twice; a zero amount is refused. */
  method RegisterReceiverScenario(deployBlock: nat)
    returns (got: Result<Receiver>, count: nat, amount: nat, twice: Outcome, zeroAmount: Outcome)
    ensures got == Ok(Receiver(Receiver1, 20)) && count == 1 && amount == 20
    ensures twice == Fail(ReceiverAlreadyRegistered)
    ensures zeroAmount == Fail(ZeroAmount)
  {
    var t := Deploy(deployBlock);
    var r := t.RegisterReceiver(Owner, Receiver1, 20);
    got := t.GetReceiver(Receiver1);
    count := |t.receivers|;
    amount := t.GetTreasuryAmount();
    twice := t.RegisterReceiver(Owner, Receiver1, 20);
    zeroAmount := t.RegisterReceiver(Owner, Receiver2, 0);
  }

  /** Removing the receiver brings the count and the treasury amount back to
      zero, after which it cannot be read; an unknown one cannot be removed. */
  method RemoveReceiverScenario(deployBlock: nat)
    returns (unknown: Outcome, removed: Outcome, count: nat, amount: nat, gone: Result<Receiver>)
    ensures unknown == Fail(ReceiverDoesNotExist)
    ensures removed == Pass && count == 0 && amount == 0 && gone == Err(ReceiverDoesNotExist)
  {
    var t := Deploy(deployBlock);
    var r := t.RegisterReceiver(Owner, Receiver1, 20);
    unknown := t.RemoveReceiver(Owner, Receiver2);
    removed := t.RemoveReceiver(Owner, Receiver1);
    assert |multiset(t.receivers)| == 0;
    count := |t.receivers|;
    amount := t.GetTreasuryAmount();
    gone := t.GetReceiver(Receiver1);
  }

  /** Strangers cannot remove a receiver; once registration is closed nobody
      can register or remove one. */
  method ReceiverRefusedScenario(deployBlock: nat)
    returns (byOther: Outcome, lateRegister: Outcome, lateRemove: Outcome)
    ensures byOther == Fail(NotOwner)
    ensures lateRegister == Fail(NotAllowedAtStage) && lateRemove == Fail(NotAllowedAtStage)
  {
    var t := Deploy(deployBlock);
    var r := t.RegisterReceiver(Owner, Receiver1, 20);
    byOther := t.RemoveReceiver(Account1, Receiver1);
    r := t.FinalizeRegistration(Owner);
    lateRegister := t.RegisterReceiver(Owner, Receiver2, 20);
    lateRemove := t.RemoveReceiver(Owner, Receiver1);
  }

  // ----- Approvals -----

  /** An admin of a sender contract is recorded as its first approver. */
  method ApproveScenario(deployBlock: nat) returns (before: Result<Sender>, first: Result<nat>, recorded: Result<Sender>)
    ensures before == Ok(Sender(Sender1, []))
    ensures first == Ok(1) && recorded == Ok(Sender(Sender1, [Owner]))
  {
    var t := DeployForApproval(deployBlock);
    before := t.GetSender(Sender1);
    SenderIndexOf(t.senders, 0);
    assert Fixture().KindOf(Sender1) == ContractWithState([Owner], 1);
    first := t.Approve(Fixture(), Owner, Sender1);
    assert [] + [Owner] == [Owner];
    assert t.senders == ApprovalSenders[0 := Sender(Sender1, [Owner])];
    SenderIndexOf(t.senders, 0);
    recorded := t.GetSender(Sender1);
  }

  /** A plain sender approving itself is recorded as its approver. */
  method ApproveEoaScenario(deployBlock: nat) returns (eoa: Result<nat>, recorded: Result<Sender>)
    ensures eoa == Ok(1) && recorded == Ok(Sender(Owner, [Owner]))
  {
    var t := DeployForApproval(deployBlock);
    SenderIndexOf(t.senders, 2);
    assert Fixture().KindOf(Owner) == Eoa;
    eoa := t.Approve(Fixture(), Owner, Owner);
    assert [] + [Owner] == [Owner];
    assert t.senders == ApprovalSenders[2 := Sender(Owner, [Owner])];
    SenderIndexOf(t.senders, 2);
    recorded := t.GetSender(Owner);
  }

  /** The same approver twice is refused. */
  method ApproveDuplicateScenario(deployBlock: nat) returns (duplicate: Result<nat>)
    ensures duplicate == Err(DuplicateApprover)
  {
    var t := DeployForApproval(deployBlock);
    SenderIndexOf(t.senders, 0);
    assert Fixture().KindOf(Sender1) == ContractWithState([Owner], 1);
    var first := t.Approve(Fixture(), Owner, Sender1);
    assert [] + [Owner] == [Owner];
    assert t.senders[0] == Sender(Sender1, [Owner]);
    SenderIndexOf(t.senders, 0);
    duplicate := t.Approve(Fixture(), Owner, Sender1);
  }

  /** Refused: an unregistered sender, and a plain sender approved by someone else. */
  method ApproveRefusedScenario(deployBlock: nat) returns (unregistered: Result<nat>, notSelf: Result<nat>)
    ensures unregistered == Err(SenderNotRegistered)
    ensures notSelf == Err(SenderNotCaller)
  {
    var t := DeployForApproval(deployBlock);
    assert SenderIndex(t.senders, Receiver2) < 0;
    unregistered := t.Approve(Fixture(), Owner, Receiver2);
    SenderIndexOf(t.senders, 3);
    assert Fixture().KindOf(Receiver1) == Eoa;
    notSelf := t.Approve(Fixture(), Owner, Receiver1);
  }

  /** Refused: a sender that is a contract without `getState()`. */
  method ApproveNoStateScenario(deployBlock: nat) returns (noGetState: Result<nat>)
    ensures noGetState == Err(CallFailed)
  {
    var t := DeployForApproval(deployBlock);
    SenderIndexOf(t.senders, 4);
    assert Fixture().KindOf(Self) == ContractWithoutGetState;
    noGetState := t.Approve(Fixture(), Owner, Self);
  }

  /** Refused: a sender contract whose admin list was emptied, and a caller
      who is not among its admins. */
  method ApproveAdminScenario(deployBlock: nat) returns (emptyList: Result<nat>, notAdmin: Result<nat>)
    ensures emptyList == Err(EmptyAdminList)
    ensures notAdmin == Err(CallerNotAdmin)
  {
    var t := DeployForApproval(deployBlock);
    emptyList := t.Approve(Fixture().(kinds := Fixture().kinds[Sender1 := ContractWithState([], 1)]), Owner, Sender1);
    notAdmin := t.Approve(Fixture(), Account1, Sender1);
  }

  // ----- Status -----

  /** Closing registration gives status 1; with both senders approved and
      nothing owed, closing the approval round gives status 2. */
  method StatusScenario(deployBlock: nat) returns (registered: nat, approved: Outcome, status: nat)
    ensures registered == 1
    ensures approved == Pass && status == 2
  {
    var t := DeployWithSenders(deployBlock);
    var r := t.FinalizeRegistration(Owner);
    registered := StatusCode(t.status);
    t := DeployApproved(deployBlock);
    FixtureGatePasses();
    approved := t.FinalizeApproval(Fixture(), Owner);
    status := StatusCode(t.status);
  }

  /** 50 coins owed against 40 held: the approval round cannot close. */
  method InsufficientFundsScenario(deployBlock: nat) returns (approved: Outcome)
    ensures approved == Fail(InsufficientFunds)
  {
    var t := DeployWithSenders(deployBlock);
    var r := t.RegisterReceiver(Owner, Receiver1, 50);
    r := t.FinalizeRegistration(Owner);
    assert t.senders == [Sender(Sender1, []), Sender(Sender2, [])];
    assert Fixture().KindOf(Sender1) == ContractWithState([Owner], 1);
    assert Fixture().KindOf(Sender2) == ContractWithState([Owner], 1);
    SenderIndexOf(t.senders, 0);
    var a := t.Approve(Fixture(), Owner, Sender1);
    assert [] + [Owner] == [Owner];
    assert t.senders == [Sender(Sender1, [Owner]), Sender(Sender2, [])];
    SenderIndexOf(t.senders, 1);
    a := t.Approve(Fixture(), Owner, Sender2);
    var ss := t.senders;
    assert ss == [Sender(Sender1, [Owner]), Sender(Sender2, [Owner])];
    assert SenderQuorum(ss[0], Fixture()) == Pass && SenderQuorum(ss[1], Fixture()) == Pass;
    assert QuorumOutcome(ss[1..][1..], Fixture()) == Pass;
    assert QuorumOutcome(ss, Fixture()) == Pass;
    assert SumBalances(ss[1..][1..], Fixture()) == 0;
    assert SumBalances(ss, Fixture()) == 40;
    assert t.treasuryAmount == 50;
    approved := t.FinalizeApproval(Fixture(), Owner);
  }

  /** No stage can be repeated or skipped. */
  method StageOrderScenario(deployBlock: nat)
    returns (approveFirst: Outcome, again: Outcome, finalizeEarly: Outcome, closed: Outcome, back: Outcome)
    ensures approveFirst == Fail(NotAllowedAtStage)
    ensures again == Fail(NotAllowedAtStage)
    ensures finalizeEarly == Fail(NotAllowedAtStage)
    ensures closed == Pass && back == Fail(NotAllowedAtStage)
  {
    var t := DeployApproved(deployBlock);
    var u := Deploy(deployBlock);
    approveFirst := u.FinalizeApproval(Fixture(), Owner);
    again := t.FinalizeRegistration(Owner);
    finalizeEarly := t.FinalizeContract(Owner, "memo");
    FixtureGatePasses();
    closed := t.FinalizeApproval(Fixture(), Owner);
    back := t.FinalizeRegistration(Owner);
  }

  /** Without any approval the quorum is not reached. */
  method NoApprovalScenario(deployBlock: nat) returns (approved: Outcome)
    ensures approved == Fail(QuorumNotReached)
  {
    var t := DeployWithSenders(deployBlock);
    var r := t.FinalizeRegistration(Owner);
    approved := t.FinalizeApproval(Fixture(), Owner);
  }

  /** Raising a sender's threshold after its approval reopens the quorum
      check, and the new admin's approval closes it again. */
  method RaisedQuorumScenario(deployBlock: nat)
    returns (short: Outcome, extra: Result<nat>, approved: Outcome)
    ensures short == Fail(QuorumNotReached)
    ensures extra == Ok(2) && approved == Pass
  {
    var t := DeployApproved(deployBlock);
    var w := RaisedQuorum();
    assert w.KindOf(Sender1) == ContractWithState([Owner, Account1], 2);
    assert w.KindOf(Sender2) == ContractWithState([Owner], 1);
    var ss := t.senders;
    assert SenderQuorum(ss[0], w) == Fail(QuorumNotReached);
    short := t.FinalizeApproval(w, Owner);
    SenderIndexOf(t.senders, 0);
    assert Account1 in [Owner, Account1] && Account1 !in [Owner];
    extra := t.Approve(w, Account1, Sender1);
    assert [Owner] + [Account1] == [Owner, Account1];
    assert t.senders == [Sender(Sender1, [Owner, Account1]), Sender(Sender2, [Owner])];
    ss := t.senders;
    assert SenderQuorum(ss[0], w) == Pass && SenderQuorum(ss[1], w) == Pass;
    assert QuorumOutcome(ss[1..][1..], w) == Pass;
    assert QuorumOutcome(ss, w) == Pass;
    assert SumBalances(ss[1..][1..], w) == 0;
    assert SumBalances(ss, w) == 40;
    approved := t.FinalizeApproval(w, Owner);
  }

  /** One approval against a raised threshold of two does not reach the quorum. */
  method RaisedQuorumShortScenario(deployBlock: nat) returns (first: Result<nat>, short: Outcome)
    ensures first == Ok(1)
    ensures short == Fail(QuorumNotReached)
  {
    var t := DeployWithSenders(deployBlock);
    var r := t.FinalizeRegistration(Owner);
    SenderIndexOf(t.senders, 0);
    assert Fixture().KindOf(Sender1) == ContractWithState([Owner], 1);
    first := t.Approve(Fixture(), Owner, Sender1);
    assert [] + [Owner] == [Owner];
    assert t.senders[0] == Sender(Sender1, [Owner]);
    var w := Fixture().(kinds := Fixture().kinds[Sender1 := ContractWithState([Owner], 2)]);
    assert w.KindOf(Sender1) == ContractWithState([Owner], 2);
    assert SenderQuorum(t.senders[0], w) == Fail(QuorumNotReached);
    short := t.FinalizeApproval(w, Owner);
  }

  // ----- Finalization -----

  /** Finalizing records the memo and gives status 3. */
  method FinalizeScenario(deployBlock: nat, m: string) returns (finalized: Outcome, memo: string, status: nat)
    ensures finalized == Pass && memo == m && status == 3
  {
    var t := DeployApprovalClosed(deployBlock);
    finalized := t.FinalizeContract(Owner, m);
    memo := t.memo;
    status := StatusCode(t.status);
  }

  /** Only the owner may finalize, and only once the approval round is closed. */
  method FinalizeRefusedScenario(deployBlock: nat, m: string) returns (early: Outcome, byOther: Outcome)
    ensures early == Fail(NotAllowedAtStage)
    ensures byOther == Fail(NotOwner)
  {
    var t := DeployApproved(deployBlock);
    early := t.FinalizeContract(Owner, m);
    t := DeployApprovalClosed(deployBlock);
    byOther := t.FinalizeContract(Account1, m);
  }

  // ----- Reset -----

  /** A reset of a closed registration with a receiver of 50 clears everything
      and keeps the rebalance block. */
  method ResetRegisteredScenario(deployBlock: nat)
    returns (before: (nat, nat), reset: Outcome, after: (nat, nat, nat), memo: string, status: nat, rebalanceBlock: nat)
    ensures before == (2, 1)
    ensures reset == Pass && after == (0, 0, 0) && memo == "" && status == 0
    ensures rebalanceBlock == deployBlock + 40
  {
    var t := DeployWithSenders(deployBlock);
    var r := t.RegisterReceiver(Owner, Receiver1, 50);
    r := t.FinalizeRegistration(Owner);
    before := (|t.senders|, |t.receivers|);
    reset := t.Reset(Owner, deployBlock + 1);
    after := (|t.senders|, |t.receivers|, t.GetTreasuryAmount());
    memo := t.memo;
    status := StatusCode(t.status);
    rebalanceBlock := t.rebalanceBlockNumber;
  }

  /** A reset after the approval round closed clears everything as well. */
  method ResetApprovedScenario(deployBlock: nat)
    returns (approved: nat, before: (nat, nat), reset: Outcome, after: (nat, nat, nat), status: nat)
    ensures approved == 2 && before == (1, 1)
    ensures reset == Pass && after == (0, 0, 0) && status == 0
  {
    var t := DeployOneSenderClosed(deployBlock);
    approved := StatusCode(t.status);
    before := (|t.senders|, |t.receivers|);
    reset := t.Reset(Owner, deployBlock + 1);
    after := (|t.senders|, |t.receivers|, t.GetTreasuryAmount());
    status := StatusCode(t.status);
  }

  /** Once finalized, the contract cannot be reset. */
  method ResetFinalizedScenario(deployBlock: nat) returns (status: nat, reset: Outcome)
    ensures status == 3 && reset == Fail(ResetNotAllowed)
  {
    var t := DeployOneSenderClosed(deployBlock);
    var r := t.FinalizeContract(Owner, "memo");
    status := StatusCode(t.status);
    reset := t.Reset(Owner, deployBlock + 1);
  }

  /** Fifty blocks after deployment the rebalance block has passed: no reset. */
  method ResetLateScenario(deployBlock: nat) returns (reset: Outcome)
    ensures reset == Fail(ResetNotAllowed)
  {
    var t := Deploy(deployBlock);
    reset := t.Reset(Owner, deployBlock + 51);
  }

  // ----- Fallback and probing -----

  /** The rebalance contract refuses plain payments. */
  method PaymentScenario(deployBlock: nat) returns (paid: Outcome)
    ensures paid == Fail(PaymentsNotAccepted)
  {
    var t := Deploy(deployBlock);
    paid := t.Receive(20);
  }

  /** The owner's account is not a contract; the rebalance contract is. */
  method IsContractScenario() returns (eoa: bool, contract: bool)
    ensures !eoa && contract
  {
    eoa := IsContractAddr(Fixture(), Owner);
    contract := IsContractAddr(Fixture(), Self);
  }

  // ----- The same properties for every state -----

  /** Registering a sender and removing it again restores the senders. */
  method SenderRoundTrip(t: TreasuryRebalance, a: Address) returns (added: Outcome, removed: Outcome)
    requires t.Valid()
    modifies t
    ensures t.Valid()
    ensures added.Pass? ==> removed.Pass?
    ensures added.Pass? ==> multiset(t.senders) == multiset(old(t.senders))
    ensures t.status == old(t.status) && t.receivers == old(t.receivers)
  {
    added := t.RegisterSender(t.owner, a);
    if added.Fail? {
      return added, added;
    }
    SenderIndexOf(t.senders, |t.senders| - 1);
    removed := t.RemoveSender(t.owner, a);
  }

  /** Registering a receiver and removing it again restores the receivers and the treasury amount. */
  method ReceiverRoundTrip(t: TreasuryRebalance, a: Address, amount: nat) returns (added: Outcome, removed: Outcome)
    requires t.Valid()
    modifies t
    ensures t.Valid()
    ensures added.Pass? ==> removed.Pass?
    ensures added.Pass? ==> multiset(t.receivers) == multiset(old(t.receivers))
    ensures t.treasuryAmount == old(t.treasuryAmount)
  {
    added := t.RegisterReceiver(t.owner, a, amount);
    if added.Fail? {
      return added, added;
    }
    ReceiverIndexOf(t.receivers, |t.receivers| - 1);
    removed := t.RemoveReceiver(t.owner, a);
  }

  /** Once a caller's approval of a sender is recorded, the same approval is refused. */
  method ApproveTwice(t: TreasuryRebalance, w: World, caller: Address, s: Address)
    returns (first: Result<nat>, second: Result<nat>)
    requires t.Valid()
    modifies t
    ensures t.Valid()
    ensures first.Ok? ==> second == Err(DuplicateApprover)
  {
    ghost var i := SenderIndex(t.senders, s);
    first := t.Approve(w, caller, s);
    if first.Ok? {
      SenderIndexOf(t.senders, i);
      assert caller in t.senders[i].approvers;
    }
    second := t.Approve(w, caller, s);
  }

  /** A reset that goes through can be repeated with the same result. */
  method ResetTwice(t: TreasuryRebalance, caller: Address, currentBlock: nat)
    returns (first: Outcome, second: Outcome)
    requires t.Valid()
    modifies t
    ensures t.Valid()
    ensures first.Pass? ==> second.Pass? && t.Abs() == InitialState
  {
    first := t.Reset(caller, currentBlock);
    second := t.Reset(caller, currentBlock);
  }
}
