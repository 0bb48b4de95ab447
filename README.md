# Treasury rebalance contract, modelled in Dafny

The treasury rebalance contract moves funds out of a set of treasury
accounts (the *senders*) to a set of new *receivers*. The process has four
stages:

1. **Initialized.** The owner registers senders and receivers and the amount
   allocated to each receiver. The *treasury amount* is the sum of those
   amounts.
2. **Registered.** The owner has closed registration. The admins of each
   sender now approve the rebalance. A sender contract is approved by its
   admins, a plain account by itself.
3. **Approved.** The owner has closed the approval round. This succeeds only
   if two things hold at that moment:
   - every sender has as many approvals as its current threshold requires;
   - the senders together hold more than the treasury amount.
4. **Finalized.** The owner has recorded a memo and finalized the contract.

Until the contract is finalized, the owner may reset it to an empty
Initialized state, but only while the rebalance block has not been reached.
The contract refuses plain payments.

The contract's Solidity source is not part of this model. The behaviour
modelled here is the one the contract's Hardhat test suite
(`test/TreasuryRebalance.js`) pins down, call by call and revert message by
revert message.

Files:

- `errors.dfy` (module `Errors`): one error per revert message, with the
  message itself, plus the `Outcome` and `Result` types that calls return.
- `registry.dfy` (module `Registry`): sender and receiver entries, lookup by
  address, order-keeping removal, the sum of allocated amounts, and the
  linear membership scan.
- `oracle.dfy` (module `Oracle`): the outside world the contract probes. It
  gives the kind of each address (a plain account, a sender contract
  answering `getState()` with its admin list and threshold, or a contract
  without `getState()`) and balances. `isContractAddr` is modelled here.
- `quorum.dfy` (module `Quorum`): who may approve a sender, each sender's
  live threshold, and the gate `finalizeApproval` applies. The per-sender
  verdict, the quorum check over all senders and the gate are each proved
  against a reference predicate `MeetsQuorum`. `Authorize` and
  `RequiredApprovals` carry their own contracts.
- `treasury.dfy` (module `Rebalance`): the contract itself, as the class
  `TreasuryRebalance`.
  - `Valid()` is the invariant every call keeps. The treasury amount equals
    the sum of receiver amounts. Addresses are unique and nonzero. No sender
    has a duplicate approver. Nothing is approved before registration closes.
  - Every call either goes through or fails with the contract's error and
    leaves every field as it was.
  - The caller, the current block and the outside world are explicit
    parameters.
  - `finalizeApproval` runs its two loops (quorum, then balance sum) as
    methods proved against recursive specification functions.
- `scenarios.dfy` (module `Scenarios`): the call sequences of the test suite
  replayed against the class, each with the expected observations as
  postconditions. There are also four client methods that state, for every
  valid state, a round trip and the effect of repeating a call.

Choices where the tests leave the behaviour open:

- The funds check is strict. `finalizeApproval` needs the treasury amount to
  be below the senders' combined balance; equal amounts fail.
- `reset` is refused once the current block is at or past the rebalance
  block.
- `finalizeApproval` checks the quorum of every sender before the funds.
  Senders are checked in registration order, and the first failing sender
  decides the error.
- A sender's approvals are all the approvers recorded for it. A recorded
  approval still counts if its approver has since left the admin list. The
  threshold itself is read live.
- A plain-account sender needs one approval. A sender contract without
  `getState()` makes `finalizeApproval` fail with "call failed", as
  `approve` does.
- Every state-changing call except `approve` is owner-only.
  `registerReceiver` also refuses the zero address.
- Removal keeps the remaining entries in their order, but the contracts of
  `RemoveSender` and `RemoveReceiver` promise only the remaining multiset.

## Model

| member | source | states |
|---|---|---|
| Rebalance.StatusCode | test/TreasuryRebalance.js:298-310 | the `status()` getter reports a number from 0 to 3: 0 exactly in Initialized, 3 exactly in Finalized |
| Rebalance.StatusCodeDistinct | test/TreasuryRebalance.js:298-310 | different stages are reported as different numbers |
| Rebalance.TreasuryRebalance.constructor | test/TreasuryRebalance.js:46-50 | the deployer becomes owner; status Initialized, no senders, no receivers, treasury amount 0, empty memo; the rebalance block is the one given |
| Rebalance.TreasuryRebalance.FindSender | test/TreasuryRebalance.js:53-59 | the scan over the sender list returns the first position holding the address, or -1 exactly when none does |
| Rebalance.TreasuryRebalance.FindReceiver | test/TreasuryRebalance.js:139-146 | the scan over the receiver list returns the first position holding the address, or -1 exactly when none does |
| Rebalance.TreasuryRebalance.GetSender | test/TreasuryRebalance.js:103-106 | `getSender` succeeds exactly when the address is registered and returns that sender's entry with its approvers; otherwise "Sender does not exist" |
| Rebalance.TreasuryRebalance.GetReceiver | test/TreasuryRebalance.js:192-197 | `getReceiver` succeeds exactly when the address is registered and returns that receiver with its amount; otherwise "Receiver does not exist" |
| Rebalance.TreasuryRebalance.GetTreasuryAmount | test/TreasuryRebalance.js:146-149 | the treasury amount is the sum of the registered receivers' amounts |
| Rebalance.TreasuryRebalance.RegisterSender | test/TreasuryRebalance.js:53-95 | fails "Ownable: caller is not the owner", "function not allowed at this stage" outside Initialized, "Invalid address" for address 0, "Sender is already registered" for a known sender, leaving the state unchanged; otherwise appends the sender with no approvers and changes nothing else; keeps the invariant |
| Rebalance.TreasuryRebalance.RemoveSender | test/TreasuryRebalance.js:98-129 | fails for a non-owner, outside Initialized, or for an unknown sender ("Sender does not exist"), leaving the state unchanged; otherwise exactly that sender's entry is gone and nothing else changes; keeps the invariant |
| Rebalance.TreasuryRebalance.RegisterReceiver | test/TreasuryRebalance.js:132-179 | fails for a non-owner, outside Initialized, for address 0, for amount 0 ("Amount cannot be set to 0"), or for a known receiver ("Receiver is already registered"), leaving the state unchanged; otherwise appends the receiver and adds its amount to the treasury amount |
| Rebalance.TreasuryRebalance.RemoveReceiver | test/TreasuryRebalance.js:182-222 | fails for a non-owner, outside Initialized, or for an unknown receiver, leaving the state unchanged; otherwise exactly that receiver is gone and its amount comes off the treasury amount |
| Rebalance.TreasuryRebalance.Approve | test/TreasuryRebalance.js:225-286 | open to any caller; outside Registered fails; an unregistered sender fails "sender needs to be registered before approval"; otherwise the caller must be the plain sender itself or a current admin of the sender contract (else "senderAddress is not the msg.sender", "call failed", "admin list cannot be empty" or "msg.sender is not the admin"); a repeated approver fails "Duplicate approvers cannot be allowed"; on success the caller is appended to that sender's approvers, the new count is returned and nothing else changes; an approval that goes through comes from the sender itself when the sender is not a contract, and from a current admin when it is |
| Rebalance.TreasuryRebalance.FinalizeRegistration | test/TreasuryRebalance.js:298-302 | owner-only; Initialized becomes Registered, any other stage fails "function not allowed at this stage" |
| Rebalance.TreasuryRebalance.CheckQuorum | test/TreasuryRebalance.js:359-387 | the quorum loop returns the verdict of the first sender below its live threshold, or passes when none is |
| Rebalance.TreasuryRebalance.SumOfSenderBalances | test/TreasuryRebalance.js:312-321 | the balance loop returns the sum of all senders' current balances |
| Rebalance.TreasuryRebalance.FinalizeApproval | test/TreasuryRebalance.js:304-387 | owner-only; only from Registered; passes to Approved exactly when the approval gate passes for the current world, else fails with the gate's error and changes nothing |
| Rebalance.TreasuryRebalance.FinalizeContract | test/TreasuryRebalance.js:393-430 | owner-only; only from Approved; records the memo and moves to Finalized |
| Rebalance.TreasuryRebalance.Reset | test/TreasuryRebalance.js:432-509 | owner-only; fails "Contract is finalized, cannot reset values" once finalized or once the rebalance block is reached; otherwise returns to the state right after deployment, with owner and rebalance block untouched |
| Rebalance.TreasuryRebalance.Receive | test/TreasuryRebalance.js:511-517 | every payment to the contract fails "This contract does not accept any payments" |
| Oracle.IsContractAddr | test/TreasuryRebalance.js:519-526 | an address counts as a contract exactly when the world has code of some kind there |
| Quorum.Authorize | test/TreasuryRebalance.js:260-286 | a plain sender is approved only by itself, a sender contract only by a current admin; each refusal carries its own error |
| Quorum.RequiredApprovals | test/TreasuryRebalance.js:359-387 | the live threshold of a sender: 1 for a plain account, the contract's own `minReq` for a sender contract, and "call failed" exactly for a contract without `getState()` |
| Quorum.SenderQuorumSpec | test/TreasuryRebalance.js:359-387 | the verdict on one sender passes exactly when it meets its quorum, and otherwise reports "call failed" or "min required admins should approve" |
| Quorum.QuorumOutcomeSpec | test/TreasuryRebalance.js:359-387 | the quorum check passes exactly when every sender meets its live threshold; a failure reports "call failed" or "min required admins should approve" |
| Quorum.ApprovalGateSpec | test/TreasuryRebalance.js:312-321 | the gate passes exactly when every sender meets its quorum and the treasury amount is below the senders' combined balance; it reports lack of funds exactly when the quorum holds and the balance does not suffice |
| Registry.SenderIndex | test/TreasuryRebalance.js:67-70 | the lookup finds the first sender registered under an address, and reports -1 exactly when there is none |
| Registry.ReceiverIndex | test/TreasuryRebalance.js:159-165 | the lookup finds the first receiver registered under an address, and reports -1 exactly when there is none |
| Scenarios.FixtureGatePasses | test/TreasuryRebalance.js:304-310 | with both sender contracts approved by the owner and nothing owed, the fixture passes the approval gate |
| Registry.Without | test/TreasuryRebalance.js:103-106 | removing an entry keeps the others in order and takes exactly that entry out of the multiset |
| Registry.SumAmountsConcat | test/TreasuryRebalance.js:146-149 | the total allocated to two lists of receivers is the sum of their totals |
| Registry.SumAmountsAppend | test/TreasuryRebalance.js:146-149 | registering a receiver adds exactly its amount to the total |
| Registry.SumAmountsWithout | test/TreasuryRebalance.js:192-195 | removing a receiver takes exactly its amount off the total |
| Registry.Contains | test/TreasuryRebalance.js:253-258 | the membership scan used for admin and duplicate-approver checks reports exactly whether the address is in the list |
| Scenarios.DeploymentScenario | test/TreasuryRebalance.js:46-50 | after deployment: status 0, treasury amount 0, rebalance block after the deploy block |
| Scenarios.RegisterSenderScenario | test/TreasuryRebalance.js:54-89 | a registered sender reads back with no approvers, the count is 1, and a second registration fails |
| Scenarios.RegisterSenderRefusedScenario | test/TreasuryRebalance.js:72-95 | a non-owner, the zero address and a closed registration are refused with their messages |
| Scenarios.RemoveSenderScenario | test/TreasuryRebalance.js:103-116 | a removed sender can no longer be read; an unknown one cannot be removed |
| Scenarios.RemoveSenderRefusedScenario | test/TreasuryRebalance.js:118-129 | a non-owner and a closed registration cannot remove a sender |
| Scenarios.RegisterReceiverScenario | test/TreasuryRebalance.js:139-179 | a receiver of 20 reads back with 20, the count is 1 and the treasury amount 20; a second registration and a zero amount are refused |
| Scenarios.RemoveReceiverScenario | test/TreasuryRebalance.js:192-209 | removal brings the count and the treasury amount back to 0 and the receiver can no longer be read; an unknown receiver cannot be removed |
| Scenarios.ReceiverRefusedScenario | test/TreasuryRebalance.js:167-222 | a non-owner cannot remove a receiver, and a closed registration refuses both registering and removing |
| Scenarios.ApproveScenario | test/TreasuryRebalance.js:235-245 | the sender contract has no approvers before; the owner's approval as admin returns count 1 and is recorded as the first approver |
| Scenarios.ApproveEoaScenario | test/TreasuryRebalance.js:247-251 | a plain sender approving itself is recorded as its approver |
| Scenarios.ApproveDuplicateScenario | test/TreasuryRebalance.js:253-258 | the same approval twice fails "Duplicate approvers cannot be allowed" |
| Scenarios.ApproveRefusedScenario | test/TreasuryRebalance.js:260-271 | an unregistered sender and a plain sender approved by someone else are refused |
| Scenarios.ApproveNoStateScenario | test/TreasuryRebalance.js:273-275 | a sender contract without `getState()` gives "call failed" |
| Scenarios.ApproveAdminScenario | test/TreasuryRebalance.js:277-286 | an emptied admin list and a caller outside it are refused with their messages |
| Scenarios.StatusScenario | test/TreasuryRebalance.js:298-310 | closing registration gives status 1; with both senders approved, closing the approval round gives status 2 |
| Scenarios.InsufficientFundsScenario | test/TreasuryRebalance.js:312-321 | 50 owed against 40 held fails with the lack-of-funds message |
| Scenarios.StageOrderScenario | test/TreasuryRebalance.js:323-349 | repeating, skipping or going back a stage fails "function not allowed at this stage"; closing the approval round in between goes through |
| Scenarios.NoApprovalScenario | test/TreasuryRebalance.js:359-364 | without approvals the quorum is not reached |
| Scenarios.RaisedQuorumScenario | test/TreasuryRebalance.js:366-378 | raising a threshold after approval makes the round fail; the new admin's approval brings the count to 2 and the round then closes |
| Scenarios.RaisedQuorumShortScenario | test/TreasuryRebalance.js:380-386 | the one approval goes through with count 1, and against a raised threshold of two it does not reach the quorum |
| Scenarios.FinalizeScenario | test/TreasuryRebalance.js:404-409 | finalizing records the memo and gives status 3 |
| Scenarios.FinalizeRefusedScenario | test/TreasuryRebalance.js:418-429 | finalizing before the approval round closes, or by a non-owner, is refused |
| Scenarios.ResetRegisteredScenario | test/TreasuryRebalance.js:447-464 | a reset of a closed registration with 2 senders and 1 receiver clears counts, treasury amount, memo and status and keeps the rebalance block |
| Scenarios.ResetApprovedScenario | test/TreasuryRebalance.js:466-486 | a reset from status 2 with 1 sender and 1 receiver clears everything as well |
| Scenarios.ResetFinalizedScenario | test/TreasuryRebalance.js:488-503 | after finalization (status 3) a reset is refused |
| Scenarios.ResetLateScenario | test/TreasuryRebalance.js:505-508 | fifty blocks after deployment a reset is refused |
| Scenarios.PaymentScenario | test/TreasuryRebalance.js:511-517 | a payment to the deployed contract is refused |
| Scenarios.IsContractScenario | test/TreasuryRebalance.js:519-526 | the owner's account is not a contract, the rebalance contract is |
| Scenarios.ReceiverRoundTrip | test/TreasuryRebalance.js:139-197 | in every valid state, a receiver that could be registered can be removed again, restoring the receivers and the treasury amount |
| Scenarios.SenderRoundTrip | test/TreasuryRebalance.js:53-106 | in every valid state, a sender that could be registered can be removed again, restoring the senders |
| Scenarios.ApproveTwice | test/TreasuryRebalance.js:253-258 | in every valid state and world, once an approval went through, repeating it fails as a duplicate |
| Scenarios.ResetTwice | test/TreasuryRebalance.js:432-486 | a reset that went through can be repeated and leaves the state right after deployment |

## Left out

- The contract's Solidity source is not part of this model. The model
  follows its behaviour as the test suite states it, and the choices listed
  above where the tests are silent.
- Events and their payloads are not modelled. `Approve` returns the new
  approver count that the Approve event carries. The RemoveSender and
  RemoveReceiver events carry a count whose meaning the tests leave
  ambiguous.
- The mock sender contracts, and their admin-list and threshold changes, are
  not modelled as code. They are the `World` parameter, which each call
  reads as it stands at that moment.
- Ether units, value transfer and the payout after finalization are left
  out. Amounts and balances are unbounded naturals, so 256-bit overflow is
  not modelled.
- The Ownable library is reduced to one owner field compared with the
  caller. Ownership transfer is left out.
- The Hardhat harness (signers, block mining, async calls) becomes the
  `caller` and `currentBlock` parameters. The first Deployment test (lines
  36-44) checks the mock contracts rather than the rebalance contract; the
  fixture world encodes what it checks.
- RemoveSender: promises the remaining senders as a multiset, not their
  order, because the tests never observe the order after a removal.
- RemoveReceiver: promises the remaining receivers as a multiset, not their
  order, for the same reason.
- The deployment script and the Hardhat configuration hold no contract
  logic and are not modelled.
