# Verification of the token custody transaction lifecycle

This project models how the service turns an approved intent (deploy a token, write an eligibility window, mint) into at
most one transaction on a chain, and proves what its design promises about that. The centre is the protocol by which an
operation moves from READY to a terminal state: nonce reservation, signing by an untrusted signer, persisting before
broadcasting, ambiguous broadcasts, byte-identical rebroadcast, same-nonce fee replacement, nonce recovery, confirmation
and reorganisation. Around it stand the token contract, canonical JSON and the hashes built on it, the outbox, idempotent
requests and two-person approval.

`dafny verify dfyconfig.toml` checks everything.

## How it is organised

| file | what it holds |
|---|---|
| `CanonicalJson`, `MintProposal`, `TransactionIntent` | the canonical printer with a parser that undoes it; proposal hashes, references, fingerprints; fee arithmetic |
| `Token`, `TokenContract` | the contract as a transition function, and as a class with storage updated in place that is proved to be it |
| `SignedTransaction`, `Ledger` | the check of signed bytes; blocks of transactions replayed against the contracts they address |
| `OperationMachine`, `Tables`, `Repository` | the operation state machine; the tables with their constraints and every transaction run on them, as functions and as a class of statements with rollback whose invariant is that of the lifecycle |
| `TableInvariants`, `Commits` | what every transaction keeps and can never take back; exactly when each commits and what it changes |
| `Lifecycle` | the step system: each database transaction, RPC call and signer call of each worker is one step |
| `LifecycleInvariants`, `LifecycleSteps`, `LifecycleRuns` | the invariant of level L1 and that every step of every worker keeps it |
| `LifecycleTheorems`, `Broadcasts`, `ReplacementChains`, `BlockedLane` | the results at L1 |
| `Stretches`, `Sweeps`, `ReplacementSweep` | what execute, the chain writer, observation and each sweep do from their first read to their last write; which attempt recovery acts on (L1) |
| `SingleDriver` | the results at L2, and the exact condition under which they fail at L1 |
| `Counterexamples`, `RevertedRun` | concrete runs that refute stronger claims |
| `Delivery`, `MintRun` | an undisturbed delivery, and a mint that reaches SUCCEEDED by it |
| `Confirmation`, `Outbox`, `Idempotency`, `Approvals`, `Admission` | the confirmation loops, the outbox lease, idempotency keys, two-person approval, and the last two together |

## Concurrency levels

A run is any sequence of labels; a label that does not apply changes nothing. **L1** is every run: any number of workers,
recovery sweeps and replacement sweeps, duplicate deliveries, crashes after any step, any answers of node and signer,
blocks with anyone's transactions, and reorganisations down to the finalized prefix. **L2** is a run in which a worker
starts on an operation only while no other drives it, so that what the recovery sweep read of it is current; crashes stay
possible anywhere. The staleness threshold of the recovery sweep is meant to give L2. Each result names its level.

## Assumptions

- SHA-256 and keccak-256 are injective (they are constructors here). Bytes are what they decode to.
- The signer answers an attempt once: asked again it repeats the same signature or refusal.
- A deterministic rejection means that the node did not take the bytes. Each RPC is one step, and each round of the
  confirmation loop reads one state of the chain (`Confirmation` models the loop without this).
- Only this application signs for its account, whose transactions execute at consecutive nonces (section 6 of the
  Ethereum Yellow Paper). There is one signer and one chain.
- The token contracts a run replays stand at their addresses from its first block on; they are not linked to the
  operations that deploy them.
- The first `final` blocks are never reorganised away; a configured confirmation depth is deep enough for that.
- Addresses, calldata and references are ASCII hexadecimal; `toLowerCase` is modelled on ASCII.
- Time windows (stuck, stale, lapsed requests, eligibility at broadcast) are left to chance in the lifecycle, which only
  adds runs. The outbox has one nondecreasing database clock.

## Where the code and its words differ

- `reserveNonce` says that the chain may be ahead and must never be behind (src/db/repositories/transaction-repository.ts:96-99);
  its guard halts exactly when the chain is ahead. The model follows the guard.
- A decision that meets a changed proposal reports that previous approvals are void (src/modules/approvals/approval-service.ts:131-136).
  The close it made is rolled back by that error; earlier approvals stand and count again when the rows change back
  (`Approvals.NeverSuperseded`, `Approvals.ConflictVoidsNothing`).
- A signature released after its request lapsed must not revive the attempt (src/modules/transactions/chain-writer.ts:478-479).
  The lapse and the failure it causes commit separately, so with two drivers it can: the operation is FAILED and its
  bytes are out, under a log without BROADCASTING (`Counterexamples.StrandedAtL1`). At L1 value is stranded exactly at
  the steps `SingleDriver.StrandsExactly` names, all of which the rows show beforehand (`SingleDriver.StrandsByRows`,
  `SingleDriver.UnriskyRunStrandsNothing`), at L2 never (`SingleDriver.FailureNeverStrands`). BROADCASTING is missing
  from the log of bytes that are out exactly when the log ends with SIGNED, FAILED (`Broadcasts.LogOfSentExactly`).
- The replacement sweep tries to cancel the nonce of every failed attempt without a block (src/modules/transactions/replacement-service.ts:319-321).
  The constraint on REPLACED rows refuses this for an attempt that was never signed, and such a lane stays blocked for
  good (`BlockedLane.CancellationExactly`, `BlockedLane.UnsignedFailureBlocksLane`; `Counterexamples.BlocksLane` is a run
  that gets there).
- REVERTED is settled from a block that need not be final; the same transaction can succeed after a reorganisation
  (`RevertedRun.RevertedIsNotFinal`). The revert stands in every continuation exactly if it is in the finalized prefix
  (`LifecycleTheorems.RevertStandsExactly`), and then no transaction of the operation ever succeeds
  (`LifecycleTheorems.FinalRevertIsForever`).

## Model

| member | source | states |
|---|---|---|
| CanonicalJson.RoundTrip | src/domain/canonical.ts:9-18 | parsing the canonical text of any JSON value gives the value back and leaves what followed it |
| CanonicalJson.CanonicalJsonInjective | src/domain/canonical.ts:9-18 | two values have the same canonical text exactly when they are equal up to member order |
| CanonicalJson.CanonicalHashInjective | src/domain/canonical.ts:25-27 | hence the same hash exactly when they are equal |
| CanonicalJson.LessExactly | src/domain/canonical.ts:13-13 | names are ordered so that a proper prefix comes first and otherwise the smaller first differing code unit, exactly |
| CanonicalJson.EscapesExactly | src/domain/canonical.ts:10-10 | a code unit is written as itself exactly unless it is a quote, backslash, control character or half surrogate; seven have a two-unit escape, the others one of six |
| CanonicalJson.DecimalIsShortest | src/domain/canonical.ts:10-10 | numbers are written in digits without a leading zero |
| MintProposal.ProposalHashInjective | src/domain/mint-proposal.ts:25-38 | proposal hashes agree exactly when the proposals agree up to the letter case of addresses and reference |
| MintProposal.LowerExactly | src/domain/mint-proposal.ts:25-38 | two texts agree in lower case exactly when they differ at most in the case of letters |
| MintProposal.ReferenceInjective | src/domain/mint-proposal.ts:45-47 | two operations never share a single-use reference |
| TransactionIntent.FingerprintInjective | src/modules/transactions/transaction-intent.ts:21-31 | fingerprints agree exactly when the intents do, up to letter case |
| TransactionIntent.FeeOnlyExactly | src/modules/transactions/transaction-intent.ts:50-109 | a replacement passes exactly when its nonce, its intent and the recorded fingerprint are those of the stored row |
| TransactionIntent.FeeEstimate | src/adapters/evm/viem-evm-gateway.ts:102-110 | an estimate is never below what the node reported, no more than that and the order of the two need, with the priority fee within the maximum |
| TransactionIntent.BumpRises | src/modules/transactions/transaction-intent.ts:115-130 | both fields rise strictly and by at least the bump, are at least the market's and no more than the market's or the bump needs, and stay in order, so the guard that both rise never fires from the sweep |
| TransactionIntent.CompoundFees | src/modules/transactions/transaction-intent.ts:115-130 | over k bumps at any market estimates both fees grow at least by the bump compounded k times |
| SignedTransaction.VerifyExactly | src/adapters/evm/signed-transaction-verifier.ts:23-94 | bytes are accepted exactly when they are a well-formed encoding of the committed request, signed by its sender, under their own hash and with fees in order |
| SignedTransaction.HonestAccepted | src/adapters/evm/signed-transaction-verifier.ts:70-74 | an honest signature is accepted exactly when the fees are in order |
| Token.MintExactly | contracts/src/InstitutionalToken.sol:101-130 | a mint succeeds exactly when every ordered check holds, and then credits its recipient, consumes its reference and logs itself |
| Token.CreditedWasEligible | contracts/src/InstitutionalToken.sol:134-137 | whoever's balance a call raises was eligible then, and the token was not paused |
| Token.TransferExactly | contracts/src/InstitutionalToken.sol:134-137 | a transfer succeeds exactly when the caller has the tokens and the receiver is eligible and nothing is paused; they go from the caller to the receiver, nothing else changes, and the first failing check names the revert |
| Token.TransferFromExactly | contracts/src/InstitutionalToken.sol:134-137 | the same with an owner's tokens, exactly when the caller's allowance from that owner covers them; a limited allowance falls by the value, an unlimited one and every other stay |
| Token.ApproveExactly | contracts/src/InstitutionalToken.sol:13-13 | sets what the spender may spend of the caller's own tokens and nothing else |
| Token.SetEligibilityExactly | contracts/src/InstitutionalToken.sol:76-83 | by the compliance role only; afterwards the account is eligible exactly up to the given time, never after a zero, and nobody else's eligibility changed |
| Token.GrantExactly | contracts/src/InstitutionalToken.sol:13-13 | by the admin only; exactly one member joins one role |
| Token.RevokeExactly | contracts/src/InstitutionalToken.sol:13-13 | by the admin only; exactly one member leaves one role |
| Token.RenounceExactly | contracts/src/InstitutionalToken.sol:13-13 | whoever names itself leaves its own role, nobody else does |
| Token.PauseExactly | contracts/src/InstitutionalToken.sol:90-96 | only the pauser stops and resumes the token, each from the other state, and nothing else changes |
| Token.ExecConserves | contracts/src/InstitutionalToken.sol:101-137 | each call keeps sum of balances, supply, minted amounts, cap and consumed references in account |
| Token.RunConserves | contracts/src/InstitutionalToken.sol:85-137 | over every call sequence by anyone the sum of balances is the supply, is the sum of amounts over consumed references, is within the cap, and each consumed reference has exactly one mint |
| TokenContract.InstitutionalToken.constructor | contracts/src/InstitutionalToken.sol:61-68 | a new contract has the given cap and roles, no supply and balanced books |
| TokenContract.InstitutionalToken.Deploy | contracts/src/InstitutionalToken.sol:48-69 | refuses a zero cap and then a zero admin, else deploys with exactly the named role holders, the zero address standing for nobody |
| TokenContract.InstitutionalToken.Update | contracts/src/InstitutionalToken.sol:134-137 | every movement checks the receiver's eligibility, then the pause, then moves or mints; a revert changes nothing |
| TokenContract.InstitutionalToken.MintWithReference | contracts/src/InstitutionalToken.sol:101-130 | the ordered checks and effects, with the same revert reason and state as the specification, keep the books balanced |
| TokenContract.InstitutionalToken.SetEligibility | contracts/src/InstitutionalToken.sol:76-83 | only the compliance role writes an eligibility window, never of the zero address, and exactly then EligibilityUpdated is logged |
| TokenContract.InstitutionalToken.Transfer | contracts/src/InstitutionalToken.sol:134-137 | succeeds exactly when the caller has the tokens and the receiver may receive; then they went from the caller to the receiver, otherwise no balance changed; the books stay balanced |
| TokenContract.InstitutionalToken.TransferFrom | contracts/src/InstitutionalToken.sol:134-137 | the same, spending the allowance only when the movement succeeds |
| TokenContract.InstitutionalToken.SpendAllowance | contracts/src/InstitutionalToken.sol:13-13 | spends a limited allowance, leaves an unlimited one, refuses what is not covered |
| TokenContract.InstitutionalToken.Approve | contracts/src/InstitutionalToken.sol:13-13 | the inherited approval sets one allowance and moves nothing |
| TokenContract.InstitutionalToken.GrantRole | contracts/src/InstitutionalToken.sol:13-13 | only the admin grants a role |
| TokenContract.InstitutionalToken.RevokeRole | contracts/src/InstitutionalToken.sol:13-13 | only the admin revokes a role |
| TokenContract.InstitutionalToken.RenounceRole | contracts/src/InstitutionalToken.sol:13-13 | anyone gives up a role of their own, confirmed by naming themselves |
| TokenContract.InstitutionalToken.SetPaused | contracts/src/InstitutionalToken.sol:90-96 | only the pauser pauses and unpauses, each only from the other state |
| Ledger.ReplayLast | contracts/src/InstitutionalToken.sol:101-137 | one more transaction changes a contract's state and log only by its own call, when that does not revert |
| Ledger.MintLoggedOnce | contracts/src/InstitutionalToken.sol:98-130 | a successful mint anywhere in a chain is the only mint of its reference in the contract's whole log |
| OperationMachine.TerminalIsLast | src/domain/operation-state.ts:56-94 | nothing follows a terminal state |
| OperationMachine.TableExactly | src/domain/operation-state.ts:56-90 | where each state can be entered from; terminal are exactly the states nothing leads out of, and failOperation spares exactly those neither unsigned nor SIGNED |
| OperationMachine.SigningOnce | src/domain/operation-state.ts:56-90 | SIGNING occurs at most once on any path |
| OperationMachine.BroadcastUnlessFailed | src/domain/operation-state.ts:56-90 | a signed operation failOperation does not touch passed from SIGNED to BROADCASTING, unless it was failed straight from SIGNED, and only then |
| OperationMachine.SuccessPassesThrough | src/domain/operation-state.ts:56-90 | a path to SUCCEEDED goes through SIGNED, BROADCASTING and INCLUDED in that order |
| OperationMachine.CancelledNeverSigned | src/domain/operation-state.ts:56-90 | a path to CANCELLED never reached SIGNING |
| TableInvariants.TransitionKeeps | src/db/repositories/operation-repository.ts:198-234 | a transition from however stale a record that commits keeps every invariant and only extends one log |
| TableInvariants.RetiredRowsStay | src/db/repositories/transaction-repository.ts:187-226 | the live-nonce index rejects every update that would revive a REPLACED row |
| TableInvariants.PrepareKeeps | src/modules/transactions/chain-writer.ts:145-193 | nonce, first attempt and PREPARING to SIGNING together keep the lane exact and the operation's single root |
| TableInvariants.PersistKeeps | src/modules/transactions/chain-writer.ts:561-571 | storing verified bytes keeps every invariant and never changes bytes already stored |
| TableInvariants.OutcomeKeeps | src/modules/transactions/chain-writer.ts:634-696 | recording what the node answered keeps every invariant, whoever the hooks belong to |
| TableInvariants.RebroadcastKeeps | src/modules/transactions/recovery-service.ts:218-235 | before bytes are sent again their operation is in a state failOperation does not touch |
| TableInvariants.AbandonKeeps | src/modules/transactions/recovery-service.ts:152-192 | abandoning an unsent operation keeps every invariant |
| TableInvariants.FailOperationKeeps | src/modules/operations/operation-executor.ts:524-562 | failing an operation keeps every invariant |
| TableInvariants.ReorgKeeps | src/modules/operations/operation-executor.ts:395-456 | recording a reorganisation keeps every invariant |
| TableInvariants.SettleKeeps | src/modules/operations/operation-executor.ts:458-522 | settling keeps every invariant |
| TableInvariants.ReplaceKeeps | src/modules/transactions/chain-writer.ts:389-427 | a replacement keeps links inverse, numbers rising, one live attempt per nonce and one intent per operation |
| TableInvariants.EnqueueSyncKeeps | src/modules/compliance/compliance-service.ts:286-364 | a later sync of a wallet and asset is inserted only once the earlier one is terminal |
| Commits.PrepareExactly | src/modules/transactions/chain-writer.ts:145-193 | commits exactly for an operation in PREPARING and a chain not ahead of the lane; then the next nonce has an unsent first attempt for what was built and the operation is in SIGNING |
| Commits.PersistExactly | src/modules/transactions/chain-writer.ts:561-571 | commits exactly for an attempt not REPLACED, bytes no other attempt has and, under the executor's hooks, an operation in SIGNING; then the bytes are stored and all three records say signed |
| Commits.BroadcastingExactly | src/modules/transactions/chain-writer.ts:593-600 | commits exactly for an attempt not REPLACED whose operation may still be broadcast; then both say so and the send is counted |
| Commits.OutcomeExactly | src/modules/transactions/chain-writer.ts:634-696 | commits exactly for an attempt not REPLACED whose operation may still take the answer; then attempt and operation take the states that go with it, per kind of hooks, and nothing else changes |
| Commits.FailAttemptExactly | src/modules/transactions/chain-writer.ts:698-712 | commits exactly for an attempt not REPLACED and, under the executor's hooks, an operation that may still fail; then both have failed |
| Commits.AbandonExactly | src/modules/transactions/recovery-service.ts:152-192 | outside PREPARING and SIGNING changes nothing; there the operation fails, together with the attempt found if any, unless that was REPLACED, which aborts |
| Commits.LatestExactly | src/db/repositories/transaction-repository.ts:278-289 | the query finds the operation's attempt at the greatest position, and none exactly when it has none |
| Commits.FailOperationExactly | src/modules/operations/operation-executor.ts:524-562 | always commits, leaves an operation in flight or settled alone and fails any other, together with the attempt created last for it if that was never signed |
| Commits.IncludeExactly | src/modules/operations/operation-executor.ts:319-342 | commits exactly for an attempt not REPLACED; a settled attempt keeps its status and block, any other gets the receipt's |
| Commits.ReorgExactly | src/modules/operations/operation-executor.ts:395-456 | commits exactly for an attempt not REPLACED; then inclusion is cleared, exactly the attempt's observations are unmarked, and INCLUDED is SUBMITTED again |
| Commits.SettleExactly | src/modules/operations/operation-executor.ts:458-522 | commits exactly when already settled so, changing nothing, or from INCLUDED with a signed attempt not REPLACED; then attempt and operation settle together |
| Commits.ConfirmRecoveryExactly | src/modules/transactions/replacement-service.ts:271-307 | commits exactly for a recovery not REPLACED; a settled one keeps status and block unless a final success makes it CONFIRMED |
| Commits.EnqueueExactly | src/modules/compliance/compliance-service.ts:286-364 | commits exactly while every earlier sync of the wallet and asset is terminal or READY; those in READY are cancelled and the new one is last |
| Repository.ThreeStatements | src/db/repositories/transaction-repository.ts:444-478 | retire, insert and link one after the other break a constraint exactly when their combined effect does |
| Repository.Database.ReserveNonce | src/db/repositories/transaction-repository.ts:71-122 | creates the lane from the chain's count when missing, halts on a chain ahead of it, else takes the next nonce |
| Repository.Database.TransitionOperation | src/db/repositories/operation-repository.ts:198-234 | commits exactly when the machine has the edge and the row is still in the observed state; then that operation alone has moved, with one more log entry, and every invariant still holds |
| Repository.Database.Prepare | src/modules/transactions/chain-writer.ts:145-193 | keeps the lifecycle invariant; commits exactly from PREPARING with a chain not ahead of the lane, and then the next nonce has one more attempt and the operation is in SIGNING, else nothing changed |
| Repository.Database.Replace | src/modules/transactions/chain-writer.ts:389-427 | its three statements are one atomic replacement that keeps the lifecycle invariant, commits exactly for a live signed row, and leaves every other row as it was |
| Repository.Database.Persist | src/modules/transactions/chain-writer.ts:561-571 | keeps the lifecycle invariant; bytes, signer request and transition commit together, exactly when no other attempt has the bytes and the operation may still be signed, and nothing else changes |
| Repository.Database.MarkBroadcasting | src/modules/transactions/chain-writer.ts:593-600 | keeps the lifecycle invariant; status, send count and transition commit together and nothing else changes |
| Repository.Database.RecordOutcome | src/modules/transactions/chain-writer.ts:634-696 | keeps the lifecycle invariant; attempt and operation take what the answer means under the hooks given, exactly while they still may, and nothing else changes |
| Repository.Database.FailAttempt | src/modules/transactions/chain-writer.ts:698-712 | keeps the lifecycle invariant; under the executor's hooks the attempt fails exactly together with its operation |
| Repository.Database.Rebroadcast | src/modules/transactions/recovery-service.ts:220-231 | keeps the lifecycle invariant; commits exactly while the attempt was not REPLACED, and leaves its operation where failOperation does not touch it |
| Repository.Database.AbandonUnbroadcast | src/modules/transactions/recovery-service.ts:152-192 | keeps the lifecycle invariant; fails only an operation still in PREPARING or SIGNING, together with its latest attempt |
| Repository.Database.ConfirmRecovery | src/modules/transactions/replacement-service.ts:271-307 | keeps the lifecycle invariant; records receipt and observation, and CONFIRMED only for a final success |
| Repository.Database.FailOperation | src/modules/operations/operation-executor.ts:524-562 | keeps the lifecycle invariant, always commits, changes nothing for an operation in flight or terminal, fails any other with the attempt created last for it if unsigned, and moves no other |
| Repository.Database.RecordInclusion | src/modules/operations/operation-executor.ts:319-342 | keeps the lifecycle invariant; SUBMITTED to INCLUDED together with the receipt, a settled attempt keeping its own |
| Repository.Database.RecordReorg | src/modules/operations/operation-executor.ts:395-456 | keeps the lifecycle invariant; clears inclusion, unmarks exactly the attempt's observations without deleting any, and takes INCLUDED back to SUBMITTED |
| Repository.Database.Settle | src/modules/operations/operation-executor.ts:458-522 | keeps the lifecycle invariant; settles attempt and operation together from INCLUDED, and settling again changes nothing |
| Repository.Database.EnqueueEligibilitySync | src/modules/compliance/compliance-service.ts:286-364 | keeps the lifecycle invariant; commits exactly while every earlier sync of the pair is terminal or READY, and afterwards all of them are terminal |
| LifecycleRuns.StepKeeps | src/modules/operations/operation-executor.ts:65-96 | L1: every step of every worker, request and chain event keeps the invariant and takes nothing back |
| LifecycleRuns.RunKeeps | src/modules/transactions/recovery-service.ts:85-119 | L1: the invariant holds in every reachable state |
| LifecycleRuns.RunGrows | src/db/repositories/transaction-repository.ts:187-264 | L1: what any point of a run recorded is never taken back later |
| LifecycleSteps.PreparedServes | src/modules/operations/handlers/mint-handler.ts:46-128 | a call that handlers build does what the operation was approved for, whatever columns and current rows say: contract, recipient, reference and amount agree with the hashed proposal |
| LifecycleSteps.LaneCoversChain | src/db/repositories/transaction-repository.ts:71-122 | L1: the account nonce never runs ahead of the lane |
| LifecycleSteps.PersistGood | src/modules/transactions/chain-writer.ts:543-571 | L1: the bytes stored are the signer's settled answer, so stored bytes never change |
| LifecycleSteps.FinalMintProven | src/modules/transactions/reconciliation-service.ts:102-142 | L1: a finalized receipt with the approved mint is the one MintExecuted of its reference |
| LifecycleTheorems.AtMostOnce | src/modules/transactions/chain-writer.ts:145-193 | L1: the canonical chain never holds two transactions of one operation, without relying on the contract's reference check |
| LifecycleTheorems.NonceOrder | src/modules/transactions/chain-writer.ts:145-193 | our transactions stand in the chain in the order of their nonces |
| LifecycleTheorems.ExposedIsStored | src/modules/transactions/chain-writer.ts:561-602 | L1: bytes any node was given are stored on exactly one attempt and decode to what it committed to |
| LifecycleTheorems.ApprovedIsSent | src/modules/operations/handlers/mint-handler.ts:46-128 | L1: every byte string of an operation calls the approved contract with the approved recipient, reference and the amount whose text the approval hash covers, from the signer on the chain with zero value, and all its attempts share intent and nonce |
| LifecycleTheorems.HonestSignatureAccepted | src/adapters/evm/signed-transaction-verifier.ts:23-94 | L1: no attempt, replacement or recovery ever asks for a signature its own check would refuse |
| LifecycleTheorems.RecoveryChangesNothing | src/modules/transactions/chain-writer.ts:321-332 | L1: an executed nonce recovery is an empty self-transfer that changes no token contract |
| LifecycleTheorems.BytesNeverChange | src/db/repositories/transaction-repository.ts:187-200 | L1: once stored, bytes never change, and a REPLACED attempt stays so with its successor |
| LifecycleTheorems.LaneExact | src/db/repositories/transaction-repository.ts:71-122 | L1: issued nonces are exactly those from base to the lane's next, each has exactly one attempt not REPLACED, and the account nonce lies within |
| LifecycleTheorems.NeverDiverges | src/db/repositories/transaction-repository.ts:96-112 | L1: however stale the count a worker read, its reservation never reports a divergence |
| LifecycleTheorems.ReservesOnce | src/db/repositories/operation-repository.ts:242-255 | L1: however often an operation is delivered it reserves a nonce at most once |
| LifecycleTheorems.DurableLog | src/db/repositories/operation-repository.ts:198-234 | L1: the log is a path of the machine ending in the state, with SIGNING at most once, nothing after a terminal state, and SUCCEEDED only after SIGNED, BROADCASTING, INCLUDED |
| LifecycleTheorems.CancelledHasNoAttempt | src/domain/operation-state.ts:56-90 | L1: a cancelled operation has no attempt; one whose bytes went out was signed and is in a state failOperation does not touch, which includes the terminal ones |
| LifecycleTheorems.SuccessIsOneMint | src/modules/operations/operation-executor.ts:281-386 | L1: a SUCCEEDED mint has exactly one MintExecuted with its reference, recipient and the amount whose text was approved, in the finalized prefix and in the whole chain, then and ever after |
| LifecycleTheorems.RevertStandsExactly | src/modules/transactions/confirmation.ts:58-60 | L1: a reverted transaction stands where it is in every continuation if and only if it is in the finalized prefix |
| LifecycleTheorems.FinalRevertIsForever | src/modules/transactions/confirmation.ts:58-60 | L1: a revert in the finalized prefix is for ever: no transaction of the operation ever succeeds |
| LifecycleTheorems.EligibilityInOrder | src/modules/compliance/compliance-service.ts:286-364 | L1: eligibility writes of a wallet and asset stand in the chain in the order their decisions enqueued them, each with its own window |
| Broadcasts.SendsWhatIsStored | src/modules/transactions/chain-writer.ts:561-634 | L1: bytes a step hands to a node were stored before it, under an operation that was signed, that failOperation does not touch, and whose log has BROADCASTING right after SIGNED exactly if it was not failed straight from SIGNED |
| Broadcasts.LogOfSentExactly | src/modules/transactions/chain-writer.ts:573-602 | L1: the log of an operation whose bytes are out has SIGNED and at once BROADCASTING if and only if it does not end with SIGNED, FAILED |
| Broadcasts.WithholdsExactly | src/modules/transactions/chain-writer.ts:573-590 | with bytes stored a worker goes on exactly if its operation exists, is not CANCELLED and, for a mint, its wallet is still eligible; otherwise it fails the attempt; a nonce recovery asks nobody |
| Broadcasts.SendsOnlyWhatIsAllowed | src/modules/operations/operation-executor.ts:231-241 | L1: whoever sends on the executor's or the replacement's path found, after the bytes were stored, the operation there, not CANCELLED and for a mint its wallet eligible |
| Broadcasts.SendsOnlyLive | src/modules/transactions/chain-writer.ts:617-632 | L1: whoever sends, recovery included, found the attempt not REPLACED on its last look |
| Broadcasts.ReorgNeutral | src/db/repositories/transaction-repository.ts:389-422 | any number of orphan and re-inclusion cycles leaves lane, attempts, bytes and settled operations as they were and deletes no observation |
| ReplacementChains.Tail | src/modules/transactions/chain-writer.ts:386-427 | following replacement links ends at the live row of the nonce, numbered higher |
| ReplacementChains.NumbersDistinct | src/modules/transactions/chain-writer.ts:389-427 | within a nonce a replacement number names one attempt |
| ReplacementChains.ChainIsLinear | src/modules/transactions/chain-writer.ts:253-259 | L1: the attempts of a nonce are numbered 0 to its live one, each once, and are at most maxReplacements + 2 |
| ReplacementChains.CancelledAtMostOnce | src/modules/transactions/replacement-service.ts:162-217 | L1: a nonce is cancelled at most once |
| ReplacementChains.FeesCompound | src/modules/transactions/transaction-intent.ts:115-130 | L1: the attempt numbered k pays at least the first one's fees raised k times by the bump, with priority within maximum |
| ReplacementChains.PaysTheMarket | src/modules/transactions/replacement-service.ts:106-115 | L1: every replacement and cancellation was made in a step that read the market, pays at least what the node then reported in both fields, and no more than that or the bump needs |
| BlockedLane.StatusExactly | src/db/repositories/transaction-repository.ts:202-226 | an unguarded status update commits exactly on rows not REPLACED, and needs bytes unless it only fails the attempt |
| BlockedLane.RebroadcastExactly | src/modules/transactions/recovery-service.ts:218-235 | the rebroadcast transaction commits exactly while the attempt was not REPLACED |
| BlockedLane.ReplacementExactly | src/db/migrations/0001_init.sql:335-338 | a replacement commits exactly when the row it retires is live and was signed |
| BlockedLane.CancellationExactly | src/modules/transactions/chain-writer.ts:307-352 | L1: so a nonce can be cancelled exactly when its live attempt was signed |
| BlockedLane.UnsignedFailureBlocksLane | src/modules/transactions/replacement-service.ts:162-199 | L1: once an attempt failed unsigned its nonce stays live in every continuation and the account nonce never passes it |
| Stretches.AloneRuns | src/modules/operations/operation-executor.ts:65-96 | a worker's stretch with nobody else acting is a part of a run |
| Stretches.ClaimsExactly | src/db/repositories/operation-repository.ts:242-255 | only a READY operation is claimed, into PREPARING; any other delivery changes nothing |
| Stretches.ApprovesExactly | src/modules/approvals/approval-service.ts:195-241 | a decision readies or cancels an operation exactly while it awaits approval |
| Stretches.CreatesExactly | src/modules/operations/mint-service.ts:100-200 | a mint is created awaiting approval, with the amount its proposal spells; a deployment is READY at once |
| Stretches.BuildsExactly | src/modules/operations/operation-executor.ts:106-128 | a claimed operation is built exactly while its proposal is what was approved; then the next nonce has a first attempt for the operation's own call at the fees read, otherwise no nonce is used |
| Stretches.RequestsExactly | src/modules/transactions/chain-writer.ts:208-242 | no decision leaves a PENDING request, a decision is recorded as the signer's first one and settled, an error goes to whoever listens |
| Stretches.ResumesExactly | src/modules/transactions/chain-writer.ts:464-517 | only an outstanding request is resumed; a lapsed one is retired before the signer is asked and fails its attempt; otherwise the signer's decision is settled |
| Stretches.SettlesExactly | src/modules/transactions/chain-writer.ts:519-571 | a refusal fails the attempt, bytes that are not exactly what was asked for fail it and are reported, and only genuine bytes are stored |
| Stretches.SendsExactly | src/modules/transactions/chain-writer.ts:609-696 | bytes of a replaced attempt are not sent; others go to the node once and its answer is recorded on attempt and operation, after which each kind of caller goes on as it should |
| Stretches.FirstSendExactly | src/modules/transactions/chain-writer.ts:591-696 | the executor's first send extends the log by BROADCASTING and the node's answer, or sends nothing when the operation may no longer be broadcast |
| Stretches.LooksExactly | src/modules/operations/operation-executor.ts:281-317 | a settled operation is not looked at again, nothing happens without a receipt, and each confirmation leads to its own handling |
| Stretches.OrphansExactly | src/modules/operations/operation-executor.ts:395-456 | an orphaned receipt takes the attempt, and an INCLUDED operation, back to SUBMITTED without a block |
| Stretches.ConcludesExactly | src/modules/operations/operation-executor.ts:319-386 | the receipt is recorded first; then a revert ends in REVERTED and a final success whose event is the approved mint in SUCCEEDED, only from INCLUDED, and anything else leaves the operation there |
| Stretches.EventComparedExactly | src/modules/transactions/reconciliation-service.ts:102-109 | reconciliation accepts a successful receipt exactly if it carries one MintExecuted of the contract with the operation's reference, amount and recipient |
| Sweeps.LatestIsLive | src/db/repositories/transaction-repository.ts:278-289 | L1: the attempt recovery finds holds the operation's nonce, unless and only unless the nonce was cancelled; every other attempt of the operation is earlier, at the same nonce and REPLACED |
| Sweeps.ReadsLatest | src/modules/transactions/recovery-service.ts:130-209 | every read of recovery acts on the operation's last attempt: asks the signer about it, gives it up, looks its bytes up, watches it, or leaves it when REPLACED |
| Sweeps.GivesUpUnsent | src/modules/transactions/recovery-service.ts:152-192 | from any state read before a submission, an operation whose last attempt has no bytes and no outstanding request fails with that attempt exactly while in PREPARING or SIGNING |
| Sweeps.ResumesLatest | src/modules/transactions/recovery-service.ts:130-150 | an outstanding request is resumed for the last attempt, under the executor's hooks |
| Sweeps.LooksUpLatest | src/modules/transactions/recovery-service.ts:85-110 | from any state read before a submission, the stored bytes of the last attempt are looked up, unless it is REPLACED |
| Sweeps.FoundIsWatched | src/modules/transactions/recovery-service.ts:211-216 | bytes found in the chain take a broadcast operation to SUBMITTED and are watched |
| Sweeps.SendsAgainExactly | src/modules/transactions/recovery-service.ts:218-257 | bytes not found are sent again as stored, counted, with attempt and operation following the node's answer and never failing the operation |
| Sweeps.WatchesLatest | src/modules/transactions/recovery-service.ts:112-118 | in SUBMITTED and INCLUDED the last attempt is watched; in READY, awaiting approval and settled nothing is done to the operation |
| Sweeps.ResendsTheLatest | src/modules/transactions/recovery-service.ts:199-233 | L1: whatever recovery sends again was, when it read it, the stored bytes of the operation's last attempt, not REPLACED |
| ReplacementSweep.TakesUpExactly | src/db/repositories/transaction-repository.ts:485-507 | an attempt is taken up exactly if it was handed to a node, is in no block and has replacements left |
| ReplacementSweep.ReplacesExactly | src/modules/transactions/replacement-service.ts:82-131 | a stuck attempt is replaced exactly if there is no receipt, its operation is not settled, replacements are left and it is live and signed; the new one asks for the same at outbidding fees under the next number |
| ReplacementSweep.UnblocksExactly | src/modules/transactions/replacement-service.ts:162-217 | only while the account nonce is behind, the attempt holding it is finished if it is a recovery that has not failed, cancelled if it failed without a block, and otherwise left alone |
| ReplacementSweep.CancelsExactly | src/modules/transactions/chain-writer.ts:307-352 | a live signed attempt gives its nonce to an empty self-transfer with outbidding fees and no operation; an unsigned one cannot |
| ReplacementSweep.ConfirmsExactly | src/modules/transactions/replacement-service.ts:271-307 | a recovery's receipt is recorded unless there is none or its block is gone, and only a final success confirms it |
| SingleDriver.StrandsExactly | src/modules/transactions/chain-writer.ts:481-490 | L1: a step leaves value stranded exactly when it fails an operation whose bytes are out or sends for a failed one |
| SingleDriver.StrandsByRows | src/modules/operations/operation-executor.ts:214-275 | L1: a send strands exactly when its operation's row is FAILED, a failure exactly when it meets BROADCASTING or BROADCAST_UNKNOWN on a live attempt whose bytes are out, never from SIGNING or SIGNED |
| SingleDriver.UnriskyRunStrandsNothing | src/modules/operations/operation-executor.ts:214-275 | L1: a run without a step the rows show to be risky strands nothing, whatever the interleaving |
| SingleDriver.SoloExactly | src/modules/transactions/recovery-service.ts:58-64 | L2 excludes nothing but a second driver of an operation and a recovery that acts on a state no longer current |
| SingleDriver.SoloRunKeeps | src/modules/operations/operation-executor.ts:191-275 | L2: no operation is ever FAILED with its bytes out, through first send, withheld signature, crash, rebroadcast and replacement |
| SingleDriver.FailureNeverStrands | src/modules/transactions/recovery-service.ts:152-192 | L2: bytes that are out belong to an operation neither FAILED nor CANCELLED whose log has SIGNED and then BROADCASTING |
| Counterexamples.StrandedAtL1 | src/modules/transactions/chain-writer.ts:481-490 | a concrete L1 run ends with a FAILED operation whose bytes are out and whose log lacks BROADCASTING |
| Counterexamples.BlocksLane | src/modules/transactions/chain-writer.ts:480-501 | a concrete run in which a signature request lapses reaches a blocked lane, whose cancellation does not commit |
| MintRun.ReachesSuccess | src/modules/operations/operation-executor.ts:281-386 | a concrete run takes a mint from its request to SUCCEEDED, with its one MintExecuted in the finalized prefix |
| RevertedRun.RevertedIsNotFinal | src/modules/transactions/confirmation.ts:58-60 | a concrete run ends with a REVERTED operation whose own transaction has succeeded in the finalized prefix |
| Confirmation.AwaitConfirmation | src/modules/transactions/confirmation.ts:35-67 | the two polling loops, over a chain that may change between any two reads, compute the outcome function |
| Confirmation.LookJustified | src/modules/transactions/confirmation.ts:35-67 | every outcome is justified by successive reads: INCLUDED by a receipt only, REVERTED by a canonical block, FINALIZED by finality as well |
| Confirmation.IsFinalExactly | src/modules/transactions/confirmation.ts:69-81 | a reported finalized height alone decides unless the policy does not ask for it; otherwise exactly the configured number of blocks from the block to the latest |
| Confirmation.CanonicalExactly | src/modules/transactions/confirmation.ts:52-55 | a receipt's block is canonical exactly if the chain has it at its height |
| Confirmation.PendingIsUnseen | src/modules/transactions/confirmation.ts:38-43 | PENDING means that no poll before the deadline found a receipt |
| Confirmation.SteadyOutcome | src/modules/transactions/confirmation.ts:45-67 | on a chain that stands still the outcome is exactly what it says; without time for a round it is INCLUDED with no canonicality read |
| Confirmation.FinalizedConfirms | src/modules/transactions/confirmation.ts:69-81 | a FINALIZED round over one chain state proves the transaction succeeded in the prefix that is never reorganised |
| Confirmation.RevertedConfirms | src/modules/transactions/confirmation.ts:58-58 | a REVERTED round proves the same of the chain as it stands only |
| Outbox.LeaseIsExclusive | src/db/repositories/outbox-repository.ts:57-126 | at most one dispatcher can complete a row, a DISPATCHED row was published, and any other is due again once its delay or lease is over |
| Outbox.StaleTokensChangeNothing | src/db/repositories/outbox-repository.ts:91-126 | a dispatcher's last write changes a row exactly when the row is still leased to it |
| Outbox.StepKeepsRows | src/db/repositories/outbox-repository.ts:57-126 | a row becomes DISPATCHED only by its lease holder, after publication |
| Outbox.NoRowIsLost | src/db/repositories/outbox-repository.ts:57-126 | over any run a row keeps its operation, and a DISPATCHED row never changes again |
| Outbox.RowWaits | src/db/repositories/outbox-repository.ts:57-126 | over any run a row in its delay stays as it is until the delay is over, and a leased one until the lease is, unless its own holder completes it or gives it back |
| Outbox.WritesExactly | src/db/repositories/outbox-repository.ts:57-126 | a claim takes only a row whose delay or lease is over, and leases it under a token no dispatcher had; a row given back is due after its delay, and one goes back exactly unless the queue said it accepted the job |
| Outbox.Dispatcher.DispatchOnce | src/modules/outbox/outbox-dispatcher.ts:64-102 | one cycle marks exactly the rows the queue accepted, gives the others back, leaves the rest alone, counts the accepted, and excludes a second cycle |
| Idempotency.IdempotencyKeys.ClaimIdempotencyKey | src/db/repositories/idempotency-repository.ts:41-64 | the first claim of a key wins, every other sees the row that won |
| Idempotency.IdempotencyKeys.CompleteIdempotencyKey | src/db/repositories/idempotency-repository.ts:85-106 | the keys stay; the row with this id, whatever it was, is completed with this operation under its id and hash, every other row is untouched |
| Idempotency.IdempotencyKeys.ReleaseIdempotencyKey | src/db/repositories/idempotency-repository.ts:112-114 | exactly the row with this id goes, completed or not, every other row is untouched |
| Idempotency.OperationsOfKey | src/modules/idempotency/idempotency-service.ts:34-97 | a key has exactly one committed operation per completed record it ever had |
| Idempotency.OneOperationPerKey | src/modules/idempotency/idempotency-service.ts:34-97 | when failed transactions did not commit, concurrent requests on a key commit at most one operation, and everyone who gets it as a response had asked for the same thing |
| Idempotency.RepliesExactly | src/modules/idempotency/idempotency-service.ts:52-77 | over every run, whoever finds a claimed key is answered with its operation exactly if that is committed for the same request, told of a conflict exactly if the row is for another, to wait exactly if it is for the same and in progress, and of an error exactly if it is gone |
| Idempotency.RepeatIsAnswered | src/modules/idempotency/idempotency-service.ts:45-77 | when failed transactions did not commit, a key with an operation is never claimed again and every repeat of its request is answered with that operation |
| Idempotency.ClaimsExactly | src/modules/idempotency/idempotency-service.ts:41-97 | a key is claimed exactly while no row has it; committed work leaves its operation as the response, failed work frees the key and creates nothing |
| Idempotency.LostCommitDuplicates | src/modules/idempotency/idempotency-service.ts:92-96 | the assumption is needed: a commit reported as an error lets a retry commit a second operation |
| Approvals.ApprovedExactly | src/domain/approval-state.ts:76-83 | approved exactly when enough different approvers approved and nobody rejected |
| Approvals.ApprovalService.RecordDecision | src/modules/approvals/approval-service.ts:77-261 | the checks in order with their errors, and the whole effect of an accepted decision; an error leaves no trace |
| Approvals.ReadyMeansApproved | src/modules/approvals/approval-service.ts:77-229 | a mint reaches READY exactly with the required number of different non-requester approvals, no rejection, every decision bound to the hash that matched when it was recorded, and exactly one outbox row |
| Approvals.DecidesExactly | src/modules/approvals/approval-service.ts:77-241 | a decision is taken exactly on an open request by another than its requester who has not decided, while the operation waits and the proposal is unchanged; the first failing check names the error; a rejection cancels, the approval that completes the required number readies |
| Approvals.AskedForStays | src/modules/operations/mint-service.ts:100-200 | a mint waits for the number of approvals and with the requester and hash it was asked with; over any history nobody changes that or reopens a closed request |
| Approvals.OneDecisionEach | src/db/migrations/0001_init.sql:197-197 | over any history nobody decides twice on one request |
| Approvals.RejectionCloses | src/modules/approvals/approval-service.ts:230-241 | a request is REJECTED exactly if somebody rejected it; its operation then went straight to CANCELLED, nothing asks for its execution and no further decision is taken |
| Approvals.NeverSuperseded | src/modules/approvals/approval-service.ts:118-137 | the SUPERSEDED close never commits |
| Admission.OneReadyMintPerKey | src/modules/operations/mint-service.ts:100-200 | when failed transactions did not commit, a key brings about at most one mint, and that one is READY only with the required approvals of others than the key's actor, none against, and then with exactly one outbox row |
| Approvals.ConflictVoidsNothing | src/modules/approvals/approval-service.ts:118-137 | a run in which approvals declared void still bring the operation to READY |

## Left out

- Replacement at L1 of a signature that is still pending is never resumed (src/modules/transactions/recovery-service.ts:203-205); no liveness is claimed.
- TokenContract.InstitutionalToken.Transfer: the inherited ERC-20, pausing and role code (OpenZeppelin Contracts 5) is not in the repository; its behaviour follows the "Methods" section of EIP-20 and that library's documented checks, and the library's own events are not logged.
- Confirmation.AwaitConfirmation: block hashes are numbers, so their letter case is not modelled.
- Outbox.Dispatcher.DispatchOnce: which due rows a claim selects, in which order and how many, is a parameter; other dispatchers act in the step system, not inside this method.
- TransactionIntent.FeeOnlyExactly: speaks of rows in the lower case that insertPreparedAttempt stores.
- RLP, ECDSA and error-text matching of node errors: only the three classes of broadcast answers are modelled.
- Simulation, gas estimation, chain identity checks: their failures are one way a step can throw.
- Reconciliation of deployments and eligibility, and the balance, supply and code checks of mints: one yes-or-no answer before SUCCEEDED; the mint event comparison is modelled.
- The asset activation, metrics and audit rows written beside transitions: they decide nothing here.
- The index on live deployments per asset: without it there are only more runs. The index on replacement targets is implied by the inverse links.
- Compliance decisions themselves (recording, revoking, lapsing): a decision appears as the sync operation it enqueues, whose contract and account are fixed then.
- The counters of the two sweeps and the limits of their queries: each row they visit is one worker.
- Roles, organisations, request validation, HTTP, configuration and container wiring: no hard property.
- JSON members that are undefined: excluded by the type of values; numbers are integers.
