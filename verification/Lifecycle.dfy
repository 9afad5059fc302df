/** The transaction lifecycle as a step system: the executor, the recovery sweep and the replacement sweep of any
    number of workers, the signer, the node, the chain and the requests that create operations. Every database
    transaction, RPC call and signer call is one step of one actor; between any two of its steps anything else may
    happen, and an actor may vanish at any point. */
module Lifecycle {
  import opened CanonicalJson
  import opened SignedTransaction
  import opened MintProposal
  import opened Ledger
  import opened Tables
  import Fee = TransactionIntent
  import M = OperationMachine
  import Token

  /** `base` is the signer's account nonce before the application sent anything. */
  datatype Env = Env(c: Config, base: nat, contracts: map<Address, Contract>)

  datatype Answer = SignatureOf(tx: SignedTx, claimed: Hash) | Refused

  /** `known` has the bytes a node took, `exposed` all bytes handed to a node that did not refuse them outright,
      `decided` the signer's settled answer per attempt. The first `final` blocks are never reorganised away. */
  datatype Net = Net(chain: seq<Block>, final: nat, known: set<SignedTx>, exposed: set<SignedTx>, decided: map<nat, Answer>)

  datatype Verdict = WasReverted | WasFinal(position: nat)

  /** Where a worker's code is and what it carries from what it has read. */
  datatype Actor =
    | Done
    // execute
    | Claimed(op: nat)
    | Built(op: nat, purpose: Purpose, to: Option<Address>, data: Data, gas: nat, fees: Fee.Fees, chainNonce: nat)
    | Erring(op: nat)
    // chain writer
    | Requesting(attempt: nat, h: Hooks)
    | Answered(attempt: nat, h: Hooks, decision: Option<Answer>)
    | Settling(attempt: nat, h: Hooks, answer: Answer)
    | Failing(attempt: nat, h: Hooks, rethrow: bool)
    | Persisted(attempt: nat, h: Hooks, tx: SignedTx)
    | Allowed(attempt: nat, h: Hooks, tx: SignedTx)
    | Sending(attempt: nat, h: Hooks, tx: SignedTx)
    | Checked(attempt: nat, h: Hooks, tx: SignedTx)
    | Sent(attempt: nat, h: Hooks, tx: SignedTx, result: SendResult)
    | Resuming(attempt: nat, h: Hooks)
    | Expiring(attempt: nat, h: Hooks)
    | Fetching(attempt: nat, h: Hooks)
    // observeAndFinalize
    | Observing(op: nat, attempt: nat, tx: SignedTx)
    | Awaiting(op: nat, attempt: nat, tx: SignedTx)
    | Including(op: nat, attempt: nat, tx: SignedTx, ok: bool, block: BlockRef, next: Option<Verdict>)
    | Orphaning(op: nat, attempt: nat)
    | Reconciling(op: nat, attempt: nat, tx: SignedTx, verdict: Verdict)
    | Judged(op: nat, attempt: nat, target: M.OpState)
    // recovery sweep
    | RecoverSigning(op: nat)
    | RecoverRequest(op: nat, attempt: nat)
    | RecoverUnsent(op: nat)
    | Abandoning(op: nat, latest: Option<nat>)
    | ResolveInFlight(op: nat)
    | LookingUp(op: nat, attempt: nat, tx: SignedTx)
    | Advancing(op: nat)
    | Finalizing(op: nat)
    | Rebroadcasting(op: nat, attempt: nat, tx: SignedTx)
    // replacement sweep
    | Stuck(attempt: nat)
    | StuckOperation(attempt: nat)
    | Replacing(attempt: nat)
    | LaneRead(reserved: nat)
    | LaneAt(nonce: nat)
    | Cancelling(attempt: nat)
    | ConfirmingRecovery(attempt: nat, tx: SignedTx)

  datatype State = State(db: Db, net: Net, actors: seq<Actor>)

  function Init(): State { State(Db([], [], None, map[], []), Net([], 0, {}, {}, map[]), []) }

  /** The current asset and wallet rows a handler reads. */
  datatype Rows = Rows(contract: Address, chainId: nat, policyVersion: nat, recipient: Address)

  datatype Confirmation =
    | NotSeen
    | SeenOrphaned
    | SeenIncluded(ok: bool, block: BlockRef)
    | SeenReverted(block: BlockRef, position: nat)
    | SeenFinal(block: BlockRef, position: nat)

  /** Everything outside the application that decides how one step goes. `fail` is a thrown error. */
  datatype Choice = Choice(
    fail: bool, rows: Rows, deadline: nat, init: Text, gas: nat, maxFee: Option<nat>, priority: Option<nat>,
    answer: Option<Answer>, lapsed: bool, eligible: bool, send: SendResult, taken: bool, found: bool,
    seen: Confirmation, consistent: bool)

  datatype Label =
    | BeginExecute(op: nat)
    | BeginRecovery(op: nat, read: M.OpState)
    | BeginReplacement(attempt: nat)
    | BeginLane
    | Act(actor: nat, ch: Choice)
    | Crash(actor: nat)
    | RequestMint(snapshot: Snapshot, amount: nat)
    | RequestDeploy(asset: Text)
    | Approve(op: nat)
    | Reject(op: nat)
    | EnqueueSync(asset: Text, wallet: Text, contract: Address, account: Address, until: nat)
    | Mine(block: Block)
    | Reorg(keep: nat)
    | Finalize(count: nat)

  // ---------- reads of the chain ----------

  function AccountNonce(env: Env, net: Net): nat { env.base + |OursOf(Flat(net.chain))| }

  function FinalEntries(net: Net): seq<Entry>
    requires net.final <= |net.chain|
  {
    Flat(net.chain[..net.final])
  }

  /** The receipt status of an entry. */
  predicate ReceiptOk(env: Env, flat: seq<Entry>, p: nat, tx: SignedTx)
    requires p < |flat|
  {
    tx.to.Some? && tx.to.value in env.contracts ==> Succeeds(flat, p, tx.to.value, env.contracts[tx.to.value])
  }

  predicate InFinalPrefix(env: Env, net: Net, tx: SignedTx, p: nat) {
    && net.final <= |net.chain| && p < |FinalEntries(net)|
    && FinalEntries(net)[p].tx == Ours(tx) && ReceiptOk(env, FinalEntries(net), p, tx)
  }

  /** What a confirmation outcome proves, each poll reading one state of the chain: a receipt was seen for bytes a
      node once took, and a settled one is in the chain as it stands. */
  predicate Confirms(env: Env, net: Net, tx: SignedTx, seen: Confirmation) {
    && !seen.NotSeen? && tx in net.known
    && (seen.SeenReverted? ==>
          var flat := Flat(net.chain);
          seen.position < |flat| && flat[seen.position].tx == Ours(tx) && !ReceiptOk(env, flat, seen.position, tx))
    && (seen.SeenFinal? ==> InFinalPrefix(env, net, tx, seen.position))
  }

  /** The MintExecuted event of this receipt, as reconcileMint compares it. */
  predicate MintEventOk(env: Env, tx: SignedTx, amount: nat, reference: Text, rows: Rows) {
    && tx.to == Some(Lower(rows.contract)) && tx.to.value in env.contracts
    && tx.data.Invoke? && tx.data.call.MintWithReference?
    && tx.data.call.reference == Lower(reference)
    && tx.data.call.recipient == Lower(rows.recipient)
    && tx.data.call.amount == amount
  }

  // ---------- handlers ----------

  /** The proposal as the operation's columns and the current rows have it (rebuildMintProposal). */
  function Rebuilt(s: Snapshot, amount: nat, reference: Text, rows: Rows): Snapshot {
    s.(chainId := rows.chainId, contractAddress := rows.contract, recipientAddress := rows.recipient,
       policyVersion := rows.policyVersion, amount := Decimal(amount), operationReference := reference)
  }

  /** The row requestMint inserts: the proposal has the amount as text. */
  function Mint(s: Snapshot, amount: nat): Kind { MintOp(s.(amount := Decimal(amount)), amount, s.operationReference) }

  datatype PreparedWrite = PreparedWrite(purpose: Purpose, to: Option<Address>, data: Data)

  /** handler.prepare: a mint is built only while its proposal still hashes to what was approved. */
  ghost function Prepare(k: Kind, ch: Choice): Option<PreparedWrite> {
    match k
    case MintOp(s, amount, reference) =>
      if HashMintProposal(Rebuilt(s, amount, reference, ch.rows)) != HashMintProposal(s) then None
      else Some(PreparedWrite(MintTokens, Some(Lower(ch.rows.contract)),
                         Invoke(Token.MintWithReference(Lower(ch.rows.recipient), amount, Lower(reference), ch.deadline))))
    case DeployOp(_) => Some(PreparedWrite(DeployToken, None, Create(ch.init)))
    case SyncOp(_, _, contract, account, until) =>
      Some(PreparedWrite(SetEligibility, Some(contract), Invoke(Token.SetEligibility(account, until))))
  }

  /** assertBroadcastAllowed: not cancelled, and for a mint still eligible. */
  predicate BroadcastAllowed(db: Db, h: Hooks, ch: Choice) {
    h.NoHooks? || (
      && h.op < |db.ops| && !db.ops[h.op].state.Cancelled?
      && (db.ops[h.op].kind.MintOp? ==> ch.eligible))
  }

  function Throw(h: Hooks): Actor { if h.Operation? && h.caught then Erring(h.op) else Done }

  function Estimate(ch: Choice): Fee.Fees { Fee.FeeEstimate(ch.maxFee, ch.priority) }

  // ---------- one step of one actor ----------

  type Outcome = (Db, Net, Actor)

  function Commit(db: Db, net: Net, r: Option<Db>, committed: Actor, thrown: Actor): Outcome {
    match r case Some(d) => (d, net, committed) case None => (db, net, thrown)
  }

  /** The signer's answer: idempotent per attempt, so once settled it never changes. */
  function Ask(net: Net, i: nat, ch: Choice): (Net, Option<Answer>) {
    if i in net.decided then (net, Some(net.decided[i]))
    else if ch.answer.None? then (net, None)
    else (net.(decided := net.decided[i := ch.answer.value]), ch.answer)
  }

  ghost function ExecuteStep(env: Env, db: Db, net: Net, a: Actor, ch: Choice): Outcome
    requires a.Claimed? || a.Built? || a.Erring?
  {
    match a
    case Claimed(o) =>
      if o >= |db.ops| || ch.fail then (db, net, Erring(o)) else
        var p := Prepare(db.ops[o].kind, ch);
        if p.None? then (db, net, Erring(o))
        else (db, net, Built(o, p.value.purpose, p.value.to, p.value.data, ch.gas, Estimate(ch), AccountNonce(env, net)))
    case Built(o, purpose, to, data, gas, fees, chainNonce) =>
      Commit(db, net, PrepareTx(env.c, db, o, purpose, to, data, gas, fees, chainNonce),
             Requesting(|db.attempts|, Operation(o, true)), Erring(o))
    case Erring(o) => Commit(db, net, FailOperationTx(db, o), Done, Done)
  }

  function SignStep(db: Db, net: Net, a: Actor, ch: Choice): Outcome
    requires a.Requesting? || a.Answered? || a.Settling? || a.Failing? || a.Resuming? || a.Expiring? || a.Fetching?
  {
    match a
    case Requesting(i, h) =>
      if ch.fail then (db, net, Throw(h)) else
        var (n, answer) := Ask(net, i, ch);
        (db, n, Answered(i, h, answer))
    case Answered(i, h, None) => (RequestTx(db, i, Pending), net, Done)
    case Answered(i, h, Some(answer)) =>
      (RequestTx(db, i, if answer.Refused? then Rejected else SignatureGiven), net, Settling(i, h, answer))
    case Settling(i, h, Refused) => (RequestTx(db, i, Rejected), net, Failing(i, h, false))
    case Settling(i, h, SignatureOf(tx, claimed)) =>
      if i >= |db.attempts| then (db, net, Throw(h)) else
        var r := db.attempts[i].core.request;
        if VerifySigned(tx, r, r.from, claimed).Some? then (db, net, Failing(i, h, true))
        else Commit(db, net, PersistTx(db, i, tx, h), Persisted(i, h, tx), Throw(h))
    case Failing(i, h, rethrow) => Commit(db, net, FailAttemptTx(db, i, h), if rethrow then Throw(h) else Done, Throw(h))
    case Resuming(i, h) =>
      if i in db.requests && db.requests[i].Pending? then (db, net, Expiring(i, h)) else (db, net, Done)
    case Expiring(i, h) =>
      if ch.lapsed && i in db.requests && db.requests[i].Pending? then (ExpireTx(db, i), net, Failing(i, h, false))
      else (db, net, Fetching(i, h))
    case Fetching(i, h) =>
      if ch.fail then (db, net, Throw(h)) else
        var (n, answer) := Ask(net, i, ch);
        (db, n, if answer.None? then Done else Settling(i, h, answer.value))
  }

  /** What happens after a transaction was reported submitted. */
  function AfterSubmit(i: nat, h: Hooks, tx: SignedTx): Actor {
    match h
    case Operation(o, _) => Observing(o, i, tx)
    case Replacement(o) => Observing(o, i, tx)
    case Recovery(_) => Done
    case NoHooks(confirm) => if confirm then ConfirmingRecovery(i, tx) else Done
  }

  function SendStep(db: Db, net: Net, a: Actor, ch: Choice): Outcome
    requires a.Persisted? || a.Allowed? || a.Sending? || a.Checked? || a.Sent?
  {
    match a
    case Persisted(i, h, tx) => (db, net, if BroadcastAllowed(db, h, ch) then Allowed(i, h, tx) else Failing(i, h, false))
    case Allowed(i, h, tx) => Commit(db, net, BroadcastingTx(db, i, h), Sending(i, h, tx), Throw(h))
    case Sending(i, h, tx) =>
      if i >= |db.attempts| || db.attempts[i].status.Replaced? then (db, net, Done) else (db, net, Checked(i, h, tx))
    case Checked(i, h, tx) =>
      var taken := ch.send.Accepted? || (ch.send.Ambiguous? && ch.taken);
      var n := net.(known := if taken then net.known + {tx} else net.known,
                    exposed := if ch.send.DeterministicRejection? then net.exposed else net.exposed + {tx});
      (db, n, Sent(i, h, tx, ch.send))
    case Sent(i, h, tx, r) =>
      Commit(db, net, OutcomeTx(db, i, h, r), if r.Accepted? then AfterSubmit(i, h, tx) else Done, Throw(h))
  }

  function ObserveStep(env: Env, db: Db, net: Net, a: Actor, ch: Choice): Outcome
    requires a.Observing? || a.Awaiting? || a.Including? || a.Orphaning? || a.Reconciling? || a.Judged?
  {
    match a
    case Observing(o, i, tx) =>
      if o >= |db.ops| || M.Terminal(db.ops[o].state) then (db, net, Done) else (db, net, Awaiting(o, i, tx))
    case Awaiting(o, i, tx) =>
      if ch.fail || !Confirms(env, net, tx, ch.seen) then (db, net, Done) else
        (match ch.seen
         case NotSeen => (db, net, Done)
         case SeenOrphaned => (db, net, Orphaning(o, i))
         case SeenIncluded(ok, block) => (db, net, Including(o, i, tx, ok, block, None))
         case SeenReverted(block, _) => (db, net, Including(o, i, tx, false, block, Some(WasReverted)))
         case SeenFinal(block, p) => (db, net, Including(o, i, tx, true, block, Some(WasFinal(p)))))
    case Including(o, i, tx, ok, block, next) =>
      Commit(db, net, IncludeTx(db, o, i, ok, block), if next.None? then Done else Reconciling(o, i, tx, next.value), Done)
    case Orphaning(o, i) => Commit(db, net, ReorgTx(db, o, i), Done, Done)
    case Reconciling(o, i, tx, verdict) =>
      if ch.fail || o >= |db.ops| then (db, net, Done)
      else if verdict.WasReverted? then (db, net, Judged(o, i, M.Reverted))
      else
        var k := db.ops[o].kind;
        var consistent := ch.consistent && (k.MintOp? ==> MintEventOk(env, tx, k.amount, k.reference, ch.rows));
        (db, net, if consistent then Judged(o, i, M.Succeeded) else Done)
    case Judged(o, i, to) => Commit(db, net, SettleTx(db, o, i, to), Done, Done)
  }

  function RecoverStep(db: Db, net: Net, a: Actor, ch: Choice): Outcome
    requires a.RecoverSigning? || a.RecoverRequest? || a.RecoverUnsent? || a.Abandoning? || a.ResolveInFlight? ||
             a.LookingUp? || a.Advancing? || a.Finalizing? || a.Rebroadcasting?
  {
    match a
    case RecoverSigning(o) =>
      var latest := Latest(db, o);
      if latest.None? || db.attempts[latest.value].bytes.Some? then (db, net, RecoverUnsent(o))
      else (db, net, RecoverRequest(o, latest.value))
    case RecoverRequest(o, i) =>
      if i in db.requests && db.requests[i].Pending? then (db, net, Resuming(i, Operation(o, false)))
      else (db, net, RecoverUnsent(o))
    case RecoverUnsent(o) =>
      var latest := Latest(db, o);
      if latest.Some? && db.attempts[latest.value].bytes.Some? then (db, net, ResolveInFlight(o))
      else (db, net, Abandoning(o, latest))
    case Abandoning(o, latest) => Commit(db, net, AbandonTx(db, o, latest), Done, Done)
    case ResolveInFlight(o) =>
      var latest := Latest(db, o);
      if latest.None? || db.attempts[latest.value].bytes.None? then (db, net, RecoverUnsent(o))
      else if db.attempts[latest.value].status.Replaced? then (db, net, Done)
      else (db, net, LookingUp(o, latest.value, db.attempts[latest.value].bytes.value))
    case LookingUp(o, i, tx) =>
      if ch.fail then (db, net, Done)
      else if ch.found && tx in OursOf(Flat(net.chain)) then (db, net, Advancing(o))
      else (db, net, Rebroadcasting(o, i, tx))
    case Advancing(o) => Commit(db, net, AdvanceTx(db, o), Finalizing(o), Done)
    case Finalizing(o) =>
      var latest := Latest(db, o);
      if latest.None? || db.attempts[latest.value].bytes.None? then (db, net, Done)
      else (db, net, Observing(o, latest.value, db.attempts[latest.value].bytes.value))
    case Rebroadcasting(o, i, tx) => Commit(db, net, RebroadcastTx(db, o, i), Sending(i, Recovery(o), tx), Done)
  }

  function ReplaceStep(env: Env, db: Db, net: Net, a: Actor, ch: Choice): Outcome
    requires a.Stuck? || a.StuckOperation? || a.Replacing? || a.LaneRead? || a.LaneAt? || a.Cancelling? ||
             a.ConfirmingRecovery?
  {
    match a
    case Stuck(i) => (db, net, if ch.fail || ch.found then Done else StuckOperation(i))
    case StuckOperation(i) =>
      if i >= |db.attempts| then (db, net, Done) else
        var o := db.attempts[i].core.op;
        if o.Some? && (o.value >= |db.ops| || M.Terminal(db.ops[o.value].state)) then (db, net, Done)
        else (db, net, Replacing(i))
    case Replacing(i) =>
      if i >= |db.attempts| || db.attempts[i].core.number >= env.c.maxReplacements then (db, net, Done) else
        var p := db.attempts[i].core;
        var fees := Fee.BumpFees(Fee.Fees(p.request.maxFee, p.request.priority), Estimate(ch), env.c.bump);
        Commit(db, net, ReplaceTx(db, i, FeeReplacement(i, p, fees)),
               Requesting(|db.attempts|, if p.op.Some? then Replacement(p.op.value) else NoHooks(false)), Done)
    case LaneRead(reserved) =>
      if ch.fail || AccountNonce(env, net) >= reserved then (db, net, Done) else (db, net, LaneAt(AccountNonce(env, net)))
    case LaneAt(n) =>
      var blocking := LiveBelow(db.attempts, n, |db.attempts|);
      if blocking.None? then (db, net, Done) else
        var b := db.attempts[blocking.value];
        if b.core.purpose.NonceRecovery? then
          if b.status.Failed? then (db, net, Done)
          else if b.bytes.None? then (db, net, Resuming(blocking.value, NoHooks(true)))
          else (db, net, Sending(blocking.value, NoHooks(true), b.bytes.value))
        else if b.status.Failed? && b.block.None? then (db, net, Cancelling(blocking.value))
        else (db, net, Done)
    case Cancelling(i) =>
      if i >= |db.attempts| || ch.fail then (db, net, Done) else
        var p := db.attempts[i].core;
        var fees := Fee.BumpFees(Fee.Fees(p.request.maxFee, p.request.priority), Estimate(ch), env.c.bump);
        Commit(db, net, ReplaceTx(db, i, Cancellation(env.c, i, p, fees)), Requesting(|db.attempts|, NoHooks(true)), Done)
    case ConfirmingRecovery(i, tx) =>
      if ch.fail || !Confirms(env, net, tx, ch.seen) then (db, net, Done) else
        (match ch.seen
         case SeenIncluded(ok, block) => Commit(db, net, ConfirmRecoveryTx(db, i, ok, block, false), Done, Done)
         case SeenReverted(block, _) => Commit(db, net, ConfirmRecoveryTx(db, i, false, block, false), Done, Done)
         case SeenFinal(block, _) => Commit(db, net, ConfirmRecoveryTx(db, i, true, block, true), Done, Done)
         case _ => (db, net, Done))
  }

  ghost function ActorStep(env: Env, db: Db, net: Net, a: Actor, ch: Choice): Outcome {
    if a.Done? then (db, net, Done)
    else if a.Claimed? || a.Built? || a.Erring? then ExecuteStep(env, db, net, a, ch)
    else if a.Requesting? || a.Answered? || a.Settling? || a.Failing? || a.Resuming? || a.Expiring? || a.Fetching?
    then SignStep(db, net, a, ch)
    else if a.Persisted? || a.Allowed? || a.Sending? || a.Checked? || a.Sent? then SendStep(db, net, a, ch)
    else if a.Observing? || a.Awaiting? || a.Including? || a.Orphaning? || a.Reconciling? || a.Judged?
    then ObserveStep(env, db, net, a, ch)
    else if a.Stuck? || a.StuckOperation? || a.Replacing? || a.LaneRead? || a.LaneAt? || a.Cancelling? ||
            a.ConfirmingRecovery?
    then ReplaceStep(env, db, net, a, ch)
    else RecoverStep(db, net, a, ch)
  }

  // ---------- one step of the system ----------

  function Spawn(s: State, a: Actor): State { s.(actors := s.actors + [a]) }

  /** Where recoverOne goes for the state it read. */
  function RecoveryEntry(o: nat, read: M.OpState): Actor {
    match read
    case Signing => RecoverSigning(o)
    case Preparing => RecoverUnsent(o)
    case Signed => ResolveInFlight(o)
    case Broadcasting => ResolveInFlight(o)
    case BroadcastUnknown => ResolveInFlight(o)
    case Submitted => Finalizing(o)
    case Included => Finalizing(o)
    case _ => Done
  }

  /** findStuckAttempts, whose window is left to chance. */
  predicate IsStuck(env: Env, a: Attempt) {
    && (a.status.Submitted? || a.status.Broadcasting? || a.status.BroadcastUnknown?)
    && a.block.None? && a.core.number < env.c.maxReplacements
  }

  /** A block extends the chain by transactions a node has, each at its sender's account nonce. */
  predicate CanMine(env: Env, net: Net, block: Block) {
    var ours := OursOf(Flat(net.chain + [block]));
    forall k: nat | |OursOf(Flat(net.chain))| <= k < |ours| :: ours[k] in net.known && ours[k].nonce == env.base + k
  }

  function Apply(s: State, r: Option<Db>): State { if r.Some? then s.(db := r.value) else s }

  /** A label that does not apply changes nothing. */
  ghost function Step(env: Env, s: State, l: Label): State {
    match l
    case BeginExecute(o) =>
      if o < |s.db.ops| && s.db.ops[o].state.Ready? then Spawn(Apply(s, Move(s.db, o, M.Preparing)), Claimed(o)) else s
    case BeginRecovery(o, read) => Spawn(s, RecoveryEntry(o, read))
    case BeginReplacement(i) =>
      if i < |s.db.attempts| && IsStuck(env, s.db.attempts[i]) then Spawn(s, Stuck(i)) else s
    case BeginLane => if s.db.lane.Some? then Spawn(s, LaneRead(s.db.lane.value)) else s
    case Act(k, ch) =>
      if k >= |s.actors| then s else
        var (d, n, a) := ActorStep(env, s.db, s.net, s.actors[k], ch);
        State(d, n, s.actors[k := a])
    case Crash(k) => if k >= |s.actors| then s else s.(actors := s.actors[k := Done])
    case RequestMint(snapshot, amount) => Apply(s, InsertOp(s.db, Mint(snapshot, amount), M.PendingApproval))
    case RequestDeploy(asset) => Apply(s, InsertOp(s.db, DeployOp(asset), M.Ready))
    case Approve(o) => Apply(s, MoveIf(s.db, o, {M.PendingApproval}, M.Ready))
    case Reject(o) => Apply(s, MoveIf(s.db, o, {M.PendingApproval}, M.Cancelled))
    case EnqueueSync(asset, wallet, contract, account, until) =>
      Apply(s, EnqueueSyncTx(s.db, SyncOp(asset, wallet, contract, account, until)))
    case Mine(block) =>
      if CanMine(env, s.net, block) then s.(net := s.net.(chain := s.net.chain + [block])) else s
    case Reorg(keep) =>
      if s.net.final <= keep <= |s.net.chain| then s.(net := s.net.(chain := s.net.chain[..keep])) else s
    case Finalize(count) =>
      if s.net.final <= count <= |s.net.chain| then s.(net := s.net.(final := count)) else s
  }

  ghost function Run(env: Env, labels: seq<Label>): State {
    if labels == [] then Init() else Step(env, Run(env, labels[..|labels| - 1]), labels[|labels| - 1])
  }
}
