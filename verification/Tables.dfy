/** The PostgreSQL tables of the transaction lifecycle and the transactions the services run on them.
    A statement or transaction that breaks a table constraint or throws has no result: nothing is committed.
    Row ids are positions, so rows of one table are in creation order. */
module Tables {
  import opened CanonicalJson
  import opened SignedTransaction
  import opened MintProposal
  import Fee = TransactionIntent
  import M = OperationMachine

  datatype Config = Config(chainId: nat, signer: Address, maxReplacements: nat, bump: nat)

  datatype Purpose = DeployToken | SetEligibility | MintTokens | NonceRecovery

  datatype Status =
    | Prepared | Signed | Broadcasting | BroadcastUnknown | Submitted | Included | Confirmed | Reverted | Failed | Replaced

  /** What insertPreparedAttempt writes; no statement changes it afterwards. */
  datatype Core = Core(op: Option<nat>, purpose: Purpose, request: Request, supersedes: Option<nat>, number: nat)

  datatype BlockRef = BlockRef(number: nat, id: nat)

  datatype Attempt = Attempt(
    core: Core, bytes: Option<SignedTx>, status: Status, block: Option<BlockRef>, replacedBy: Option<nat>, sends: nat)

  /** The columns that fix what an operation is for. Of a mint, `snapshot` is the approved proposal whose hash the row
      keeps, `amount` and `reference` are the columns execution reads. */
  datatype Kind =
    | MintOp(snapshot: Snapshot, amount: nat, reference: Text)
    | DeployOp(asset: Text)
    | SyncOp(asset: Text, wallet: Text, contract: Address, account: Address, until: nat)

  datatype Op = Op(kind: Kind, state: M.OpState, log: seq<M.OpState>)

  datatype RequestStatus = Pending | SignatureGiven | Rejected | Expired

  datatype Observation = Observation(attempt: Option<nat>, canonical: bool, matched: bool)

  datatype Db = Db(
    ops: seq<Op>, attempts: seq<Attempt>, lane: Option<nat>, requests: map<nat, RequestStatus>,
    observations: seq<Observation>)

  // ---------- table constraints ----------

  /** transaction_attempts CHECK constraints. */
  predicate RowChecks(rows: seq<Attempt>, i: nat)
    requires i < |rows|
  {
    var a := rows[i];
    && (a.status.Prepared? || a.status.Failed? || a.bytes.Some?)
    && (a.core.supersedes.None? <==> a.core.number == 0)
    && a.core.supersedes != Some(i) && a.replacedBy != Some(i)
    && (a.core.purpose.DeployToken? <==> a.core.request.to.None?)
    && a.core.request.value == 0
  }

  predicate Holds(rows: seq<Attempt>, i: nat, nonce: nat) {
    i < |rows| && rows[i].core.request.nonce == nonce && !rows[i].status.Replaced?
  }

  /** transaction_attempts_live_nonce_key: among rows not REPLACED a nonce occurs once. */
  predicate LiveUnique(rows: seq<Attempt>) {
    forall i: nat, j: nat | i < j < |rows| && rows[i].core.request.nonce == rows[j].core.request.nonce ::
      rows[i].status.Replaced? || rows[j].status.Replaced?
  }

  /** transaction_attempts_hash_key. */
  predicate HashUnique(rows: seq<Attempt>) {
    forall i: nat, j: nat | i < j < |rows| && rows[i].bytes.Some? :: rows[i].bytes != rows[j].bytes
  }

  predicate AttemptsOk(rows: seq<Attempt>) {
    && (forall i: nat | i < |rows| :: RowChecks(rows, i))
    && LiveUnique(rows)
    && HashUnique(rows)
  }

  predicate SamePair(k: Kind, l: Kind) { k.SyncOp? && l.SyncOp? && k.asset == l.asset && k.wallet == l.wallet }

  /** operations_one_live_eligibility_sync. */
  predicate OneLiveSync(ops: seq<Op>) {
    forall i: nat, j: nat | i < j < |ops| && SamePair(ops[i].kind, ops[j].kind) ::
      M.Terminal(ops[i].state) || M.Terminal(ops[j].state)
  }

  // ---------- statements ----------

  /** UPDATE of one attempt row. */
  function Put(db: Db, i: nat, a: Attempt): Option<Db> {
    if i >= |db.attempts| then Some(db)
    else if AttemptsOk(db.attempts[i := a]) then Some(db.(attempts := db.attempts[i := a]))
    else None
  }

  function SetStatus(db: Db, i: nat, status: Status): Option<Db> {
    if i >= |db.attempts| then Some(db) else Put(db, i, db.attempts[i].(status := status))
  }

  function SetBroadcasting(db: Db, i: nat): Option<Db> {
    if i >= |db.attempts| then Some(db)
    else Put(db, i, db.attempts[i].(status := Broadcasting, sends := db.attempts[i].sends + 1))
  }

  function PersistSigned(db: Db, i: nat, bytes: SignedTx): Option<Db> {
    if i >= |db.attempts| then Some(db) else Put(db, i, db.attempts[i].(bytes := Some(bytes), status := Signed))
  }

  function RecordReceipt(db: Db, i: nat, ok: bool, block: BlockRef): Option<Db> {
    if i >= |db.attempts| || db.attempts[i].status.Confirmed? || db.attempts[i].status.Reverted? then Some(db)
    else Put(db, i, db.attempts[i].(status := if ok then Included else Reverted, block := Some(block)))
  }

  function ClearInclusion(db: Db, i: nat): Option<Db> {
    if i >= |db.attempts| then Some(db) else Put(db, i, db.attempts[i].(status := Submitted, block := None))
  }

  function Fresh(core: Core): Attempt { Attempt(core, None, Prepared, None, None, 0) }

  function InsertAttempt(db: Db, core: Core): Option<Db> {
    if AttemptsOk(db.attempts + [Fresh(core)]) then Some(db.(attempts := db.attempts + [Fresh(core)])) else None
  }

  /** reserveNonce: the lane row is created from the chain's count when missing; a chain ahead of it halts. */
  function ReserveNonce(db: Db, chainNonce: nat): Option<(Db, nat)> {
    var next := if db.lane.Some? then db.lane.value else chainNonce;
    if chainNonce > next then None else Some((db.(lane := Some(next + 1)), next))
  }

  /** transitionOperation on a record read in state `from`, however long ago. */
  function Transition(db: Db, o: nat, from: M.OpState, to: M.OpState): Option<Db> {
    if o < |db.ops| && M.CanTransition(from, to) && db.ops[o].state == from
    then Some(db.(ops := db.ops[o := db.ops[o].(state := to, log := db.ops[o].log + [to])]))
    else None
  }

  /** lockOperation, then transitionOperation on the locked row. */
  function Move(db: Db, o: nat, to: M.OpState): Option<Db> {
    if o < |db.ops| then Transition(db, o, db.ops[o].state, to) else None
  }

  function MoveIf(db: Db, o: nat, from: set<M.OpState>, to: M.OpState): Option<Db> {
    if o < |db.ops| && db.ops[o].state in from then Move(db, o, to) else Some(db)
  }

  /** replacementHooks.advance: only when the table has the edge. */
  function Advance(db: Db, o: nat, to: M.OpState): Option<Db> {
    if o < |db.ops| && M.CanTransition(db.ops[o].state, to) then Move(db, o, to) else Some(db)
  }

  function Observe(db: Db, obs: Observation): Db { db.(observations := db.observations + [obs]) }

  function Invalidated(obs: seq<Observation>, i: nat): seq<Observation> {
    seq(|obs|, k requires 0 <= k < |obs| => if obs[k].attempt == Some(i) then obs[k].(canonical := false) else obs[k])
  }

  // ---------- queries ----------

  function LatestBelow(rows: seq<Attempt>, o: nat, n: nat): (r: Option<nat>)
    requires n <= |rows|
    ensures r.Some? ==> r.value < n && rows[r.value].core.op == Some(o)
  {
    if n == 0 then None else if rows[n - 1].core.op == Some(o) then Some(n - 1) else LatestBelow(rows, o, n - 1)
  }

  /** The operation's attempt that was created last. */
  predicate IsLatest(rows: seq<Attempt>, o: nat, i: nat) {
    && i < |rows| && rows[i].core.op == Some(o)
    && forall j: nat | i < j < |rows| :: rows[j].core.op != Some(o)
  }

  /** findLatestAttemptForOperation: see Commits.LatestExactly. */
  function Latest(db: Db, o: nat): (r: Option<nat>)
    ensures r.Some? ==> r.value < |db.attempts| && db.attempts[r.value].core.op == Some(o)
  {
    LatestBelow(db.attempts, o, |db.attempts|)
  }

  function LiveSyncBelow(ops: seq<Op>, k: Kind, n: nat): (r: Option<nat>)
    requires n <= |ops|
    ensures r.Some? ==> r.value < n && SamePair(ops[r.value].kind, k) && !M.Terminal(ops[r.value].state)
    ensures r.None? ==> forall i: nat | i < n :: SamePair(ops[i].kind, k) ==> M.Terminal(ops[i].state)
  {
    if n == 0 then None
    else if SamePair(ops[n - 1].kind, k) && !M.Terminal(ops[n - 1].state) then Some(n - 1)
    else LiveSyncBelow(ops, k, n - 1)
  }

  /** findLiveAttemptAtNonce. */
  function LiveBelow(rows: seq<Attempt>, nonce: nat, n: nat): (r: Option<nat>)
    requires n <= |rows|
    ensures r.Some? ==> Holds(rows, r.value, nonce)
    ensures r.None? ==> forall i: nat | i < n :: !Holds(rows, i, nonce)
  {
    if n == 0 then None else if Holds(rows, n - 1, nonce) then Some(n - 1) else LiveBelow(rows, nonce, n - 1)
  }

  // ---------- transactions ----------

  /** Which hooks a chain write runs with, and whether an exception reaches the executor's handler. */
  datatype Hooks =
    | Operation(op: nat, caught: bool)
    | Replacement(op: nat)
    | Recovery(op: nat)
    | NoHooks(confirm: bool)

  /** The transaction that reserves the nonce and records the first attempt of an operation. */
  function PrepareTx(c: Config, db: Db, o: nat, purpose: Purpose, to: Option<Address>, data: Data, gas: nat,
                     fees: Fee.Fees, chainNonce: nat): Option<Db>
  {
    var (d, nonce) :- ReserveNonce(db, chainNonce);
    var request := Request(c.chainId, c.signer, to, nonce, 0, data, gas, fees.maxFee, fees.priority);
    var e :- InsertAttempt(d, Core(Some(o), purpose, request, None, 0));
    Move(e, o, M.Signing)
  }

  /** Retire, insert and link: the transaction of signReplacement. */
  function ReplaceTx(db: Db, previous: nat, core: Core): Option<Db> {
    if previous >= |db.attempts| || db.attempts[previous].status.Replaced? then None else
      var retired := db.attempts[previous].(status := Replaced, replacedBy := Some(|db.attempts|));
      var rows := db.attempts[previous := retired] + [Fresh(core)];
      if AttemptsOk(rows) then Some(db.(attempts := rows)) else None
  }

  /** replaceFees copies everything but the fees from the stuck row. */
  function FeeReplacement(previous: nat, p: Core, fees: Fee.Fees): Core {
    Core(p.op, p.purpose, p.request.(maxFee := fees.maxFee, priority := fees.priority), Some(previous), p.number + 1)
  }

  /** cancelNonce: an empty self-transfer at exactly the blocked nonce. */
  function Cancellation(c: Config, previous: nat, p: Core, fees: Fee.Fees): Core {
    Core(None, NonceRecovery,
         Request(p.request.chainId, c.signer, Some(c.signer), p.request.nonce, 0, Empty, 30_000, fees.maxFee, fees.priority),
         Some(previous), p.number + 1)
  }

  function RequestTx(db: Db, i: nat, status: RequestStatus): Db { db.(requests := db.requests[i := status]) }

  function ExpireTx(db: Db, i: nat): Db {
    if i in db.requests && db.requests[i].Pending? then RequestTx(db, i, Expired) else db
  }

  function FailAttemptTx(db: Db, i: nat, h: Hooks): Option<Db> {
    var d :- SetStatus(db, i, Failed);
    if h.Operation? then Move(d, h.op, M.Failed) else Some(d)
  }

  function PersistTx(db: Db, i: nat, bytes: SignedTx, h: Hooks): Option<Db> {
    var d :- PersistSigned(db, i, bytes);
    var e := RequestTx(d, i, SignatureGiven);
    if h.Operation? then Move(e, h.op, M.Signed) else Some(e)
  }

  function BroadcastingTx(db: Db, i: nat, h: Hooks): Option<Db> {
    var d :- SetBroadcasting(db, i);
    if h.Operation? then Move(d, h.op, M.Broadcasting) else Some(d)
  }

  /** What the node answered; an already known transaction counts as accepted. */
  datatype SendResult = Accepted | DeterministicRejection | Ambiguous

  function OutcomeTx(db: Db, i: nat, h: Hooks, r: SendResult): Option<Db> {
    match r
    case Accepted =>
      var d :- SetStatus(db, i, Submitted);
      (match h
       case Operation(o, _) => Move(d, o, M.Submitted)
       case Replacement(o) => Advance(d, o, M.Submitted)
       case Recovery(o) => MoveIf(d, o, {M.Broadcasting}, M.Submitted)
       case NoHooks(_) => Some(d))
    case DeterministicRejection =>
      var d :- SetStatus(db, i, Failed);
      if h.Operation? then Move(d, h.op, M.Failed) else Some(d)
    case Ambiguous =>
      var d :- SetStatus(db, i, BroadcastUnknown);
      (match h
       case Operation(o, _) => Move(d, o, M.BroadcastUnknown)
       case Replacement(o) => Advance(d, o, M.BroadcastUnknown)
       case Recovery(o) => MoveIf(d, o, {M.Broadcasting}, M.BroadcastUnknown)
       case NoHooks(_) => Some(d))
  }

  /** resolveInFlight, before the identical bytes are sent again. */
  function RebroadcastTx(db: Db, o: nat, i: nat): Option<Db> {
    var d :- MoveIf(db, o, {M.BroadcastUnknown, M.Signed}, M.Broadcasting);
    SetBroadcasting(d, i)
  }

  function AdvanceTx(db: Db, o: nat): Option<Db> {
    MoveIf(db, o, {M.BroadcastUnknown, M.Broadcasting}, M.Submitted)
  }

  function AbandonTx(db: Db, o: nat, i: Option<nat>): Option<Db> {
    if o >= |db.ops| || !(db.ops[o].state.Preparing? || db.ops[o].state.Signing?) then Some(db) else
      var d :- Move(db, o, M.Failed);
      if i.Some? then SetStatus(d, i.value, Failed) else Some(d)
  }

  function FailOperationTx(db: Db, o: nat): Option<Db> {
    if o >= |db.ops| || M.Protected(db.ops[o].state) then Some(db) else
      var d :- Move(db, o, M.Failed);
      var latest := Latest(d, o);
      if latest.Some? && d.attempts[latest.value].status.Prepared? then SetStatus(d, latest.value, Failed) else Some(d)
  }

  function IncludeTx(db: Db, o: nat, i: nat, ok: bool, block: BlockRef): Option<Db> {
    var d :- MoveIf(db, o, {M.Submitted}, M.Included);
    RecordReceipt(d, i, ok, block)
  }

  function ReorgTx(db: Db, o: nat, i: nat): Option<Db> {
    var d := db.(observations := Invalidated(db.observations, i));
    var e :- ClearInclusion(d, i);
    MoveIf(Observe(e, Observation(Some(i), false, false)), o, {M.Included}, M.Submitted)
  }

  /** settle, to SUCCEEDED or REVERTED. */
  function SettleTx(db: Db, o: nat, i: nat, to: M.OpState): Option<Db> {
    if o >= |db.ops| then None
    else if db.ops[o].state == to then Some(db)
    else
      var d :- Move(db, o, to);
      SetStatus(d, i, if to.Succeeded? then Confirmed else Reverted)
  }

  /** confirmRecovery: a nonce recovery is reconciled without an operation. */
  function ConfirmRecoveryTx(db: Db, i: nat, ok: bool, block: BlockRef, final: bool): Option<Db> {
    var d :- RecordReceipt(db, i, ok, block);
    var e := Observe(d, Observation(Some(i), true, ok));
    if final && ok then SetStatus(e, i, Confirmed) else Some(e)
  }

  function InsertOp(db: Db, kind: Kind, state: M.OpState): Option<Db> {
    var ops := db.ops + [Op(kind, state, [state])];
    if OneLiveSync(ops) then Some(db.(ops := ops)) else None
  }

  /** enqueueEligibilitySync: a sync nobody picked up yet gives way to the newer decision, any other live one refuses it. */
  function EnqueueSyncTx(db: Db, kind: Kind): Option<Db>
    requires kind.SyncOp?
  {
    var live := LiveSyncBelow(db.ops, kind, |db.ops|);
    if live.None? then InsertOp(db, kind, M.Ready)
    else if !db.ops[live.value].state.Ready? then None
    else
      var d :- Move(db, live.value, M.Cancelled);
      InsertOp(d, kind, M.Ready)
  }
}
