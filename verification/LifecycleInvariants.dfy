/** What holds in every state any interleaving can reach (level L1), and that every step keeps it. */
module LifecycleInvariants {
  import opened CanonicalJson
  import opened SignedTransaction
  import opened MintProposal
  import opened Ledger
  import opened Tables
  import opened TableInvariants
  import opened Lifecycle
  import Fee = TransactionIntent
  import M = OperationMachine
  import Token

  // ---------- the network ----------

  ghost predicate Stored(rows: seq<Attempt>, tx: SignedTx) {
    exists i: nat :: i < |rows| && rows[i].bytes == Some(tx)
  }

  /** Our transactions in the chain, at the consecutive nonces of the account. */
  ghost predicate ChainOk(base: nat, net: Net) {
    && net.final <= |net.chain|
    && var ours := OursOf(Flat(net.chain));
       forall k: nat | k < |ours| :: ours[k] in net.known && ours[k].nonce == base + k
  }

  /** Bytes handed to a node belong to an operation that is out of failOperation's reach. */
  ghost predicate ExposedOk(db: Db, exposed: set<SignedTx>) {
    && (forall tx | tx in exposed :: Stored(db.attempts, tx))
    && (forall i: nat | i < |db.attempts| && db.attempts[i].bytes.Some? && db.attempts[i].bytes.value in exposed
          && db.attempts[i].core.op.Some? :: Tied(db, db.attempts[i].core.op.value, i))
  }

  ghost predicate DecidedOk(rows: seq<Attempt>, decided: map<nat, Answer>) {
    forall i: nat | i < |rows| && rows[i].bytes.Some? ::
      i in decided && decided[i].SignatureOf? && decided[i].tx == rows[i].bytes.value
  }

  ghost predicate NetOk(env: Env, db: Db, net: Net) {
    && ChainOk(env.base, net)
    && net.known <= net.exposed
    && ExposedOk(db, net.exposed)
    && DecidedOk(db.attempts, net.decided)
  }

  // ---------- settled mints ----------

  function FinalLog(env: Env, net: Net, contract: Address): seq<Token.Event>
    requires net.final <= |net.chain| && contract in env.contracts
  {
    Replay(FinalEntries(net), contract, env.contracts[contract]).1
  }

  /** Exactly one MintExecuted carries this reference in the finalized prefix, with the approved recipient and amount. */
  ghost predicate MintedFinally(env: Env, net: Net, s: Snapshot, amount: nat) {
    var contract := Lower(s.contractAddress);
    && net.final <= |net.chain| && contract in env.contracts
    && exists i: nat :: MintedAt(FinalLog(env, net, contract), i, Lower(s.operationReference), Lower(s.recipientAddress), amount)
  }

  ghost predicate Proven(env: Env, net: Net, k: Kind) {
    k.MintOp? ==> MintedFinally(env, net, k.snapshot, k.amount) && k.snapshot.amount == Decimal(k.amount)
  }

  ghost predicate SuccessOk(env: Env, db: Db, net: Net) {
    forall o: nat | o < |db.ops| && db.ops[o].state.Succeeded? :: Proven(env, net, db.ops[o].kind)
  }

  // ---------- what each worker may rely on ----------

  predicate Row(db: Db, o: nat, i: nat, tx: SignedTx) {
    i < |db.attempts| && db.attempts[i].core.op == Some(o) && db.attempts[i].bytes == Some(tx)
  }

  predicate Armed(db: Db, i: nat, h: Hooks, tx: SignedTx) {
    && HooksFit(db, i, h) && db.attempts[i].bytes == Some(tx)
    && (db.attempts[i].core.op.Some? ==> Tied(db, db.attempts[i].core.op.value, i))
  }

  predicate Evidence(env: Env, net: Net, tx: SignedTx, v: Verdict) {
    v.WasFinal? ==> InFinalPrefix(env, net, tx, v.position)
  }

  ghost predicate ActorOk(env: Env, db: Db, net: Net, a: Actor) {
    match a
    case Done => true
    case Claimed(o) => o < |db.ops|
    case Built(o, purpose, to, data, _, fees, chainNonce) =>
      && o < |db.ops| && Serves(db.ops[o].kind, purpose, to, data) && Fee.Ordered(fees)
      && (chainNonce == env.base || (db.lane.Some? && chainNonce <= db.lane.value))
    case Erring(_) => true
    case Requesting(i, h) => HooksFit(db, i, h) && !h.Recovery?
    case Answered(i, h, decision) =>
      && HooksFit(db, i, h) && !h.Recovery?
      && (decision.Some? ==> i in net.decided && net.decided[i] == decision.value)
    case Settling(i, h, answer) => HooksFit(db, i, h) && !h.Recovery? && i in net.decided && net.decided[i] == answer
    case Failing(i, h, _) => HooksFit(db, i, h) && !h.Recovery?
    case Persisted(i, h, tx) => HooksFit(db, i, h) && !h.Recovery? && db.attempts[i].bytes == Some(tx)
    case Allowed(i, h, tx) => HooksFit(db, i, h) && !h.Recovery? && db.attempts[i].bytes == Some(tx)
    case Sending(i, h, tx) => Armed(db, i, h, tx)
    case Checked(i, h, tx) => Armed(db, i, h, tx)
    case Sent(i, h, tx, _) => Armed(db, i, h, tx)
    case Resuming(i, h) => HooksFit(db, i, h) && !h.Recovery?
    case Expiring(i, h) => HooksFit(db, i, h) && !h.Recovery?
    case Fetching(i, h) => HooksFit(db, i, h) && !h.Recovery?
    case Observing(o, i, tx) => Row(db, o, i, tx)
    case Awaiting(o, i, tx) => Row(db, o, i, tx)
    case Including(o, i, tx, _, _, next) =>
      Row(db, o, i, tx) && Tied(db, o, i) && (next.Some? ==> Evidence(env, net, tx, next.value))
    case Orphaning(o, i) => Tied(db, o, i)
    case Reconciling(o, i, tx, v) => Row(db, o, i, tx) && Tied(db, o, i) && Evidence(env, net, tx, v)
    case Judged(o, i, to) =>
      && Tied(db, o, i) && (to.Succeeded? || to.Reverted?)
      && (to.Succeeded? ==> Proven(env, net, db.ops[o].kind))
    case RecoverSigning(_) => true
    case RecoverRequest(o, i) => i < |db.attempts| && db.attempts[i].core.op == Some(o)
    case RecoverUnsent(_) => true
    case Abandoning(_, latest) => latest.Some? ==> latest.value < |db.attempts|
    case ResolveInFlight(_) => true
    case LookingUp(o, i, tx) => Row(db, o, i, tx)
    case Advancing(_) => true
    case Finalizing(_) => true
    case Rebroadcasting(o, i, tx) => Row(db, o, i, tx)
    case Stuck(i) => StuckOk(db, i)
    case StuckOperation(i) => StuckOk(db, i)
    case Replacing(i) => StuckOk(db, i)
    case LaneRead(_) => true
    case LaneAt(_) => true
    case Cancelling(i) => i < |db.attempts| && !db.attempts[i].core.purpose.NonceRecovery?
    case ConfirmingRecovery(i, tx) => i < |db.attempts| && db.attempts[i].core.op.None?
  }

  predicate StuckOk(db: Db, i: nat) {
    i < |db.attempts| && (db.attempts[i].core.op.Some? ==> Tied(db, db.attempts[i].core.op.value, i))
  }

  ghost predicate L1(env: Env, s: State) {
    && Inv(env.c, env.base, s.db)
    && NetOk(env, s.db, s.net)
    && SuccessOk(env, s.db, s.net)
    && forall k: nat | k < |s.actors| :: ActorOk(env, s.db, s.net, s.actors[k])
  }

  // ---------- everything a worker relies on is stable ----------

  ghost predicate NetGrows(n: Net, m: Net) {
    && n.final <= |n.chain| && n.final <= m.final <= |m.chain| && n.chain[..n.final] == m.chain[..n.final]
    && n.known <= m.known && n.exposed <= m.exposed
    && forall i | i in n.decided :: i in m.decided && m.decided[i] == n.decided[i]
  }

  lemma FinalEntriesGrow(n: Net, m: Net)
    requires NetGrows(n, m)
    ensures FinalEntries(n) <= FinalEntries(m)
  {
    FlatPrefix(m.chain[..m.final], n.final);
    assert m.chain[..m.final][..n.final] == n.chain[..n.final];
  }

  lemma EvidenceStays(env: Env, n: Net, m: Net, tx: SignedTx, p: nat)
    requires NetGrows(n, m) && InFinalPrefix(env, n, tx, p)
    ensures InFinalPrefix(env, m, tx, p)
  {
    FinalEntriesGrow(n, m);
    assert FinalEntries(n)[..p] == FinalEntries(m)[..p];
    assert FinalEntries(n)[p] == FinalEntries(m)[p];
  }

  /** A finalized mint stays the only one with its reference. */
  lemma ProvenStays(env: Env, n: Net, m: Net, k: Kind)
    requires NetGrows(n, m) && Proven(env, n, k)
    ensures Proven(env, m, k)
  {
    if k.MintOp? {
      var contract, d := Lower(k.snapshot.contractAddress), env.contracts[Lower(k.snapshot.contractAddress)];
      var r, who := Lower(k.snapshot.operationReference), Lower(k.snapshot.recipientAddress);
      var i: nat :| MintedAt(FinalLog(env, n, contract), i, r, who, k.amount);
      FinalEntriesGrow(n, m);
      EventsPrefix(FinalEntries(m), |FinalEntries(n)|, contract, d);
      assert FinalEntries(m)[..|FinalEntries(n)|] == FinalEntries(n);
      var log := FinalLog(env, m, contract);
      assert log[i] == FinalLog(env, n, contract)[i];
      Token.RunConserves(contract, d.cap, d.members, Messages(FinalEntries(m), contract));
      assert Token.Once(log);
      assert MintedAt(log, i, r, who, k.amount);
    }
  }

  lemma TiedStays(d: Db, e: Db, o: nat, i: nat)
    requires Grows(d, e) && Tied(d, o, i)
    ensures Tied(e, o, i)
  {
    assert AttemptKept(d.attempts[i], e.attempts[i]) && OpKept(d.ops[o], e.ops[o]);
  }

  function AttemptOf(a: Actor): Option<nat> {
    match a
    case Requesting(i, _) => Some(i)
    case Answered(i, _, _) => Some(i)
    case Settling(i, _, _) => Some(i)
    case Failing(i, _, _) => Some(i)
    case Persisted(i, _, _) => Some(i)
    case Allowed(i, _, _) => Some(i)
    case Sending(i, _, _) => Some(i)
    case Checked(i, _, _) => Some(i)
    case Sent(i, _, _, _) => Some(i)
    case Resuming(i, _) => Some(i)
    case Expiring(i, _) => Some(i)
    case Fetching(i, _) => Some(i)
    case Observing(_, i, _) => Some(i)
    case Awaiting(_, i, _) => Some(i)
    case Including(_, i, _, _, _, _) => Some(i)
    case Orphaning(_, i) => Some(i)
    case Reconciling(_, i, _, _) => Some(i)
    case Judged(_, i, _) => Some(i)
    case RecoverRequest(_, i) => Some(i)
    case LookingUp(_, i, _) => Some(i)
    case Rebroadcasting(_, i, _) => Some(i)
    case Stuck(i) => Some(i)
    case StuckOperation(i) => Some(i)
    case Replacing(i) => Some(i)
    case Cancelling(i) => Some(i)
    case ConfirmingRecovery(i, _) => Some(i)
    case _ => None
  }

  /** Whatever anyone else does in between, a worker's knowledge stays good. */
  lemma ActorStays(env: Env, d: Db, n: Net, e: Db, m: Net, a: Actor)
    requires ActorOk(env, d, n, a) && Grows(d, e) && NetGrows(n, m)
    ensures ActorOk(env, e, m, a)
  {
    if AttemptOf(a).Some? {
      var i := AttemptOf(a).value;
      assert AttemptKept(d.attempts[i], e.attempts[i]);
      if d.attempts[i].core.op.Some? && d.attempts[i].core.op.value < |d.ops| {
        var o := d.attempts[i].core.op.value;
        assert OpKept(d.ops[o], e.ops[o]);
      }
    }
    match a
    case Claimed(o) => assert OpKept(d.ops[o], e.ops[o]);
    case Built(o, _, _, _, _, _, _) => assert OpKept(d.ops[o], e.ops[o]);
    case Including(_, _, tx, _, _, next) =>
      if next.Some? && next.value.WasFinal? { EvidenceStays(env, n, m, tx, next.value.position); }
    case Reconciling(_, _, tx, v) => if v.WasFinal? { EvidenceStays(env, n, m, tx, v.position); }
    case Judged(o, _, to) => if to.Succeeded? { ProvenStays(env, n, m, d.ops[o].kind); }
    case _ =>
  }
}
