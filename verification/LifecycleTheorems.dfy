/** What every run guarantees at level L1: any interleaving of any number of workers, sweeps, duplicate deliveries,
    crashes and reorganisations. */
module LifecycleTheorems {
  import opened CanonicalJson
  import opened SignedTransaction
  import opened MintProposal
  import opened Ledger
  import opened Tables
  import opened TableInvariants
  import opened Lifecycle
  import opened LifecycleInvariants
  import opened LifecycleSteps
  import opened LifecycleRuns
  import Fee = TransactionIntent
  import M = OperationMachine
  import Token

  // ---------- positions and nonces ----------

  /** The transaction at `p` carries the nonce that counts the signer's transactions before it. */
  lemma NonceAt(base: nat, net: Net, p: nat)
    requires ChainOk(base, net) && p < |Flat(net.chain)| && Flat(net.chain)[p].tx.Ours?
    ensures var tx := Flat(net.chain)[p].tx.tx;
            tx.nonce == base + |OursOf(Flat(net.chain)[..p])| && tx in net.known
  {
    var flat := Flat(net.chain);
    var k := |OursOf(flat[..p])|;
    assert flat[..p + 1][..p] == flat[..p];
    assert OursOf(flat[..p + 1]) == OursOf(flat[..p]) + [flat[p].tx.tx];
    OursPrefix(flat, p + 1);
    assert OursOf(flat)[k] == flat[p].tx.tx;
  }

  lemma CountRises(flat: seq<Entry>, p: nat, q: nat)
    requires p < q <= |flat| && flat[p].tx.Ours?
    ensures |OursOf(flat[..p])| < |OursOf(flat[..q])|
  {
    OursPrefix(flat[..q], p + 1);
    assert flat[..q][..p + 1] == flat[..p + 1];
    assert flat[..p + 1][..p] == flat[..p];
  }

  /** Later in the chain means a higher nonce. */
  lemma NonceOrder(base: nat, net: Net, p: nat, q: nat)
    requires ChainOk(base, net) && p < |Flat(net.chain)| && q < |Flat(net.chain)|
    requires Flat(net.chain)[p].tx.Ours? && Flat(net.chain)[q].tx.Ours?
    ensures p < q <==> Flat(net.chain)[p].tx.tx.nonce < Flat(net.chain)[q].tx.tx.nonce
    ensures p == q <==> Flat(net.chain)[p].tx.tx.nonce == Flat(net.chain)[q].tx.tx.nonce
  {
    NonceAt(base, net, p);
    NonceAt(base, net, q);
    if p < q { CountRises(Flat(net.chain), p, q); }
    if q < p { CountRises(Flat(net.chain), q, p); }
  }

  /** `tx` is the stored signature of attempt `i` of operation `o`. */
  predicate Belongs(db: Db, tx: SignedTx, o: nat, i: nat) {
    i < |db.attempts| && db.attempts[i].core.op == Some(o) && db.attempts[i].bytes == Some(tx)
  }

  lemma NonceOf(c: Config, base: nat, db: Db, i: nat)
    requires Inv(c, base, db) && i < |db.attempts| && db.attempts[i].bytes.Some?
    ensures Decodes(db.attempts[i].bytes.value, db.attempts[i].core.request)
  {
    assert ShapeOk(c, db.attempts[i]);
  }

  lemma SharedNonce(c: Config, base: nat, db: Db, i: nat, j: nat)
    requires Inv(c, base, db) && i < |db.attempts| && j < |db.attempts|
    requires db.attempts[i].core.op.Some? && db.attempts[i].core.op == db.attempts[j].core.op
    ensures SameIntent(db.attempts[i].core, db.attempts[j].core)
  {
  }

  /** At most once on chain: the canonical chain never holds two transactions of one operation. */
  lemma AtMostOnce(env: Env, labels: seq<Label>, o: nat, p: nat, q: nat, i: nat, j: nat)
    requires
      var s := Run(env, labels);
      var flat := Flat(s.net.chain);
      && p < |flat| && q < |flat| && flat[p].tx.Ours? && flat[q].tx.Ours?
      && Belongs(s.db, flat[p].tx.tx, o, i) && Belongs(s.db, flat[q].tx.tx, o, j)
    ensures p == q
  {
    hide Run, Inv, NetOk, SuccessOk;
    RunKeeps(env, labels);
    var s := Run(env, labels);
    NonceOf(env.c, env.base, s.db, i);
    NonceOf(env.c, env.base, s.db, j);
    SharedNonce(env.c, env.base, s.db, i, j);
    ChainFacts(env, s);
    NonceOrder(env.base, s.net, p, q);
  }

  lemma ChainFacts(env: Env, s: State)
    requires L1(env, s)
    ensures ChainOk(env.base, s.net) && s.net.known <= s.net.exposed
  {
  }

  // ---------- bytes ----------

  /** Whatever a node was given is the signature stored on exactly one attempt, and decodes to what it committed to. */
  lemma ExposedIsStored(env: Env, labels: seq<Label>, tx: SignedTx) returns (i: nat)
    requires tx in Run(env, labels).net.exposed
    ensures var rows := Run(env, labels).db.attempts;
            && i < |rows| && rows[i].bytes == Some(tx) && Decodes(tx, rows[i].core.request)
            && forall j: nat | j < |rows| && rows[j].bytes == Some(tx) :: j == i
  {
    hide Run;
    RunKeeps(env, labels);
    var db := Run(env, labels).db;
    assert Stored(db.attempts, tx);
    i :| i < |db.attempts| && db.attempts[i].bytes == Some(tx);
    NonceOf(env.c, env.base, db, i);
    forall j: nat | j < |db.attempts| && db.attempts[j].bytes == Some(tx) ensures j == i {
      SameRow(db.attempts, i, j);
    }
  }

  /** What was approved is what is sent: every byte string of an operation calls what the operation is for, from the
      configured signer on the configured chain, without value. */
  lemma ApprovedIsSent(env: Env, labels: seq<Label>, tx: SignedTx, o: nat, i: nat)
    requires Belongs(Run(env, labels).db, tx, o, i)
    ensures var db := Run(env, labels).db;
            && o < |db.ops| && Serves(db.ops[o].kind, db.attempts[i].core.purpose, tx.to, tx.data)
            && tx.chainId == env.c.chainId && tx.signer == Some(env.c.signer) && tx.value == 0
            && (db.ops[o].kind.MintOp? ==>
                  tx.data.Invoke? && tx.data.call.MintWithReference?
                  && Decimal(tx.data.call.amount) == db.ops[o].kind.snapshot.amount)
            && forall j: nat | j < |db.attempts| && db.attempts[j].core.op == Some(o) ::
                 SameIntent(db.attempts[i].core, db.attempts[j].core)
  {
    hide Run, AttemptsOk, LaneOk, SyncOrder, NetOk, SuccessOk;
    RunKeeps(env, labels);
    var db := Run(env, labels).db;
    assert TieOk(db.ops, db.attempts[i]) && ShapeOk(env.c, db.attempts[i]);
    ValueIsZero(env, Run(env, labels), i);
    forall j: nat | j < |db.attempts| && db.attempts[j].core.op == Some(o)
      ensures SameIntent(db.attempts[i].core, db.attempts[j].core)
    {
      if i < j { assert SameIntent(db.attempts[i].core, db.attempts[j].core); }
      if j < i { assert SameIntent(db.attempts[j].core, db.attempts[i].core); }
    }
  }

  lemma ValueIsZero(env: Env, s: State, i: nat)
    requires L1(env, s) && i < |s.db.attempts|
    ensures s.db.attempts[i].core.request.value == 0
  {
    assert RowChecks(s.db.attempts, i);
  }

  /** The check of signed bytes never turns an honest signature away, of a first attempt, a replacement or a recovery. */
  lemma HonestSignatureAccepted(env: Env, labels: seq<Label>, i: nat, seal: nat)
    requires i < |Run(env, labels).db.attempts|
    ensures var r := Run(env, labels).db.attempts[i].core.request;
            VerifySigned(Honest(r, seal), r, r.from, Keccak(Honest(r, seal))).None?
  {
    hide Run, AttemptsOk, LaneOk, SyncOrder, TiesOk, IntentsOk, NetOk, SuccessOk;
    RunKeeps(env, labels);
    assert ShapeOk(env.c, Run(env, labels).db.attempts[i]);
  }

  /** A nonce recovery is an empty self-transfer: executing it changes no token contract and logs nothing. */
  lemma RecoveryChangesNothing(env: Env, labels: seq<Label>, p: nat, i: nat, contract: Address)
    requires
      var s := Run(env, labels);
      var flat := Flat(s.net.chain);
      && p < |flat| && i < |s.db.attempts| && s.db.attempts[i].core.purpose.NonceRecovery?
      && flat[p].tx.Ours? && s.db.attempts[i].bytes == Some(flat[p].tx.tx) && contract in env.contracts
    ensures var flat := Flat(Run(env, labels).net.chain);
            var tx := flat[p].tx.tx;
            && tx.to == Some(env.c.signer) && tx.signer == Some(env.c.signer) && tx.value == 0 && tx.data == Empty
            && Replay(flat[..p + 1], contract, env.contracts[contract]) == Replay(flat[..p], contract, env.contracts[contract])
  {
    hide Run, AttemptsOk, LaneOk, SyncOrder, TiesOk, IntentsOk, NetOk, SuccessOk;
    RunKeeps(env, labels);
    var s := Run(env, labels);
    var flat := Flat(s.net.chain);
    assert ShapeOk(env.c, s.db.attempts[i]);
    ValueIsZero(env, s, i);
    assert flat[..p + 1][..p] == flat[..p];
    ReplayLast(flat[..p + 1], contract, env.contracts[contract]);
  }

  /** Once stored, the bytes of an attempt and everything it committed to never change. */
  lemma BytesNeverChange(env: Env, labels: seq<Label>, n: nat, i: nat)
    requires n <= |labels| && i < |Run(env, labels[..n]).db.attempts|
    ensures var a := Run(env, labels[..n]).db.attempts[i];
            && i < |Run(env, labels).db.attempts|
            && var b := Run(env, labels).db.attempts[i];
               && b.core == a.core && (a.bytes.Some? ==> b.bytes == a.bytes)
               && (a.status.Replaced? ==> b.status.Replaced? && b.replacedBy == a.replacedBy)
  {
    hide Run;
    RunKeeps(env, labels[..n]);
    RunGrows(env, labels, n);
    var d, e := Run(env, labels[..n]).db, Run(env, labels).db;
    assert AttemptKept(d.attempts[i], e.attempts[i]);
    if d.attempts[i].status.Replaced? { assert LinkOk(env.c, d.attempts, i); }
  }

  // ---------- the nonce lane ----------

  predicate At(rows: seq<Attempt>, i: nat, nonce: nat) { i < |rows| && rows[i].core.request.nonce == nonce }

  lemma OneLive(rows: seq<Attempt>, i: nat, j: nat, nonce: nat)
    requires LiveUnique(rows) && Holds(rows, i, nonce) && Holds(rows, j, nonce)
    ensures i == j
  {
    assert rows[i].core.request.nonce == rows[j].core.request.nonce;
  }

  /** Issued nonces are exactly [base, next), each with exactly one attempt that was not replaced, and the chain's
      count never passes next. */
  lemma LaneExact(env: Env, labels: seq<Label>, next: nat, n: nat)
    requires Run(env, labels).db.lane == Some(next)
    ensures var rows := Run(env, labels).db.attempts;
            && (env.base <= n < next <==> exists i: nat :: At(rows, i, n))
            && (env.base <= n < next ==> exists i: nat :: Holds(rows, i, n))
            && (forall i: nat, j: nat | Holds(rows, i, n) && Holds(rows, j, n) :: i == j)
            && env.base <= AccountNonce(env, Run(env, labels).net) <= next
  {
    hide Run;
    RunKeeps(env, labels);
    var s := Run(env, labels);
    var rows := s.db.attempts;
    LaneCoversChain(env, s.db, s.net);
    if env.base <= n < next {
      assert Held(rows, n);
      var i: nat :| Holds(rows, i, n);
      assert At(rows, i, n);
    }
    forall i: nat, j: nat | Holds(rows, i, n) && Holds(rows, j, n) ensures i == j { OneLive(rows, i, j, n); }
  }

  /** However stale the count a worker read, reserving a nonce never reports a divergence while only this
      application sends from the signer. */
  lemma NeverDiverges(env: Env, labels: seq<Label>, k: nat)
    requires k < |Run(env, labels).actors| && Run(env, labels).actors[k].Built?
    ensures var s := Run(env, labels);
            ReserveNonce(s.db, s.actors[k].chainNonce).Some?
  {
    hide Run, NetOk, SuccessOk;
    RunKeeps(env, labels);
    assert ActorOk(env, Run(env, labels).db, Run(env, labels).net, Run(env, labels).actors[k]);
  }

  /** However often an operation is delivered, it reserves a nonce at most once: one attempt replaces nothing. */
  lemma ReservesOnce(env: Env, labels: seq<Label>, i: nat, j: nat)
    requires
      var rows := Run(env, labels).db.attempts;
      && i < |rows| && j < |rows| && rows[i].core.op.Some? && rows[i].core.op == rows[j].core.op
      && rows[i].core.supersedes.None? && rows[j].core.supersedes.None?
    ensures i == j
  {
    hide Run, NetOk, SuccessOk;
    RunKeeps(env, labels);
  }

  // ---------- operations ----------

  /** The durable log is a run of the machine, however stale the records transitions were made from. */
  lemma DurableLog(env: Env, labels: seq<Label>, o: nat)
    requires o < |Run(env, labels).db.ops|
    ensures var op := Run(env, labels).db.ops[o];
            && M.IsPath(op.log) && op.log[|op.log| - 1] == op.state
            && (forall i: nat, j: nat | i < j < |op.log| && op.log[i].Signing? :: !op.log[j].Signing?)
            && (forall i: nat | i < |op.log| && M.Terminal(op.log[i]) :: i == |op.log| - 1)
            && (op.state.Succeeded? ==> M.InOrder(op.log, M.Signed, M.Broadcasting, M.Included))
            && (op.state.Cancelled? ==> M.Signing !in op.log)
  {
    hide Run, NetOk, SuccessOk, M.IsPath;
    RunKeeps(env, labels);
    var op := Run(env, labels).db.ops[o];
    forall i: nat, j: nat | i < j < |op.log| && op.log[i].Signing? ensures !op.log[j].Signing? {
      M.SigningOnce(op.log, i, j);
    }
    forall i: nat | i < |op.log| && M.Terminal(op.log[i]) ensures i == |op.log| - 1 { M.TerminalIsLast(op.log, i); }
    if op.state.Succeeded? { M.SuccessPassesThrough(op.log); }
    if op.state.Cancelled? {
      forall i: nat | i < |op.log| ensures !op.log[i].Signing? { M.CancelledNeverSigned(op.log, i); }
    }
  }

  /** A cancelled operation has no attempt at all; one whose bytes reached a node was signed and is in a
      state failOperation does not touch, terminal ones included. */
  lemma CancelledHasNoAttempt(env: Env, labels: seq<Label>, i: nat)
    requires i < |Run(env, labels).db.attempts| && Run(env, labels).db.attempts[i].core.op.Some?
    ensures var s := Run(env, labels);
            var a := s.db.attempts[i];
            && a.core.op.value < |s.db.ops|
            && var op := s.db.ops[a.core.op.value];
               && !op.state.Cancelled? && !op.state.PendingApproval? && !op.state.Ready?
               && (a.bytes.Some? && a.bytes.value in s.net.exposed ==> M.Signed in op.log && M.Protected(op.state))
  {
    hide Run, AttemptsOk, RowsOk, LaneOk, SyncOrder, IntentsOk;
    RunKeeps(env, labels);
    var s := Run(env, labels);
    assert TieOk(s.db.ops, s.db.attempts[i]);
  }

  /** The contract's whole log, with whatever anyone else called. */
  function ChainLog(env: Env, net: Net, contract: Address): seq<Token.Event>
    requires contract in env.contracts
  {
    Replay(Flat(net.chain), contract, env.contracts[contract]).1
  }

  /** Success is exactly one mint, forever: from the state in which a mint is SUCCEEDED on, it stays so, and exactly
      one MintExecuted carries its reference, with the approved recipient and the amount whose text was approved, in the
      finalized prefix and in the whole chain. */
  lemma SuccessIsOneMint(env: Env, labels: seq<Label>, n: nat, o: nat)
    requires
      && n <= |labels|
      && var ops := Run(env, labels[..n]).db.ops;
         o < |ops| && ops[o].state.Succeeded? && ops[o].kind.MintOp?
    ensures
      var t := Run(env, labels);
      var op := Run(env, labels[..n]).db.ops[o];
      var k := op.kind;
      var contract := Lower(k.snapshot.contractAddress);
      && o < |t.db.ops| && t.db.ops[o] == op
      && MintedFinally(env, t.net, k.snapshot, k.amount) && k.snapshot.amount == Decimal(k.amount)
      && exists i: nat :: MintedAt(ChainLog(env, t.net, contract), i, Lower(k.snapshot.operationReference),
                                   Lower(k.snapshot.recipientAddress), k.amount)
  {
    hide Run, Inv, NetOk;
    RunKeeps(env, labels[..n]);
    RunKeeps(env, labels);
    RunGrows(env, labels, n);
    var s, t := Run(env, labels[..n]), Run(env, labels);
    assert OpKept(s.db.ops[o], t.db.ops[o]);
    var k := s.db.ops[o].kind;
    assert Proven(env, t.net, k);
    FinalIsEverywhere(env, t.net, k.snapshot, k.amount);
  }

  lemma FinalIsEverywhere(env: Env, net: Net, s: Snapshot, amount: nat)
    requires MintedFinally(env, net, s, amount)
    ensures exists i: nat :: MintedAt(ChainLog(env, net, Lower(s.contractAddress)), i, Lower(s.operationReference),
                                      Lower(s.recipientAddress), amount)
  {
    var contract := Lower(s.contractAddress);
    var d := env.contracts[contract];
    var r, who := Lower(s.operationReference), Lower(s.recipientAddress);
    var early, log := FinalLog(env, net, contract), ChainLog(env, net, contract);
    var i: nat :| MintedAt(early, i, r, who, amount);
    FlatPrefix(net.chain, net.final);
    EventsPrefix(Flat(net.chain), |FinalEntries(net)|, contract, d);
    assert Flat(net.chain)[..|FinalEntries(net)|] == FinalEntries(net);
    assert log[i] == early[i];
    Token.RunConserves(contract, d.cap, d.members, Messages(Flat(net.chain), contract));
    assert Token.Once(log);
    assert MintedAt(log, i, r, who, amount);
  }

  /** A receipt's status depends on what came before its transaction only. */
  lemma SameStatus(env: Env, early: seq<Entry>, flat: seq<Entry>, p: nat, tx: SignedTx)
    requires p < |early| && early <= flat
    ensures ReceiptOk(env, early, p, tx) <==> ReceiptOk(env, flat, p, tx)
  {
    assert early[..p] == flat[..p] && early[p] == flat[p];
  }

  /** The chain has our transaction at `p`, reverted. */
  ghost predicate RevertedAt(env: Env, net: Net, p: nat, tx: SignedTx) {
    p < |Flat(net.chain)| && Flat(net.chain)[p].tx == Ours(tx) && !ReceiptOk(env, Flat(net.chain), p, tx)
  }

  /** A reverted transaction stands where it is in every continuation exactly if it is in the finalized prefix. */
  lemma RevertStandsExactly(env: Env, labels: seq<Label>, p: nat, tx: SignedTx)
    requires RevertedAt(env, Run(env, labels).net, p, tx)
    ensures var net := Run(env, labels).net;
            && net.final <= |net.chain|
            && (p < |FinalEntries(net)| <==> forall more: seq<Label> :: RevertedAt(env, Run(env, labels + more).net, p, tx))
  {
    hide Run, L1, ReceiptOk;
    RunKeeps(env, labels);
    FinalWithin(env, Run(env, labels));
    var net := Run(env, labels).net;
    if p < |FinalEntries(net)| {
      forall more: seq<Label> ensures RevertedAt(env, Run(env, labels + more).net, p, tx) {
        RevertStays(env, labels, more, p, tx);
      }
    } else {
      RunNext(env, labels, Reorg(net.final));
      assert !RevertedAt(env, Run(env, labels + [Reorg(net.final)]).net, p, tx);
    }
  }

  lemma FinalWithin(env: Env, s: State)
    requires L1(env, s)
    ensures s.net.final <= |s.net.chain|
  {
  }

  lemma RevertStays(env: Env, labels: seq<Label>, more: seq<Label>, p: nat, tx: SignedTx)
    requires RevertedAt(env, Run(env, labels).net, p, tx)
    requires var net := Run(env, labels).net; net.final <= |net.chain| && p < |FinalEntries(net)|
    ensures RevertedAt(env, Run(env, labels + more).net, p, tx)
  {
    hide Run, ReceiptOk;
    assert (labels + more)[..|labels|] == labels;
    RunGrows(env, labels + more, |labels|);
    var s, t := Run(env, labels).net, Run(env, labels + more).net;
    FinalEntriesGrow(s, t);
    FlatPrefix(s.chain, s.final);
    FlatPrefix(t.chain, t.final);
    SameStatus(env, FinalEntries(s), Flat(s.chain), p, tx);
    SameStatus(env, FinalEntries(s), Flat(t.chain), p, tx);
  }

  /** A revert is for ever only once its block is final: then no transaction of the operation ever succeeds. */
  lemma FinalRevertIsForever(env: Env, labels: seq<Label>, n: nat, o: nat, i: nat, p: nat, j: nat, q: nat)
    requires
      && n <= |labels|
      && var s, t := Run(env, labels[..n]), Run(env, labels);
         && s.net.final <= |s.net.chain| && p < |FinalEntries(s.net)| && FinalEntries(s.net)[p].tx.Ours?
         && Belongs(s.db, FinalEntries(s.net)[p].tx.tx, o, i)
         && !ReceiptOk(env, FinalEntries(s.net), p, FinalEntries(s.net)[p].tx.tx)
         && q < |Flat(t.net.chain)| && Flat(t.net.chain)[q].tx.Ours? && Belongs(t.db, Flat(t.net.chain)[q].tx.tx, o, j)
    ensures q == p && !ReceiptOk(env, Flat(Run(env, labels).net.chain), q, Flat(Run(env, labels).net.chain)[q].tx.tx)
  {
    hide Run, Inv, NetOk, SuccessOk, ReceiptOk;
    var s, t := Run(env, labels[..n]), Run(env, labels);
    RunKeeps(env, labels[..n]);
    RunGrows(env, labels, n);
    FinalEntriesGrow(s.net, t.net);
    FlatPrefix(t.net.chain, t.net.final);
    var early, flat := FinalEntries(s.net), Flat(t.net.chain);
    assert early <= flat;
    assert AttemptKept(s.db.attempts[i], t.db.attempts[i]);
    AtMostOnce(env, labels, o, p, q, i, j);
    SameStatus(env, early, flat, p, early[p].tx.tx);
  }

  // ---------- eligibility writes ----------

  lemma OrderedNonces(c: Config, base: nat, db: Db, x: nat, y: nat)
    requires Inv(c, base, db) && x < |db.attempts| && y < |db.attempts|
    requires db.attempts[x].core.op.Some? && db.attempts[y].core.op.Some?
    requires db.attempts[x].core.op.value < db.attempts[y].core.op.value < |db.ops|
    requires SamePair(db.ops[db.attempts[x].core.op.value].kind, db.ops[db.attempts[y].core.op.value].kind)
    ensures db.attempts[x].core.request.nonce < db.attempts[y].core.request.nonce
  {
  }

  /** Eligibility writes land in decision order: of two syncs of one wallet and asset, the one enqueued earlier comes
      earlier in the canonical chain, and each writes what its decision said. */
  lemma EligibilityInOrder(env: Env, labels: seq<Label>, o: nat, r: nat, p: nat, q: nat, x: nat, y: nat)
    requires
      var s := Run(env, labels);
      var flat := Flat(s.net.chain);
      && p < |flat| && q < |flat| && flat[p].tx.Ours? && flat[q].tx.Ours?
      && o < r < |s.db.ops| && SamePair(s.db.ops[o].kind, s.db.ops[r].kind)
      && Belongs(s.db, flat[p].tx.tx, o, x) && Belongs(s.db, flat[q].tx.tx, r, y)
    ensures p < q
    ensures var s := Run(env, labels);
            var tx := Flat(s.net.chain)[p].tx.tx;
            var k := s.db.ops[o].kind;
            tx.to == Some(k.contract) && tx.data == Invoke(Token.SetEligibility(k.account, k.until))
  {
    hide Run, Inv, NetOk, SuccessOk;
    RunKeeps(env, labels);
    var s := Run(env, labels);
    NonceOf(env.c, env.base, s.db, x);
    NonceOf(env.c, env.base, s.db, y);
    OrderedNonces(env.c, env.base, s.db, x, y);
    ChainFacts(env, s);
    NonceOrder(env.base, s.net, p, q);
    ApprovedIsSent(env, labels, Flat(s.net.chain)[p].tx.tx, o, x);
  }
}
