/** What every transaction keeps true of the tables, and what it can never take back. */
module TableInvariants {
  import opened CanonicalJson
  import opened SignedTransaction
  import opened MintProposal
  import opened Tables
  import Fee = TransactionIntent
  import M = OperationMachine
  import Token

  // ---------- invariants ----------

  /** Equal in everything an approval covers, and at the same nonce. */
  predicate SameIntent(p: Core, q: Core) {
    var r, s := p.request, q.request;
    && p.purpose == q.purpose && r.chainId == s.chainId && r.from == s.from && r.to == s.to && r.nonce == s.nonce
    && r.value == s.value && r.data == s.data && r.gas == s.gas
  }

  /** A fee replacement, or the one cancellation that empties the nonce. */
  predicate Follows(c: Config, p: Core, q: Core) {
    && q.request.nonce == p.request.nonce && q.number == p.number + 1
    && (|| (SameIntent(p, q) && q.op == p.op && p.number < c.maxReplacements)
        || (q.purpose.NonceRecovery? && !p.purpose.NonceRecovery?))
  }

  predicate ShapeOk(c: Config, a: Attempt) {
    var r := a.core.request;
    && r.from == c.signer && r.chainId == c.chainId && r.priority <= r.maxFee
    && (a.core.purpose.NonceRecovery? <==> a.core.op.None?)
    && (a.core.supersedes.None? ==> a.core.op.Some?)
    && (a.core.purpose.NonceRecovery? ==> r.to == Some(c.signer) && r.data == Empty)
    && a.core.number <= c.maxReplacements + (if a.core.purpose.NonceRecovery? then 1 else 0)
    && (a.bytes.Some? ==> Decodes(a.bytes.value, r))
  }

  /** Replacement links are mutually inverse and lead forward. */
  predicate LinkOk(c: Config, rows: seq<Attempt>, i: nat)
    requires i < |rows|
  {
    var a := rows[i];
    && (a.status.Replaced? <==> a.replacedBy.Some?)
    && (a.replacedBy.Some? ==>
          i < a.replacedBy.value < |rows| && rows[a.replacedBy.value].core.supersedes == Some(i))
    && (a.core.supersedes.Some? ==>
          var p := a.core.supersedes.value;
          p < i && rows[p].replacedBy == Some(i) && Follows(c, rows[p].core, a.core))
  }

  ghost predicate RowsOk(c: Config, rows: seq<Attempt>) {
    forall i: nat | i < |rows| :: ShapeOk(c, rows[i]) && LinkOk(c, rows, i)
  }

  ghost predicate Held(rows: seq<Attempt>, nonce: nat) { exists i: nat :: Holds(rows, i, nonce) }

  /** Issued nonces are exactly [base, next), and every one of them has a live attempt. */
  ghost predicate LaneOk(base: nat, rows: seq<Attempt>, lane: Option<nat>) {
    match lane
    case None => rows == []
    case Some(next) =>
      && base <= next
      && (forall i: nat | i < |rows| :: base <= rows[i].core.request.nonce < next)
      && (forall n: nat | base <= n < next :: Held(rows, n))
  }

  /** The attempt was handed towards a node under this operation. */
  predicate Sendable(s: Status) {
    s.Broadcasting? || s.BroadcastUnknown? || s.Submitted? || s.Included? || s.Confirmed? || s.Reverted?
  }

  /** States an operation is in before its first attempt, or without any. */
  predicate NoAttempt(s: M.OpState) { s.PendingApproval? || s.Ready? || s.Preparing? || s.Cancelled? }

  /** A call that does what the operation is for. */
  predicate Serves(k: Kind, purpose: Purpose, to: Option<Address>, data: Data) {
    match k
    case MintOp(s, amount, _) =>
      && purpose.MintTokens? && to == Some(Lower(s.contractAddress))
      && data.Invoke? && data.call.MintWithReference?
      && data.call.recipient == Lower(s.recipientAddress)
      && data.call.amount == amount && s.amount == Decimal(amount)
      && data.call.reference == Lower(s.operationReference)
    case DeployOp(_) => purpose.DeployToken?
    case SyncOp(_, _, contract, account, until) =>
      purpose.SetEligibility? && to == Some(contract) && data == Invoke(Token.SetEligibility(account, until))
  }

  predicate TieOk(ops: seq<Op>, a: Attempt) {
    a.core.op.Some? ==>
      var o := a.core.op.value;
      && o < |ops| && Serves(ops[o].kind, a.core.purpose, a.core.request.to, a.core.request.data) && !NoAttempt(ops[o].state)
      && (a.bytes.Some? ==> M.Signed in ops[o].log)
      && (Sendable(a.status) ==> M.Protected(ops[o].state))
  }

  ghost predicate TiesOk(ops: seq<Op>, rows: seq<Attempt>) {
    forall i: nat | i < |rows| :: TieOk(ops, rows[i])
  }

  /** All attempts of an operation share intent and nonce, and only one of them replaces nothing. */
  ghost predicate IntentsOk(rows: seq<Attempt>) {
    forall i: nat, j: nat | i < j < |rows| && rows[i].core.op.Some? && rows[i].core.op == rows[j].core.op ::
      SameIntent(rows[i].core, rows[j].core) && rows[j].core.supersedes.Some?
  }

  /** requestMint fills the proposal and the columns of a mint from the same amount and reference. */
  predicate KindOk(k: Kind) {
    k.MintOp? ==> k.snapshot.amount == Decimal(k.amount) && k.snapshot.operationReference == k.reference
  }

  ghost predicate OpsOk(ops: seq<Op>) {
    forall o: nat | o < |ops| ::
      KindOk(ops[o].kind) && M.IsPath(ops[o].log) && ops[o].log[|ops[o].log| - 1] == ops[o].state
  }

  /** A later sync of a wallet and asset exists only once the earlier one is terminal. */
  ghost predicate SyncsOk(ops: seq<Op>) {
    forall i: nat, j: nat | i < j < |ops| && SamePair(ops[i].kind, ops[j].kind) :: M.Terminal(ops[i].state)
  }

  ghost predicate SyncOrder(ops: seq<Op>, rows: seq<Attempt>) {
    forall x: nat, y: nat | x < |rows| && y < |rows| && rows[x].core.op.Some? && rows[y].core.op.Some? ::
      var i, j := rows[x].core.op.value, rows[y].core.op.value;
      i < j < |ops| && SamePair(ops[i].kind, ops[j].kind) ==> rows[x].core.request.nonce < rows[y].core.request.nonce
  }

  ghost predicate Inv(c: Config, base: nat, db: Db) {
    && AttemptsOk(db.attempts)
    && RowsOk(c, db.attempts)
    && LaneOk(base, db.attempts, db.lane)
    && TiesOk(db.ops, db.attempts)
    && IntentsOk(db.attempts)
    && OpsOk(db.ops)
    && SyncsOk(db.ops)
    && SyncOrder(db.ops, db.attempts)
  }

  // ---------- what can never be taken back ----------

  predicate AttemptKept(a: Attempt, b: Attempt) {
    && a.core == b.core
    && (a.bytes.Some? ==> b.bytes == a.bytes)
    && (a.replacedBy.Some? ==> b.replacedBy == a.replacedBy)
    && (a.status.Replaced? ==> b.status.Replaced?)
  }

  predicate OpKept(p: Op, q: Op) {
    && p.kind == q.kind && p.log <= q.log
    && (M.Terminal(p.state) ==> q == p)
    && (M.Protected(p.state) ==> M.Protected(q.state))
    && (!NoAttempt(p.state) ==> !NoAttempt(q.state))
  }

  ghost predicate Grows(d: Db, e: Db) {
    && |d.ops| <= |e.ops| && |d.attempts| <= |e.attempts| && |d.observations| <= |e.observations|
    && (forall o: nat | o < |d.ops| :: OpKept(d.ops[o], e.ops[o]))
    && (forall i: nat | i < |d.attempts| :: AttemptKept(d.attempts[i], e.attempts[i]))
    && (forall k: nat | k < |d.observations| ::
          e.observations[k].(canonical := true) == d.observations[k].(canonical := true)
          && (e.observations[k].canonical ==> d.observations[k].canonical))
    && (d.lane.Some? ==> e.lane.Some? && d.lane.value <= e.lane.value)
  }

  lemma GrowsReflexive(db: Db)
    ensures Grows(db, db)
  {
  }

  lemma GrowsTransitive(d: Db, e: Db, f: Db)
    requires Grows(d, e) && Grows(e, f)
    ensures Grows(d, f)
  {
    forall k: nat | k < |d.observations|
      ensures f.observations[k].(canonical := true) == d.observations[k].(canonical := true)
      ensures f.observations[k].canonical ==> d.observations[k].canonical
    {
      assert e.observations[k].(canonical := true) == d.observations[k].(canonical := true);
    }
    forall i: nat | i < |d.attempts| ensures AttemptKept(d.attempts[i], f.attempts[i]) {
      assert AttemptKept(d.attempts[i], e.attempts[i]) && AttemptKept(e.attempts[i], f.attempts[i]);
    }
    forall o: nat | o < |d.ops| ensures OpKept(d.ops[o], f.ops[o]) {
      assert OpKept(d.ops[o], e.ops[o]) && OpKept(e.ops[o], f.ops[o]);
    }
  }

  // ---------- statements ----------

  lemma ReviveBreaksIndex(rows: seq<Attempt>, i: nat, h: nat, a: Attempt)
    requires i < |rows| && Holds(rows, h, rows[i].core.request.nonce) && h != i
    requires a.core == rows[i].core && !a.status.Replaced?
    ensures !LiveUnique(rows[i := a])
  {
    var out := rows[i := a];
    assert out[i] == a && out[h] == rows[h];
    if i < h {
      assert out[i].core.request.nonce == out[h].core.request.nonce;
    } else {
      assert out[h].core.request.nonce == out[i].core.request.nonce;
    }
  }

  /** REPLACED is absorbing: the live-nonce index rejects every update that would revive a retired row. */
  lemma RetiredRowsStay(base: nat, db: Db, i: nat, a: Attempt)
    requires LaneOk(base, db.attempts, db.lane) && i < |db.attempts| && db.attempts[i].status.Replaced?
    requires a.core == db.attempts[i].core && !a.status.Replaced?
    ensures Put(db, i, a).None?
  {
    assert Held(db.attempts, db.attempts[i].core.request.nonce);
    var h: nat :| Holds(db.attempts, h, db.attempts[i].core.request.nonce);
    ReviveBreaksIndex(db.attempts, i, h, a);
  }

  /** An update of one row that keeps what was inserted and its replacement link. */
  ghost predicate PutLegal(db: Db, i: nat, a: Attempt) {
    i < |db.attempts| ==>
      var b := db.attempts[i];
      && a.core == b.core && a.replacedBy == b.replacedBy && !a.status.Replaced?
      && (b.bytes.Some? ==> a.bytes == b.bytes)
      && (a.bytes.Some? ==> Decodes(a.bytes.value, a.core.request))
      && TieOk(db.ops, a)
  }

  lemma PutRows(c: Config, rows: seq<Attempt>, i: nat, a: Attempt)
    requires RowsOk(c, rows) && i < |rows|
    requires a.core == rows[i].core && a.replacedBy == rows[i].replacedBy
    requires !a.status.Replaced? && !rows[i].status.Replaced?
    requires a.bytes.Some? ==> Decodes(a.bytes.value, a.core.request)
    ensures RowsOk(c, rows[i := a])
  {
    var out := rows[i := a];
    assert ShapeOk(c, rows[i]) && LinkOk(c, rows, i);
    forall k: nat | k < |out| ensures ShapeOk(c, out[k]) && LinkOk(c, out, k) {
      assert ShapeOk(c, rows[k]) && LinkOk(c, rows, k);
    }
  }

  lemma PutLane(base: nat, rows: seq<Attempt>, lane: Option<nat>, i: nat, a: Attempt)
    requires LaneOk(base, rows, lane) && i < |rows| && a.core == rows[i].core
    requires !a.status.Replaced?
    ensures LaneOk(base, rows[i := a], lane)
  {
    var out := rows[i := a];
    forall n: nat | base <= n < lane.value ensures Held(out, n) {
      assert Held(rows, n);
      var h: nat :| Holds(rows, h, n);
      assert Holds(out, h, n);
    }
  }

  lemma PutPairs(ops: seq<Op>, rows: seq<Attempt>, i: nat, a: Attempt)
    requires IntentsOk(rows) && SyncOrder(ops, rows) && i < |rows| && a.core == rows[i].core
    ensures IntentsOk(rows[i := a]) && SyncOrder(ops, rows[i := a])
  {
    var out := rows[i := a];
    forall k: nat | k < |out| ensures out[k].core == rows[k].core {}
  }

  lemma PutKeeps(c: Config, base: nat, db: Db, i: nat, a: Attempt)
    requires Inv(c, base, db) && PutLegal(db, i, a) && Put(db, i, a).Some?
    ensures Inv(c, base, Put(db, i, a).value) && Grows(db, Put(db, i, a).value)
  {
    if i < |db.attempts| {
      if db.attempts[i].status.Replaced? {
        RetiredRowsStay(base, db, i, a);
      } else {
        PutRows(c, db.attempts, i, a);
        PutLane(base, db.attempts, db.lane, i, a);
        PutPairs(db.ops, db.attempts, i, a);
      }
    }
  }

  lemma TransitionOps(ops: seq<Op>, o: nat, to: M.OpState)
    requires OpsOk(ops) && o < |ops| && M.CanTransition(ops[o].state, to)
    ensures OpsOk(ops[o := ops[o].(state := to, log := ops[o].log + [to])])
    ensures OpKept(ops[o], ops[o].(state := to, log := ops[o].log + [to]))
  {
    var log := ops[o].log + [to];
    forall i | 0 < i < |log| ensures M.CanTransition(log[i - 1], log[i]) {
      if i < |ops[o].log| { assert M.CanTransition(ops[o].log[i - 1], ops[o].log[i]); }
    }
  }

  lemma TransitionTies(ops: seq<Op>, rows: seq<Attempt>, o: nat, to: M.OpState)
    requires TiesOk(ops, rows) && o < |ops| && M.CanTransition(ops[o].state, to)
    ensures TiesOk(ops[o := ops[o].(state := to, log := ops[o].log + [to])], rows)
  {
    forall i: nat | i < |rows| ensures TieOk(ops[o := ops[o].(state := to, log := ops[o].log + [to])], rows[i]) {
      assert TieOk(ops, rows[i]);
    }
  }

  /** A logged transition, from however stale a record, keeps every invariant. */
  lemma TransitionKeeps(c: Config, base: nat, db: Db, o: nat, from: M.OpState, to: M.OpState)
    requires Inv(c, base, db) && Transition(db, o, from, to).Some?
    ensures Inv(c, base, Transition(db, o, from, to).value) && Grows(db, Transition(db, o, from, to).value)
  {
    TransitionOps(db.ops, o, to);
    TransitionTies(db.ops, db.attempts, o, to);
    var ops := db.ops[o := db.ops[o].(state := to, log := db.ops[o].log + [to])];
    forall k: nat | k < |ops| ensures ops[k].kind == db.ops[k].kind {}
    assert SyncsOk(ops);
    assert SyncOrder(ops, db.attempts);
  }

  lemma MoveIfKeeps(c: Config, base: nat, db: Db, o: nat, from: set<M.OpState>, to: M.OpState)
    requires Inv(c, base, db) && MoveIf(db, o, from, to).Some?
    ensures Inv(c, base, MoveIf(db, o, from, to).value) && Grows(db, MoveIf(db, o, from, to).value)
  {
    if o < |db.ops| && db.ops[o].state in from { TransitionKeeps(c, base, db, o, db.ops[o].state, to); }
  }

  lemma AdvanceKeeps(c: Config, base: nat, db: Db, o: nat, to: M.OpState)
    requires Inv(c, base, db)
    ensures Advance(db, o, to).Some?
    ensures Inv(c, base, Advance(db, o, to).value) && Grows(db, Advance(db, o, to).value)
  {
    if o < |db.ops| && M.CanTransition(db.ops[o].state, to) {
      TransitionKeeps(c, base, db, o, db.ops[o].state, to);
    }
  }

  /** Updating an attempt and moving an operation touch different tables, so their order does not matter. */
  lemma PutMoveCommute(db: Db, i: nat, a: Attempt, o: nat, to: M.OpState)
    requires Put(db, i, a).Some? && Move(Put(db, i, a).value, o, to).Some?
    ensures Move(db, o, to).Some? && Put(Move(db, o, to).value, i, a) == Move(Put(db, i, a).value, o, to)
  {
  }

  /** Put and then Move, for an update whose legality needs the state moved to. */
  lemma PutMoveKeeps(c: Config, base: nat, db: Db, i: nat, a: Attempt, o: nat, to: M.OpState)
    requires Inv(c, base, db) && Put(db, i, a).Some? && Move(Put(db, i, a).value, o, to).Some?
    requires Move(db, o, to).Some? ==> PutLegal(Move(db, o, to).value, i, a)
    ensures Inv(c, base, Move(Put(db, i, a).value, o, to).value)
    ensures Grows(db, Move(Put(db, i, a).value, o, to).value)
  {
    PutMoveCommute(db, i, a, o, to);
    TransitionKeeps(c, base, db, o, db.ops[o].state, to);
    PutKeeps(c, base, Move(db, o, to).value, i, a);
    GrowsTransitive(db, Move(db, o, to).value, Put(Move(db, o, to).value, i, a).value);
  }

  // ---------- transactions ----------

  /** The attempt belongs to this operation, which is out of failOperation's reach. */
  predicate Tied(db: Db, o: nat, i: nat) {
    i < |db.attempts| && db.attempts[i].core.op == Some(o) && o < |db.ops| && M.Protected(db.ops[o].state)
  }

  predicate HooksFit(db: Db, i: nat, h: Hooks) {
    && i < |db.attempts|
    && match h
       case Operation(o, _) => db.attempts[i].core.op == Some(o)
       case Replacement(o) => Tied(db, o, i) && db.attempts[i].core.supersedes.Some?
       case Recovery(o) => Tied(db, o, i)
       case NoHooks(_) => db.attempts[i].core.op.None?
  }

  lemma HooksStay(d: Db, e: Db, i: nat, h: Hooks)
    requires HooksFit(d, i, h) && Grows(d, e)
    ensures HooksFit(e, i, h)
  {
    assert AttemptKept(d.attempts[i], e.attempts[i]);
    if h.Replacement? || h.Recovery? { assert OpKept(d.ops[h.op], e.ops[h.op]); }
  }

  /** Nothing but the status (and what goes with it) of a row the hooks fit changes. */
  lemma StatusLegal(c: Config, base: nat, db: Db, i: nat, a: Attempt, ops: seq<Op>)
    requires Inv(c, base, db) && i < |db.attempts|
    requires a.core == db.attempts[i].core && a.replacedBy == db.attempts[i].replacedBy
    requires a.bytes == db.attempts[i].bytes && !a.status.Replaced?
    requires |ops| >= |db.ops| && forall o: nat | o < |db.ops| :: OpKept(db.ops[o], ops[o])
    requires Sendable(a.status) && a.core.op.Some? ==> a.core.op.value < |ops| && M.Protected(ops[a.core.op.value].state)
    ensures PutLegal(db.(ops := ops), i, a)
  {
    assert TieOk(db.ops, db.attempts[i]) && ShapeOk(c, db.attempts[i]);
    if a.core.op.Some? {
      assert OpKept(db.ops[a.core.op.value], ops[a.core.op.value]);
    }
  }

  lemma StatusKeeps(c: Config, base: nat, db: Db, i: nat, a: Attempt)
    requires Inv(c, base, db) && i < |db.attempts| && Put(db, i, a).Some?
    requires a.core == db.attempts[i].core && a.replacedBy == db.attempts[i].replacedBy
    requires a.bytes == db.attempts[i].bytes && !a.status.Replaced?
    requires Sendable(a.status) && a.core.op.Some? ==> Tied(db, a.core.op.value, i)
    ensures Inv(c, base, Put(db, i, a).value) && Grows(db, Put(db, i, a).value)
  {
    StatusLegal(c, base, db, i, a, db.ops);
    PutKeeps(c, base, db, i, a);
  }

  lemma StatusMoveKeeps(c: Config, base: nat, db: Db, i: nat, a: Attempt, o: nat, to: M.OpState)
    requires Inv(c, base, db) && i < |db.attempts| && Put(db, i, a).Some? && Move(Put(db, i, a).value, o, to).Some?
    requires a.core == db.attempts[i].core && a.replacedBy == db.attempts[i].replacedBy && a.core.op == Some(o)
    requires a.bytes == db.attempts[i].bytes && !a.status.Replaced?
    requires Sendable(a.status) ==> M.Protected(to)
    ensures Inv(c, base, Move(Put(db, i, a).value, o, to).value)
    ensures Grows(db, Move(Put(db, i, a).value, o, to).value)
  {
    PutMoveCommute(db, i, a, o, to);
    TransitionKeeps(c, base, db, o, db.ops[o].state, to);
    StatusLegal(c, base, db, i, a, Move(db, o, to).value.ops);
    PutMoveKeeps(c, base, db, i, a, o, to);
  }

  lemma FailAttemptKeeps(c: Config, base: nat, db: Db, i: nat, h: Hooks)
    requires Inv(c, base, db) && HooksFit(db, i, h) && FailAttemptTx(db, i, h).Some?
    ensures Inv(c, base, FailAttemptTx(db, i, h).value) && Grows(db, FailAttemptTx(db, i, h).value)
  {
    hide Inv, Grows, AttemptsOk;
    var a := db.attempts[i].(status := Failed);
    if h.Operation? { StatusMoveKeeps(c, base, db, i, a, h.op, M.Failed); } else { StatusKeeps(c, base, db, i, a); }
  }

  lemma BroadcastingKeeps(c: Config, base: nat, db: Db, i: nat, h: Hooks)
    requires Inv(c, base, db) && HooksFit(db, i, h) && BroadcastingTx(db, i, h).Some?
    ensures Inv(c, base, BroadcastingTx(db, i, h).value) && Grows(db, BroadcastingTx(db, i, h).value)
  {
    hide Inv, Grows, AttemptsOk;
    var a := db.attempts[i].(status := Broadcasting, sends := db.attempts[i].sends + 1);
    if h.Operation? { StatusMoveKeeps(c, base, db, i, a, h.op, M.Broadcasting); } else { StatusKeeps(c, base, db, i, a); }
  }

  /** An operation whose attempt has signed bytes is past signing. */
  lemma SignedIsPast(c: Config, base: nat, db: Db, i: nat)
    requires Inv(c, base, db) && i < |db.attempts| && db.attempts[i].bytes.Some? && db.attempts[i].core.op.Some?
    ensures var o := db.attempts[i].core.op.value;
            o < |db.ops| && (db.ops[o].state.Signed? || M.Protected(db.ops[o].state))
  {
    var o := db.attempts[i].core.op.value;
    assert TieOk(db.ops, db.attempts[i]);
    var log := db.ops[o].log;
    var k :| 0 <= k < |log| && log[k] == M.Signed;
    M.UnsignedIsPrefix(log, k, |log| - 1);
  }

  lemma ReplacementSigned(c: Config, base: nat, db: Db, i: nat)
    requires Inv(c, base, db) && i < |db.attempts| && db.attempts[i].core.op.Some? && db.attempts[i].core.supersedes.Some?
    ensures var o := db.attempts[i].core.op.value; o < |db.ops| && M.Signed in db.ops[o].log
  {
    assert ShapeOk(c, db.attempts[i]) && LinkOk(c, db.attempts, i) && TieOk(db.ops, db.attempts[i]);
    var p := db.attempts[i].core.supersedes.value;
    assert LinkOk(c, db.attempts, p) && RowChecks(db.attempts, p) && TieOk(db.ops, db.attempts[p]);
  }

  lemma PersistKeeps(c: Config, base: nat, db: Db, i: nat, bytes: SignedTx, h: Hooks)
    requires Inv(c, base, db) && HooksFit(db, i, h) && !h.Recovery? && PersistTx(db, i, bytes, h).Some?
    requires Decodes(bytes, db.attempts[i].core.request)
    requires db.attempts[i].bytes.Some? ==> db.attempts[i].bytes.value == bytes
    ensures Inv(c, base, PersistTx(db, i, bytes, h).value) && Grows(db, PersistTx(db, i, bytes, h).value)
    ensures PersistTx(db, i, bytes, h).value.attempts[i].bytes == Some(bytes)
  {
    var a := db.attempts[i].(bytes := Some(bytes), status := Signed);
    assert TieOk(db.ops, db.attempts[i]);
    var d := RequestTx(db, i, SignatureGiven);
    assert Put(d, i, a) == Some(RequestTx(Put(db, i, a).value, i, SignatureGiven));
    if h.Operation? {
      PutMoveCommute(d, i, a, h.op, M.Signed);
      PutMoveKeeps(c, base, d, i, a, h.op, M.Signed);
    } else {
      if h.Replacement? { ReplacementSigned(c, base, db, i); }
      PutKeeps(c, base, d, i, a);
    }
  }

  lemma OutcomeKeeps(c: Config, base: nat, db: Db, i: nat, h: Hooks, r: SendResult)
    requires Inv(c, base, db) && HooksFit(db, i, h) && OutcomeTx(db, i, h, r).Some?
    ensures Inv(c, base, OutcomeTx(db, i, h, r).value) && Grows(db, OutcomeTx(db, i, h, r).value)
  {
    hide Inv, Grows, AttemptsOk;
    var status := match r case Accepted => Submitted case DeterministicRejection => Failed case Ambiguous => BroadcastUnknown;
    var to := match r case Accepted => M.Submitted case DeterministicRejection => M.Failed case Ambiguous => M.BroadcastUnknown;
    var a := db.attempts[i].(status := status);
    if h.Operation? {
      StatusMoveKeeps(c, base, db, i, a, h.op, to);
    } else {
      StatusKeeps(c, base, db, i, a);
      var d := Put(db, i, a).value;
      if !r.DeterministicRejection? {
        if h.Replacement? {
          AdvanceKeeps(c, base, d, h.op, to);
          GrowsTransitive(db, d, Advance(d, h.op, to).value);
        } else if h.Recovery? {
          MoveIfKeeps(c, base, d, h.op, {M.Broadcasting}, to);
          GrowsTransitive(db, d, MoveIf(d, h.op, {M.Broadcasting}, to).value);
        }
      }
    }
  }

  /** Whatever state it was read in, failOperation does not touch an operation whose bytes are about to be sent again. */
  lemma RebroadcastMoves(c: Config, base: nat, db: Db, o: nat, i: nat)
    requires Inv(c, base, db) && i < |db.attempts| && db.attempts[i].core.op == Some(o) && db.attempts[i].bytes.Some?
    ensures var d := MoveIf(db, o, {M.BroadcastUnknown, M.Signed}, M.Broadcasting);
            d.Some? && Inv(c, base, d.value) && Grows(db, d.value) && Tied(d.value, o, i)
  {
    SignedIsPast(c, base, db, i);
    MoveIfKeeps(c, base, db, o, {M.BroadcastUnknown, M.Signed}, M.Broadcasting);
  }

  lemma SetBroadcastingKeeps(c: Config, base: nat, db: Db, o: nat, i: nat)
    requires Inv(c, base, db) && Tied(db, o, i) && SetBroadcasting(db, i).Some?
    ensures Inv(c, base, SetBroadcasting(db, i).value) && Grows(db, SetBroadcasting(db, i).value)
  {
    hide Inv, Grows, AttemptsOk;
    var a := db.attempts[i].(status := Broadcasting, sends := db.attempts[i].sends + 1);
    assert SetBroadcasting(db, i) == Put(db, i, a);
    StatusKeeps(c, base, db, i, a);
  }

  lemma RebroadcastKeeps(c: Config, base: nat, db: Db, o: nat, i: nat)
    requires Inv(c, base, db) && i < |db.attempts| && db.attempts[i].core.op == Some(o) && db.attempts[i].bytes.Some?
    requires RebroadcastTx(db, o, i).Some?
    ensures Inv(c, base, RebroadcastTx(db, o, i).value) && Grows(db, RebroadcastTx(db, o, i).value)
    ensures Tied(RebroadcastTx(db, o, i).value, o, i)
  {
    hide Inv, Grows, AttemptsOk;
    RebroadcastMoves(c, base, db, o, i);
    var d := MoveIf(db, o, {M.BroadcastUnknown, M.Signed}, M.Broadcasting).value;
    SetBroadcastingKeeps(c, base, d, o, i);
    GrowsTransitive(db, d, SetBroadcasting(d, i).value);
    assert SetBroadcasting(d, i).value.ops == d.ops;
  }

  lemma FailingKeeps(c: Config, base: nat, db: Db, o: nat, i: Option<nat>)
    requires Inv(c, base, db) && Move(db, o, M.Failed).Some?
    requires i.Some? ==> i.value < |db.attempts| && SetStatus(Move(db, o, M.Failed).value, i.value, Failed).Some?
    ensures var d := Move(db, o, M.Failed).value;
            var e := if i.Some? then SetStatus(d, i.value, Failed).value else d;
            Inv(c, base, e) && Grows(db, e)
  {
    hide Inv, Grows, AttemptsOk;
    var d := Move(db, o, M.Failed).value;
    TransitionKeeps(c, base, db, o, db.ops[o].state, M.Failed);
    if i.Some? {
      StatusKeeps(c, base, d, i.value, d.attempts[i.value].(status := Failed));
      GrowsTransitive(db, d, SetStatus(d, i.value, Failed).value);
    }
  }

  lemma AbandonKeeps(c: Config, base: nat, db: Db, o: nat, i: Option<nat>)
    requires Inv(c, base, db) && AbandonTx(db, o, i).Some? && (i.Some? ==> i.value < |db.attempts|)
    ensures Inv(c, base, AbandonTx(db, o, i).value) && Grows(db, AbandonTx(db, o, i).value)
  {
    hide Inv, Grows, AttemptsOk;
    GrowsReflexive(db);
    if o < |db.ops| && (db.ops[o].state.Preparing? || db.ops[o].state.Signing?) { FailingKeeps(c, base, db, o, i); }
  }

  lemma FailOperationKeeps(c: Config, base: nat, db: Db, o: nat)
    requires Inv(c, base, db) && FailOperationTx(db, o).Some?
    ensures Inv(c, base, FailOperationTx(db, o).value) && Grows(db, FailOperationTx(db, o).value)
  {
    hide Inv, Grows, AttemptsOk;
    GrowsReflexive(db);
    if o < |db.ops| && !M.Protected(db.ops[o].state) {
      var d := Move(db, o, M.Failed).value;
      var latest := Latest(d, o);
      FailingKeeps(c, base, db, o,
                   if latest.Some? && d.attempts[latest.value].status.Prepared? then latest else None);
    }
  }

  lemma ReceiptKeeps(c: Config, base: nat, db: Db, i: nat, ok: bool, block: BlockRef)
    requires Inv(c, base, db) && i < |db.attempts| && RecordReceipt(db, i, ok, block).Some?
    requires db.attempts[i].core.op.Some? ==> Tied(db, db.attempts[i].core.op.value, i)
    ensures Inv(c, base, RecordReceipt(db, i, ok, block).value) && Grows(db, RecordReceipt(db, i, ok, block).value)
  {
    hide Inv, Grows, AttemptsOk;
    GrowsReflexive(db);
    var a := db.attempts[i].(status := if ok then Included else Reverted, block := Some(block));
    if !(db.attempts[i].status.Confirmed? || db.attempts[i].status.Reverted?) { StatusKeeps(c, base, db, i, a); }
  }

  lemma IncludeKeeps(c: Config, base: nat, db: Db, o: nat, i: nat, ok: bool, block: BlockRef)
    requires Inv(c, base, db) && Tied(db, o, i) && IncludeTx(db, o, i, ok, block).Some?
    ensures Inv(c, base, IncludeTx(db, o, i, ok, block).value) && Grows(db, IncludeTx(db, o, i, ok, block).value)
  {
    hide Inv, Grows, AttemptsOk;
    MoveIfKeeps(c, base, db, o, {M.Submitted}, M.Included);
    var d := MoveIf(db, o, {M.Submitted}, M.Included).value;
    ReceiptKeeps(c, base, d, i, ok, block);
    GrowsTransitive(db, d, RecordReceipt(d, i, ok, block).value);
  }

  lemma SideTablesKeep(c: Config, base: nat, db: Db, requests: map<nat, RequestStatus>, obs: seq<Observation>)
    requires Inv(c, base, db)
    ensures Inv(c, base, db.(requests := requests, observations := obs))
  {
  }

  lemma InvalidatedGrows(db: Db, i: nat)
    ensures Grows(db, db.(observations := Invalidated(db.observations, i)))
  {
  }

  lemma ObserveGrows(db: Db, obs: Observation)
    ensures Grows(db, Observe(db, obs))
  {
  }

  lemma ReorgKeeps(c: Config, base: nat, db: Db, o: nat, i: nat)
    requires Inv(c, base, db) && Tied(db, o, i) && ReorgTx(db, o, i).Some?
    ensures Inv(c, base, ReorgTx(db, o, i).value) && Grows(db, ReorgTx(db, o, i).value)
  {
    hide Inv, Grows, AttemptsOk;
    var d := db.(observations := Invalidated(db.observations, i));
    var a := d.attempts[i].(status := Submitted, block := None);
    SideTablesKeep(c, base, db, db.requests, d.observations);
    StatusKeeps(c, base, d, i, a);
    var e := Put(d, i, a).value;
    var f := Observe(e, Observation(Some(i), false, false));
    SideTablesKeep(c, base, e, e.requests, f.observations);
    MoveIfKeeps(c, base, f, o, {M.Included}, M.Submitted);
    InvalidatedGrows(db, i);
    ObserveGrows(e, Observation(Some(i), false, false));
    GrowsTransitive(db, d, e);
    GrowsTransitive(db, e, f);
    GrowsTransitive(db, f, ReorgTx(db, o, i).value);
  }

  lemma SettleKeeps(c: Config, base: nat, db: Db, o: nat, i: nat, to: M.OpState)
    requires Inv(c, base, db) && Tied(db, o, i) && SettleTx(db, o, i, to).Some?
    ensures Inv(c, base, SettleTx(db, o, i, to).value) && Grows(db, SettleTx(db, o, i, to).value)
  {
    hide Inv, Grows, AttemptsOk;
    GrowsReflexive(db);
    if db.ops[o].state != to {
      var d := Move(db, o, to).value;
      var status := if to.Succeeded? then Confirmed else Reverted;
      TransitionKeeps(c, base, db, o, db.ops[o].state, to);
      StatusKeeps(c, base, d, i, d.attempts[i].(status := status));
      GrowsTransitive(db, d, SetStatus(d, i, status).value);
    }
  }

  lemma ConfirmRecoveryKeeps(c: Config, base: nat, db: Db, i: nat, ok: bool, block: BlockRef, final: bool)
    requires Inv(c, base, db) && i < |db.attempts| && db.attempts[i].core.op.None?
    requires ConfirmRecoveryTx(db, i, ok, block, final).Some?
    ensures Inv(c, base, ConfirmRecoveryTx(db, i, ok, block, final).value)
    ensures Grows(db, ConfirmRecoveryTx(db, i, ok, block, final).value)
  {
    hide Inv, Grows, AttemptsOk;
    ReceiptKeeps(c, base, db, i, ok, block);
    var d := RecordReceipt(db, i, ok, block).value;
    var e := Observe(d, Observation(Some(i), true, ok));
    SideTablesKeep(c, base, d, d.requests, e.observations);
    ObserveGrows(d, Observation(Some(i), true, ok));
    GrowsTransitive(db, d, e);
    if final && ok {
      StatusKeeps(c, base, e, i, e.attempts[i].(status := Confirmed));
      GrowsTransitive(db, e, SetStatus(e, i, Confirmed).value);
    }
  }

  lemma InsertOpKeeps(c: Config, base: nat, db: Db, kind: Kind, state: M.OpState)
    requires Inv(c, base, db) && KindOk(kind) && (state.PendingApproval? || state.Ready?)
    requires forall i: nat | i < |db.ops| && SamePair(db.ops[i].kind, kind) :: M.Terminal(db.ops[i].state)
    requires InsertOp(db, kind, state).Some?
    ensures Inv(c, base, InsertOp(db, kind, state).value) && Grows(db, InsertOp(db, kind, state).value)
  {
    var ops := db.ops + [Op(kind, state, [state])];
    forall i: nat | i < |db.attempts| ensures TieOk(ops, db.attempts[i]) {
      assert TieOk(db.ops, db.attempts[i]);
    }
    forall x: nat, y: nat | x < |db.attempts| && y < |db.attempts|
                            && db.attempts[x].core.op.Some? && db.attempts[y].core.op.Some?
      ensures db.attempts[x].core.op.value < |db.ops| && db.attempts[y].core.op.value < |db.ops|
    {
      assert TieOk(db.ops, db.attempts[x]) && TieOk(db.ops, db.attempts[y]);
    }
  }

  lemma EnqueueSyncKeeps(c: Config, base: nat, db: Db, kind: Kind)
    requires Inv(c, base, db) && kind.SyncOp? && EnqueueSyncTx(db, kind).Some?
    ensures Inv(c, base, EnqueueSyncTx(db, kind).value) && Grows(db, EnqueueSyncTx(db, kind).value)
  {
    var live := LiveSyncBelow(db.ops, kind, |db.ops|);
    if live.None? {
      InsertOpKeeps(c, base, db, kind, M.Ready);
    } else {
      var d := Move(db, live.value, M.Cancelled).value;
      TransitionKeeps(c, base, db, live.value, M.Ready, M.Cancelled);
      forall i: nat | i < |d.ops| && SamePair(d.ops[i].kind, kind) ensures M.Terminal(d.ops[i].state) {
        if i < live.value {
          assert SamePair(db.ops[i].kind, db.ops[live.value].kind);
        } else if i > live.value {
          assert SamePair(db.ops[live.value].kind, db.ops[i].kind);
        }
      }
      InsertOpKeeps(c, base, d, kind, M.Ready);
      GrowsTransitive(db, d, InsertOp(d, kind, M.Ready).value);
    }
  }

  // ---------- new attempts ----------

  lemma AppendRows(c: Config, rows: seq<Attempt>, core: Core)
    requires RowsOk(c, rows) && ShapeOk(c, Fresh(core)) && core.supersedes.None?
    ensures RowsOk(c, rows + [Fresh(core)])
  {
    var out := rows + [Fresh(core)];
    forall k: nat | k < |out| ensures ShapeOk(c, out[k]) && LinkOk(c, out, k) {
      if k < |rows| { assert ShapeOk(c, rows[k]) && LinkOk(c, rows, k); }
    }
  }

  lemma AppendLane(base: nat, rows: seq<Attempt>, lane: Option<nat>, core: Core, chainNonce: nat)
    requires LaneOk(base, rows, lane) && (lane.None? ==> chainNonce == base)
    requires core.request.nonce == if lane.Some? then lane.value else chainNonce
    ensures LaneOk(base, rows + [Fresh(core)], Some(core.request.nonce + 1))
  {
    var out := rows + [Fresh(core)];
    forall n: nat | base <= n < core.request.nonce + 1 ensures Held(out, n) {
      if n == core.request.nonce {
        assert Holds(out, |rows|, n);
      } else {
        assert Held(rows, n);
        var h: nat :| Holds(rows, h, n);
        assert Holds(out, h, n);
      }
    }
  }

  /** Before its first attempt an operation has none. */
  lemma NoEarlierAttempt(ops: seq<Op>, rows: seq<Attempt>, o: nat, k: nat)
    requires TiesOk(ops, rows) && o < |ops| && NoAttempt(ops[o].state) && k < |rows|
    ensures rows[k].core.op != Some(o)
  {
    assert TieOk(ops, rows[k]);
  }

  lemma AppendIntents(ops: seq<Op>, rows: seq<Attempt>, o: nat, core: Core)
    requires IntentsOk(rows) && TiesOk(ops, rows) && o < |ops| && NoAttempt(ops[o].state) && core.op == Some(o)
    ensures IntentsOk(rows + [Fresh(core)])
  {
    var out := rows + [Fresh(core)];
    forall i: nat, j: nat | i < j < |out| && out[i].core.op.Some? && out[i].core.op == out[j].core.op
      ensures SameIntent(out[i].core, out[j].core) && out[j].core.supersedes.Some?
    {
      NoEarlierAttempt(ops, rows, o, i);
    }
  }

  lemma AppendOrder(base: nat, ops: seq<Op>, rows: seq<Attempt>, lane: Option<nat>, o: nat, core: Core)
    requires SyncOrder(ops, rows) && SyncsOk(ops) && TiesOk(ops, rows) && LaneOk(base, rows, lane)
    requires o < |ops| && ops[o].state.Preparing? && core.op == Some(o)
    requires lane.Some? ==> core.request.nonce == lane.value
    ensures SyncOrder(ops, rows + [Fresh(core)])
  {
    var out := rows + [Fresh(core)];
    forall x: nat, y: nat | x < |out| && y < |out| && out[x].core.op.Some? && out[y].core.op.Some?
      ensures var i, j := out[x].core.op.value, out[y].core.op.value;
              i < j < |ops| && SamePair(ops[i].kind, ops[j].kind) ==> out[x].core.request.nonce < out[y].core.request.nonce
    {
      var i, j := out[x].core.op.value, out[y].core.op.value;
      if i < j < |ops| && SamePair(ops[i].kind, ops[j].kind) {
        assert M.Terminal(ops[i].state);
        assert x < |rows|;
      }
    }
  }

  function PreparedCore(c: Config, db: Db, o: nat, purpose: Purpose, to: Option<Address>, data: Data, gas: nat,
                        fees: Fee.Fees, chainNonce: nat): Core
  {
    var nonce := if db.lane.Some? then db.lane.value else chainNonce;
    Core(Some(o), purpose, Request(c.chainId, c.signer, to, nonce, 0, data, gas, fees.maxFee, fees.priority), None, 0)
  }

  lemma PrepareWrites(c: Config, db: Db, o: nat, purpose: Purpose, to: Option<Address>, data: Data, gas: nat,
                      fees: Fee.Fees, chainNonce: nat)
    requires PrepareTx(c, db, o, purpose, to, data, gas, fees, chainNonce).Some?
    ensures var core := PreparedCore(c, db, o, purpose, to, data, gas, fees, chainNonce);
            && o < |db.ops| && M.CanTransition(db.ops[o].state, M.Signing)
            && AttemptsOk(db.attempts + [Fresh(core)])
            && PrepareTx(c, db, o, purpose, to, data, gas, fees, chainNonce).value ==
               db.(ops := db.ops[o := db.ops[o].(state := M.Signing, log := db.ops[o].log + [M.Signing])],
                   attempts := db.attempts + [Fresh(core)], lane := Some(core.request.nonce + 1))
  {
    hide AttemptsOk;
  }

  lemma AppendGrows(db: Db, o: nat, core: Core)
    requires o < |db.ops| && db.ops[o].state.Preparing? && (db.lane.Some? ==> db.lane.value == core.request.nonce)
    ensures Grows(db, db.(ops := db.ops[o := db.ops[o].(state := M.Signing, log := db.ops[o].log + [M.Signing])],
                          attempts := db.attempts + [Fresh(core)], lane := Some(core.request.nonce + 1)))
  {
  }

  /** The first attempt of an operation: nonce, row and PREPARING -> SIGNING together. */
  lemma PrepareKeeps(c: Config, base: nat, db: Db, o: nat, purpose: Purpose, to: Option<Address>, data: Data, gas: nat,
                     fees: Fee.Fees, chainNonce: nat)
    requires Inv(c, base, db) && PrepareTx(c, db, o, purpose, to, data, gas, fees, chainNonce).Some?
    requires o < |db.ops| && Serves(db.ops[o].kind, purpose, to, data) && Fee.Ordered(fees)
    requires db.lane.None? ==> chainNonce == base
    ensures var e := PrepareTx(c, db, o, purpose, to, data, gas, fees, chainNonce).value;
            && Inv(c, base, e) && Grows(db, e) && |e.attempts| == |db.attempts| + 1
            && e.attempts[|db.attempts|].core.op == Some(o)
  {
    hide PrepareTx, AttemptsOk, RowsOk, LaneOk, TiesOk, IntentsOk, OpsOk, SyncsOk, SyncOrder, Grows;
    PrepareWrites(c, db, o, purpose, to, data, gas, fees, chainNonce);
    var core := PreparedCore(c, db, o, purpose, to, data, gas, fees, chainNonce);
    AppendRows(c, db.attempts, core);
    AppendLane(base, db.attempts, db.lane, core, chainNonce);
    AppendIntents(db.ops, db.attempts, o, core);
    AppendOrder(base, db.ops, db.attempts, db.lane, o, core);
    TransitionOps(db.ops, o, M.Signing);
    TransitionTies(db.ops, db.attempts, o, M.Signing);
    PrepareTies(db.ops[o := db.ops[o].(state := M.Signing, log := db.ops[o].log + [M.Signing])], db.attempts, core);
    PrepareSyncs(db.ops, db.attempts + [Fresh(core)], o);
    AppendGrows(db, o, core);
  }

  lemma PrepareTies(ops: seq<Op>, rows: seq<Attempt>, core: Core)
    requires TiesOk(ops, rows) && TieOk(ops, Fresh(core))
    ensures TiesOk(ops, rows + [Fresh(core)])
  {
  }

  lemma PrepareSyncs(ops: seq<Op>, rows: seq<Attempt>, o: nat)
    requires SyncsOk(ops) && SyncOrder(ops, rows) && o < |ops| && ops[o].state.Preparing?
    ensures SyncsOk(ops[o := ops[o].(state := M.Signing, log := ops[o].log + [M.Signing])])
    ensures SyncOrder(ops[o := ops[o].(state := M.Signing, log := ops[o].log + [M.Signing])], rows)
  {
    var out := ops[o := ops[o].(state := M.Signing, log := ops[o].log + [M.Signing])];
    forall k: nat | k < |out| ensures out[k].kind == ops[k].kind {}
  }

  function Retired(rows: seq<Attempt>, p: nat, core: Core): seq<Attempt>
    requires p < |rows|
  {
    rows[p := rows[p].(status := Replaced, replacedBy := Some(|rows|))] + [Fresh(core)]
  }

  lemma RetireRows(c: Config, rows: seq<Attempt>, p: nat, core: Core)
    requires RowsOk(c, rows) && p < |rows| && !rows[p].status.Replaced?
    requires ShapeOk(c, Fresh(core)) && core.supersedes == Some(p) && Follows(c, rows[p].core, core)
    ensures RowsOk(c, Retired(rows, p, core))
  {
    var out := Retired(rows, p, core);
    assert ShapeOk(c, rows[p]) && LinkOk(c, rows, p);
    forall k: nat | k < |out| ensures ShapeOk(c, out[k]) && LinkOk(c, out, k) {
      if k < |rows| {
        assert ShapeOk(c, rows[k]) && LinkOk(c, rows, k);
        assert out[k].core == rows[k].core;
        if rows[k].core.supersedes.Some? {
          assert rows[k].core.supersedes.value != p;
        }
      }
    }
  }

  lemma RetireLane(base: nat, rows: seq<Attempt>, lane: Option<nat>, p: nat, core: Core)
    requires LaneOk(base, rows, lane) && p < |rows| && core.request.nonce == rows[p].core.request.nonce
    ensures LaneOk(base, Retired(rows, p, core), lane)
  {
    var out := Retired(rows, p, core);
    forall n: nat | base <= n < lane.value ensures Held(out, n) {
      assert Held(rows, n);
      var h: nat :| Holds(rows, h, n);
      if h == p { assert Holds(out, |rows|, n); } else { assert Holds(out, h, n); }
    }
    forall k: nat | k < |out| ensures base <= out[k].core.request.nonce < lane.value {
      if k < |rows| { assert out[k].core == rows[k].core; }
    }
  }

  lemma RetireTies(ops: seq<Op>, rows: seq<Attempt>, p: nat, core: Core)
    requires TiesOk(ops, rows) && p < |rows|
    requires core.op.None? || (core.op == rows[p].core.op && SameIntent(rows[p].core, core))
    ensures TiesOk(ops, Retired(rows, p, core))
  {
    var out := Retired(rows, p, core);
    assert TieOk(ops, rows[p]);
    forall k: nat | k < |out| ensures TieOk(ops, out[k]) {
      if k < |rows| { assert TieOk(ops, rows[k]); }
    }
  }

  lemma RetirePairs(ops: seq<Op>, rows: seq<Attempt>, p: nat, core: Core)
    requires IntentsOk(rows) && SyncOrder(ops, rows) && p < |rows| && core.supersedes.Some?
    requires core.op.None? || (core.op == rows[p].core.op && SameIntent(rows[p].core, core))
    ensures IntentsOk(Retired(rows, p, core)) && SyncOrder(ops, Retired(rows, p, core))
  {
    var out := Retired(rows, p, core);
    forall k: nat | k < |rows| ensures out[k].core == rows[k].core {}
    forall i: nat, j: nat | i < j < |out| && out[i].core.op.Some? && out[i].core.op == out[j].core.op
      ensures SameIntent(out[i].core, out[j].core) && out[j].core.supersedes.Some?
    {
      if j == |rows| {
        if i < p { assert SameIntent(rows[i].core, rows[p].core); }
        if p < i { assert SameIntent(rows[p].core, rows[i].core); }
      }
    }
    forall x: nat, y: nat | x < |out| && y < |out| && out[x].core.op.Some? && out[y].core.op.Some?
      ensures var i, j := out[x].core.op.value, out[y].core.op.value;
              i < j < |ops| && SamePair(ops[i].kind, ops[j].kind) ==> out[x].core.request.nonce < out[y].core.request.nonce
    {
      var x', y' := if x == |rows| then p else x, if y == |rows| then p else y;
      assert rows[x'].core.op == out[x].core.op && rows[x'].core.request.nonce == out[x].core.request.nonce;
      assert rows[y'].core.op == out[y].core.op && rows[y'].core.request.nonce == out[y].core.request.nonce;
    }
  }

  /** Retiring an attempt, inserting its replacement and linking them. */
  lemma ReplaceKeeps(c: Config, base: nat, db: Db, p: nat, core: Core)
    requires Inv(c, base, db) && ReplaceTx(db, p, core).Some?
    requires ShapeOk(c, Fresh(core)) && core.supersedes == Some(p) && Follows(c, db.attempts[p].core, core)
    requires core.op.None? || (core.op == db.attempts[p].core.op && SameIntent(db.attempts[p].core, core))
    ensures Inv(c, base, ReplaceTx(db, p, core).value) && Grows(db, ReplaceTx(db, p, core).value)
    ensures ReplaceTx(db, p, core).value.attempts == Retired(db.attempts, p, core)
  {
    RetireRows(c, db.attempts, p, core);
    RetireLane(base, db.attempts, db.lane, p, core);
    RetireTies(db.ops, db.attempts, p, core);
    RetirePairs(db.ops, db.attempts, p, core);
    assert LinkOk(c, db.attempts, p);
  }
}
