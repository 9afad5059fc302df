/** For every transaction on an attempt: exactly when its constraints and guards let it commit, and everything it
    changes then. */
module Commits {
  import opened CanonicalJson
  import opened SignedTransaction
  import opened Tables
  import opened TableInvariants
  import opened BlockedLane
  import Fee = TransactionIntent
  import M = OperationMachine

  predicate Live(db: Db, i: nat) { i < |db.attempts| && !db.attempts[i].status.Replaced? }

  /** The operation may move on to `to`. */
  predicate May(db: Db, o: nat, to: M.OpState) { o < |db.ops| && M.CanTransition(db.ops[o].state, to) }

  // ---------- the latest attempt ----------

  lemma {:induction false} LatestBelowExactly(rows: seq<Attempt>, o: nat, n: nat)
    requires n <= |rows|
    ensures match LatestBelow(rows, o, n)
            case Some(i) => i < n && rows[i].core.op == Some(o) && forall j: nat | i < j < n :: rows[j].core.op != Some(o)
            case None => forall j: nat | j < n :: rows[j].core.op != Some(o)
  {
    if n > 0 && rows[n - 1].core.op != Some(o) { LatestBelowExactly(rows, o, n - 1); }
  }

  /** The query finds the operation's attempt at the greatest position, and nothing exactly when it has none. */
  lemma LatestExactly(db: Db, o: nat)
    ensures forall i: nat :: Latest(db, o) == Some(i) <==> IsLatest(db.attempts, o, i)
    ensures Latest(db, o).None? <==> forall i: nat | i < |db.attempts| :: db.attempts[i].core.op != Some(o)
  {
    LatestBelowExactly(db.attempts, o, |db.attempts|);
  }

  // ---------- what a transaction changes ----------

  /** Attempt `i` has a new status, and the operation `who` (if any) has moved to `to` with one more log entry; apart
      from that the tables of attempts, operations and nonces are as they were, bytes and links included. */
  ghost predicate Marked(d: Db, e: Db, i: nat, status: Status, who: Option<nat>, to: M.OpState) {
    && |e.attempts| == |d.attempts| && |e.ops| == |d.ops| && e.lane == d.lane
    && i < |d.attempts| && e.attempts[i].status == status
    && e.attempts[i].core == d.attempts[i].core && e.attempts[i].replacedBy == d.attempts[i].replacedBy
    && (forall k: nat | k < |d.attempts| && k != i :: e.attempts[k] == d.attempts[k])
    && (forall o: nat | o < |d.ops| :: if who == Some(o) then Moved(d.ops[o], e.ops[o], to) else e.ops[o] == d.ops[o])
  }

  predicate Moved(p: Op, q: Op, to: M.OpState) { q.kind == p.kind && q.state == to && q.log == p.log + [to] }

  function Executor(h: Hooks): Option<nat> { if h.Operation? then Some(h.op) else None }

  lemma SetStatusMarks(db: Db, i: nat, status: Status, to: M.OpState)
    requires i < |db.attempts| && SetStatus(db, i, status).Some?
    ensures var e := SetStatus(db, i, status).value;
            Marked(db, e, i, status, None, to) && e.attempts[i].bytes == db.attempts[i].bytes
            && e.requests == db.requests && e.observations == db.observations
  {
    hide AttemptsOk;
  }

  lemma MoveMarks(db: Db, d: Db, i: nat, status: Status, o: nat, to: M.OpState)
    requires Marked(db, d, i, status, None, to) && d.ops == db.ops
    ensures Move(d, o, to).Some? <==> May(db, o, to)
    ensures Move(d, o, to).Some? ==>
              var e := Move(d, o, to).value;
              Marked(db, e, i, status, Some(o), to) && e.attempts == d.attempts
  {
  }

  /** Failing an attempt: under the executor's hooks only together with its operation. */
  lemma FailAttemptExactly(c: Config, base: nat, db: Db, i: nat, h: Hooks)
    requires Inv(c, base, db) && HooksFit(db, i, h)
    ensures FailAttemptTx(db, i, h).Some? <==> Live(db, i) && (h.Operation? ==> May(db, h.op, M.Failed))
    ensures FailAttemptTx(db, i, h).Some? ==> Marked(db, FailAttemptTx(db, i, h).value, i, Failed, Executor(h), M.Failed)
  {
    hide Inv, Marked;
    StatusExactly(c, base, db, i, Failed);
    StatusThenMove(db, i, Failed, h, M.Failed);
  }

  lemma StatusThenMove(db: Db, i: nat, status: Status, h: Hooks, to: M.OpState)
    requires i < |db.attempts|
    ensures var d := SetStatus(db, i, status);
            d.Some? ==>
              && Marked(db, d.value, i, status, None, to)
              && (h.Operation? ==>
                    && (Move(d.value, h.op, to).Some? <==> May(db, h.op, to))
                    && (Move(d.value, h.op, to).Some? ==> Marked(db, Move(d.value, h.op, to).value, i, status, Some(h.op), to)))
  {
    hide Marked, AttemptsOk;
    if SetStatus(db, i, status).Some? {
      SetStatusMarks(db, i, status, to);
      if h.Operation? { MoveMarks(db, SetStatus(db, i, status).value, i, status, h.op, to); }
    }
  }

  function StatusAfter(r: SendResult): Status {
    match r case Accepted => Submitted case DeterministicRejection => Failed case Ambiguous => BroadcastUnknown
  }

  function StateAfter(r: SendResult): M.OpState {
    match r case Accepted => M.Submitted case DeterministicRejection => M.Failed case Ambiguous => M.BroadcastUnknown
  }

  /** The operation an answer of the node moves: always under the executor's hooks, where the machine allows it under
      the replacement's, from BROADCASTING under recovery's; and only the executor fails it. */
  function Mover(db: Db, h: Hooks, r: SendResult): Option<nat> {
    match h
    case Operation(o, _) => Some(o)
    case Replacement(o) => if !r.DeterministicRejection? && May(db, o, StateAfter(r)) then Some(o) else None
    case Recovery(o) => if !r.DeterministicRejection? && o < |db.ops| && db.ops[o].state.Broadcasting? then Some(o) else None
    case NoHooks(_) => None
  }

  /** The answer of the node is recorded exactly while the attempt was not replaced and, under the executor's hooks, its
      operation may still take it; the attempt takes the status and the operation the state that go with it. */
  lemma OutcomeExactly(c: Config, base: nat, db: Db, i: nat, h: Hooks, r: SendResult)
    requires Inv(c, base, db) && HooksFit(db, i, h) && db.attempts[i].bytes.Some?
    ensures OutcomeTx(db, i, h, r).Some? <==> Live(db, i) && (h.Operation? ==> May(db, h.op, StateAfter(r)))
    ensures OutcomeTx(db, i, h, r).Some? ==>
              Marked(db, OutcomeTx(db, i, h, r).value, i, StatusAfter(r), Mover(db, h, r), StateAfter(r))
  {
    hide Inv, Marked, AttemptsOk, SetStatus;
    StatusExactly(c, base, db, i, StatusAfter(r));
    var d := SetStatus(db, i, StatusAfter(r));
    if d.Some? {
      SetStatusMarks(db, i, StatusAfter(r), StateAfter(r));
      OpsKept(db, i, StatusAfter(r));
      if !h.NoHooks? { MoveMarks(db, d.value, i, StatusAfter(r), h.op, StateAfter(r)); }
    }
  }

  lemma OpsKept(db: Db, i: nat, status: Status)
    requires SetStatus(db, i, status).Some?
    ensures SetStatus(db, i, status).value.ops == db.ops
  {
  }

  /** BROADCASTING is committed before a send exactly while the attempt was not replaced and, under the executor's
      hooks, its operation may still be broadcast; the send is counted. */
  lemma BroadcastingExactly(c: Config, base: nat, db: Db, i: nat, h: Hooks)
    requires Inv(c, base, db) && HooksFit(db, i, h) && db.attempts[i].bytes.Some?
    ensures BroadcastingTx(db, i, h).Some? <==> Live(db, i) && (h.Operation? ==> May(db, h.op, M.Broadcasting))
    ensures BroadcastingTx(db, i, h).Some? ==>
              var e := BroadcastingTx(db, i, h).value;
              Marked(db, e, i, Broadcasting, Executor(h), M.Broadcasting) && e.attempts[i].sends == db.attempts[i].sends + 1
  {
    hide Inv, Marked;
    var a := db.attempts[i].(status := Broadcasting, sends := db.attempts[i].sends + 1);
    LaneOf(c, base, db);
    if Live(db, i) { PutExactly(db, i, a); } else { RetiredRowsStay(base, db, i, a); }
    if Put(db, i, a).Some? {
      PutMarks(db, i, a, M.Broadcasting);
      if h.Operation? { MoveMarks(db, Put(db, i, a).value, i, Broadcasting, h.op, M.Broadcasting); }
    }
  }

  lemma PutMarks(db: Db, i: nat, a: Attempt, to: M.OpState)
    requires i < |db.attempts| && Put(db, i, a).Some?
    requires a.core == db.attempts[i].core && a.replacedBy == db.attempts[i].replacedBy
    ensures Marked(db, Put(db, i, a).value, i, a.status, None, to) && Put(db, i, a).value.ops == db.ops
    ensures Put(db, i, a).value.attempts[i] == a
  {
  }

  /** Verified bytes are stored exactly while the attempt was not replaced, no other attempt has them and, under the
      executor's hooks, the operation is in SIGNING; the request is marked signed with them. */
  lemma PersistExactly(c: Config, base: nat, db: Db, i: nat, tx: SignedTx, h: Hooks)
    requires Inv(c, base, db) && HooksFit(db, i, h)
    ensures PersistTx(db, i, tx, h).Some? <==>
              && Live(db, i) && (h.Operation? ==> May(db, h.op, M.Signed))
              && forall k: nat | k < |db.attempts| && k != i :: db.attempts[k].bytes != Some(tx)
    ensures PersistTx(db, i, tx, h).Some? ==>
              var e := PersistTx(db, i, tx, h).value;
              && Marked(db, e, i, Status.Signed, Executor(h), M.Signed)
              && e.attempts[i].bytes == Some(tx) && e.requests == db.requests[i := SignatureGiven]
  {
    hide Inv, Marked;
    var a := db.attempts[i].(bytes := Some(tx), status := Status.Signed);
    LaneOf(c, base, db);
    if Live(db, i) { BytesExactly(db, i, a); } else { RetiredRowsStay(base, db, i, a); }
    if Put(db, i, a).Some? {
      PutMarks(db, i, a, M.Signed);
      var d := RequestTx(Put(db, i, a).value, i, SignatureGiven);
      RequestMarks(db, Put(db, i, a).value, d, i, M.Signed);
      if h.Operation? { MoveMarks(db, d, i, Status.Signed, h.op, M.Signed); }
    }
  }

  lemma RequestMarks(db: Db, d: Db, e: Db, i: nat, to: M.OpState)
    requires Marked(db, d, i, Status.Signed, None, to) && e == d.(requests := e.requests)
    ensures Marked(db, e, i, Status.Signed, None, to)
  {
  }

  lemma BytesExactly(db: Db, i: nat, a: Attempt)
    requires AttemptsOk(db.attempts) && Live(db, i)
    requires a.core == db.attempts[i].core && a.replacedBy == db.attempts[i].replacedBy && a.bytes.Some? && a.status.Signed?
    ensures Put(db, i, a).Some? <==> forall k: nat | k < |db.attempts| && k != i :: db.attempts[k].bytes != a.bytes
  {
    var rows := db.attempts[i := a];
    assert RowChecks(db.attempts, i);
    forall k: nat | k < |rows| ensures RowChecks(rows, k) { assert RowChecks(db.attempts, k); }
    assert LiveUnique(rows) by {
      forall k: nat, l: nat | k < l < |rows| && rows[k].core.request.nonce == rows[l].core.request.nonce
        ensures rows[k].status.Replaced? || rows[l].status.Replaced?
      {
        assert db.attempts[k].core.request.nonce == db.attempts[l].core.request.nonce;
      }
    }
    if HashUnique(rows) {
      forall k: nat | k < |db.attempts| && k != i ensures db.attempts[k].bytes != a.bytes {
        assert rows[k] == db.attempts[k] && rows[i] == a;
      }
    }
    if forall k: nat | k < |db.attempts| && k != i :: db.attempts[k].bytes != a.bytes {
      forall k: nat, l: nat | k < l < |rows| && rows[k].bytes.Some? ensures rows[k].bytes != rows[l].bytes {
        if k != i && l != i { assert db.attempts[k].bytes != db.attempts[l].bytes; }
      }
    }
  }

  /** Recovery gives up an operation exactly while it is still in PREPARING or SIGNING; then it fails, together with the
      attempt found for it if there is one, unless that was replaced, which aborts. Otherwise nothing changes. */
  lemma AbandonExactly(c: Config, base: nat, db: Db, o: nat, latest: Option<nat>)
    requires Inv(c, base, db) && o < |db.ops| && (latest.Some? ==> latest.value < |db.attempts|)
    ensures var early := db.ops[o].state.Preparing? || db.ops[o].state.Signing?;
            var r := AbandonTx(db, o, latest);
            && (r.Some? <==> early ==> latest.None? || Live(db, latest.value))
            && (!early ==> r == Some(db))
            && (r.Some? && early ==>
                  if latest.Some? then Marked(db, r.value, latest.value, Failed, Some(o), M.Failed)
                  else r.value.attempts == db.attempts && OnlyMoved(db, r.value, o, M.Failed))
  {
    hide Inv, Marked;
    if db.ops[o].state.Preparing? || db.ops[o].state.Signing? {
      var d := Move(db, o, M.Failed).value;
      TransitionKeeps(c, base, db, o, db.ops[o].state, M.Failed);
      if latest.Some? {
        StatusExactly(c, base, d, latest.value, Failed);
        if Live(db, latest.value) { MovedFirst(db, latest.value, Failed, o, M.Failed); }
      }
    }
  }

  /** One operation has moved, the others have not. */
  ghost predicate OnlyMoved(d: Db, e: Db, o: nat, to: M.OpState) {
    && |e.ops| == |d.ops| && e.lane == d.lane
    && forall q: nat | q < |d.ops| :: if q == o then Moved(d.ops[q], e.ops[q], to) else e.ops[q] == d.ops[q]
  }

  lemma MovedFirst(db: Db, i: nat, status: Status, o: nat, to: M.OpState)
    requires i < |db.attempts| && Move(db, o, to).Some? && SetStatus(Move(db, o, to).value, i, status).Some?
    ensures Marked(db, SetStatus(Move(db, o, to).value, i, status).value, i, status, Some(o), to)
  {
    hide AttemptsOk;
  }

  /** An operation already settled so is left alone. Otherwise settling commits exactly from INCLUDED with a signed
      attempt that was not replaced, and moves both; a replaced attempt or any other state aborts. */
  lemma SettleExactly(c: Config, base: nat, db: Db, o: nat, i: nat, to: M.OpState)
    requires Inv(c, base, db) && o < |db.ops| && i < |db.attempts| && (to.Succeeded? || to.Reverted?)
    ensures SettleTx(db, o, i, to).Some? <==>
              db.ops[o].state == to || (db.ops[o].state.Included? && Live(db, i) && db.attempts[i].bytes.Some?)
    ensures SettleTx(db, o, i, to).Some? ==>
              var e := SettleTx(db, o, i, to).value;
              if db.ops[o].state == to then e == db
              else Marked(db, e, i, if to.Succeeded? then Confirmed else Status.Reverted, Some(o), to)
  {
    hide Inv, Marked;
    if db.ops[o].state.Included? {
      var d := Move(db, o, to).value;
      var status := if to.Succeeded? then Confirmed else Status.Reverted;
      TransitionKeeps(c, base, db, o, M.Included, to);
      StatusExactly(c, base, d, i, status);
      if SetStatus(d, i, status).Some? { MovedFirst(db, i, status, o, to); }
    }
  }

  /** A reorganisation of an included operation is recorded exactly while its attempt was not replaced: it is SUBMITTED
      again without a block, every earlier observation of the attempt is no longer canonical, and one more says so. */
  lemma ReorgExactly(c: Config, base: nat, db: Db, o: nat, i: nat)
    requires Inv(c, base, db) && o < |db.ops| && i < |db.attempts| && db.attempts[i].bytes.Some?
    ensures ReorgTx(db, o, i).Some? <==> Live(db, i)
    ensures ReorgTx(db, o, i).Some? ==>
              var e := ReorgTx(db, o, i).value;
              && Marked(db, e, i, Submitted, if db.ops[o].state.Included? then Some(o) else None, M.Submitted)
              && e.attempts[i].block.None? && |e.observations| == |db.observations| + 1
              && (forall k: nat | k < |db.observations| ::
                    e.observations[k].canonical <==> db.observations[k].canonical && db.observations[k].attempt != Some(i))
              && e.observations[|db.observations|] == Observation(Some(i), false, false)
  {
    hide Inv, Marked;
    var a := db.attempts[i].(status := Submitted, block := None);
    LaneOf(c, base, db);
    if Live(db, i) { PutExactly(db, i, a); } else { RetiredRowsStay(base, db, i, a); }
    ReorgPuts(db, o, i, a);
    if Put(db, i, a).Some? { ReorgMarks(db, o, i, a); }
  }

  lemma ReorgPuts(db: Db, o: nat, i: nat, a: Attempt)
    requires i < |db.attempts| && o < |db.ops| && a == db.attempts[i].(status := Submitted, block := None)
    ensures ReorgTx(db, o, i).Some? <==> Put(db, i, a).Some?
  {
    hide AttemptsOk;
  }

  lemma ReorgMarks(db: Db, o: nat, i: nat, a: Attempt)
    requires i < |db.attempts| && o < |db.ops| && a == db.attempts[i].(status := Submitted, block := None)
    requires ReorgTx(db, o, i).Some?
    ensures var e := ReorgTx(db, o, i).value;
            && Marked(db, e, i, Submitted, if db.ops[o].state.Included? then Some(o) else None, M.Submitted)
            && e.attempts[i].block.None? && |e.observations| == |db.observations| + 1
            && (forall k: nat | k < |db.observations| ::
                  e.observations[k].canonical <==> db.observations[k].canonical && db.observations[k].attempt != Some(i))
            && e.observations[|db.observations|] == Observation(Some(i), false, false)
  {
    hide AttemptsOk;
  }

  /** A receipt is recorded exactly while the attempt was not replaced: with its block, INCLUDED or REVERTED, but a
      settled attempt keeps what it has; a SUBMITTED operation becomes INCLUDED with it. */
  lemma IncludeExactly(c: Config, base: nat, db: Db, o: nat, i: nat, ok: bool, block: BlockRef)
    requires Inv(c, base, db) && o < |db.ops| && i < |db.attempts| && db.attempts[i].bytes.Some?
    ensures IncludeTx(db, o, i, ok, block).Some? <==> Live(db, i)
    ensures IncludeTx(db, o, i, ok, block).Some? ==>
              var e, was := IncludeTx(db, o, i, ok, block).value, db.attempts[i].status;
              var settled := was.Confirmed? || was.Reverted?;
              && Marked(db, e, i, if settled then was else if ok then Included else Status.Reverted,
                        if db.ops[o].state.Submitted? then Some(o) else None, M.Included)
              && e.attempts[i].block == if settled then db.attempts[i].block else Some(block)
  {
    hide Inv, Marked;
    var was := db.attempts[i].status;
    var a := db.attempts[i].(status := if ok then Included else Status.Reverted, block := Some(block));
    LaneOf(c, base, db);
    if Live(db, i) { PutExactly(db, i, a); } else { RetiredRowsStay(base, db, i, a); }
    IncludePuts(db, o, i, a, ok, block);
  }

  lemma IncludePuts(db: Db, o: nat, i: nat, a: Attempt, ok: bool, block: BlockRef)
    requires i < |db.attempts| && o < |db.ops|
    requires a == db.attempts[i].(status := if ok then Included else Status.Reverted, block := Some(block))
    ensures var was := db.attempts[i].status;
            var settled := was.Confirmed? || was.Reverted?;
            var r := IncludeTx(db, o, i, ok, block);
            && (r.Some? <==> settled || Put(db, i, a).Some?)
            && (r.Some? ==>
                  && Marked(db, r.value, i, if settled then was else a.status,
                            if db.ops[o].state.Submitted? then Some(o) else None, M.Included)
                  && r.value.attempts[i].block == if settled then db.attempts[i].block else Some(block))
  {
    hide AttemptsOk;
  }

  /** A nonce is reserved and a first attempt recorded exactly for an operation in PREPARING and a chain not ahead of the
      lane; the attempt is the next nonce's, unsent, and asks for what was built. */
  lemma PrepareExactly(c: Config, base: nat, db: Db, o: nat, purpose: Purpose, to: Option<Address>, data: Data, gas: nat,
                       fees: Fee.Fees, chainNonce: nat)
    requires Inv(c, base, db) && o < |db.ops| && (db.lane.None? ==> chainNonce == base)
    requires purpose.DeployToken? <==> to.None?
    ensures var r := PrepareTx(c, db, o, purpose, to, data, gas, fees, chainNonce);
            var nonce := if db.lane.Some? then db.lane.value else chainNonce;
            && (r.Some? <==> db.ops[o].state.Preparing? && chainNonce <= nonce)
            && (r.Some? ==>
                  var e := r.value;
                  && e.lane == Some(nonce + 1) && e.requests == db.requests && e.observations == db.observations
                  && |e.attempts| == |db.attempts| + 1 && e.attempts[..|db.attempts|] == db.attempts
                  && |e.ops| == |db.ops|
                  && (forall q: nat | q < |db.ops| :: if q == o then Moved(db.ops[q], e.ops[q], M.Signing) else e.ops[q] == db.ops[q])
                  && var a := e.attempts[|db.attempts|];
                     var q := a.core.request;
                     && a.status.Prepared? && a.bytes.None? && a.replacedBy.None? && a.block.None? && a.sends == 0
                     && a.core.op == Some(o) && a.core.purpose == purpose && a.core.supersedes.None? && a.core.number == 0
                     && q.chainId == c.chainId && q.from == c.signer && q.to == to && q.nonce == nonce && q.value == 0
                     && q.data == data && q.gas == gas && q.maxFee == fees.maxFee && q.priority == fees.priority)
  {
    hide Inv;
    var core := PreparedCore(c, db, o, purpose, to, data, gas, fees, chainNonce);
    LaneOf(c, base, db);
    FreshRowFits(base, db, core);
    PreparesWhen(c, db, o, purpose, to, data, gas, fees, chainNonce);
    if PrepareTx(c, db, o, purpose, to, data, gas, fees, chainNonce).Some? {
      PrepareWrites(c, db, o, purpose, to, data, gas, fees, chainNonce);
    }
  }

  /** The next nonce is free, so its first attempt breaks no constraint. */
  lemma FreshRowFits(base: nat, db: Db, core: Core)
    requires AttemptsOk(db.attempts) && LaneOk(base, db.attempts, db.lane)
    requires db.lane.Some? ==> core.request.nonce == db.lane.value
    requires core.supersedes.None? && core.number == 0 && core.request.value == 0
    requires core.purpose.DeployToken? <==> core.request.to.None?
    ensures AttemptsOk(db.attempts + [Fresh(core)])
  {
    var rows := db.attempts + [Fresh(core)];
    forall k: nat | k < |rows| ensures RowChecks(rows, k) { if k < |db.attempts| { assert RowChecks(db.attempts, k); } }
    forall k: nat, l: nat | k < l < |rows| && rows[k].core.request.nonce == rows[l].core.request.nonce
      ensures rows[k].status.Replaced? || rows[l].status.Replaced?
    {
      if l < |db.attempts| { assert db.attempts[k].core.request.nonce == db.attempts[l].core.request.nonce; }
    }
    forall k: nat, l: nat | k < l < |rows| && rows[k].bytes.Some? ensures rows[k].bytes != rows[l].bytes {
      if l < |db.attempts| { assert db.attempts[k].bytes != db.attempts[l].bytes; }
    }
  }

  lemma PreparesWhen(c: Config, db: Db, o: nat, purpose: Purpose, to: Option<Address>, data: Data, gas: nat, fees: Fee.Fees,
                     chainNonce: nat)
    requires o < |db.ops|
    requires AttemptsOk(db.attempts + [Fresh(PreparedCore(c, db, o, purpose, to, data, gas, fees, chainNonce))])
    ensures PrepareTx(c, db, o, purpose, to, data, gas, fees, chainNonce).Some? <==>
            db.ops[o].state.Preparing? && chainNonce <= (if db.lane.Some? then db.lane.value else chainNonce)
  {
    hide AttemptsOk;
  }

  /** failOperation always commits. An operation in flight or settled is left alone; any other fails, with its latest
      attempt if that was never signed. */
  lemma FailOperationExactly(c: Config, base: nat, db: Db, o: nat)
    requires Inv(c, base, db) && o < |db.ops|
    ensures FailOperationTx(db, o).Some?
    ensures M.Protected(db.ops[o].state) ==> FailOperationTx(db, o).value == db
    ensures !M.Protected(db.ops[o].state) ==>
              var e := FailOperationTx(db, o).value;
              && OnlyMoved(db, e, o, M.Failed)
              && (forall i: nat | IsLatest(db.attempts, o, i) ::
                    if db.attempts[i].status.Prepared? then Marked(db, e, i, Failed, Some(o), M.Failed)
                    else e.attempts == db.attempts)
              && ((forall i: nat | i < |db.attempts| :: db.attempts[i].core.op != Some(o)) ==> e.attempts == db.attempts)
  {
    hide Inv, Marked, Latest, OnlyMoved, IsLatest;
    LatestExactly(db, o);
    if !M.Protected(db.ops[o].state) {
      FailMarks(c, base, db, o);
      MarkedMoves(db, FailOperationTx(db, o).value, o);
    }
  }

  lemma FailMarks(c: Config, base: nat, db: Db, o: nat)
    requires Inv(c, base, db) && o < |db.ops| && !M.Protected(db.ops[o].state)
    ensures FailOperationTx(db, o).Some?
    ensures var e, latest := FailOperationTx(db, o).value, Latest(db, o);
            if latest.Some? && latest.value < |db.attempts| && db.attempts[latest.value].status.Prepared?
            then Marked(db, e, latest.value, Failed, Some(o), M.Failed)
            else e.attempts == db.attempts && OnlyMoved(db, e, o, M.Failed)
  {
    hide Inv, Marked, Latest;
    var d := Move(db, o, M.Failed).value;
    SameLatest(db, d, o);
    TransitionKeeps(c, base, db, o, db.ops[o].state, M.Failed);
    var latest := Latest(d, o);
    if latest.Some? && d.attempts[latest.value].status.Prepared? {
      StatusExactly(c, base, d, latest.value, Failed);
      MovedFirst(db, latest.value, Failed, o, M.Failed);
    }
  }

  lemma MarkedMoves(db: Db, e: Db, o: nat)
    ensures forall i: nat | Marked(db, e, i, Failed, Some(o), M.Failed) :: OnlyMoved(db, e, o, M.Failed)
  {
  }

  lemma SameLatest(d: Db, e: Db, o: nat)
    requires e.attempts == d.attempts
    ensures Latest(e, o) == Latest(d, o)
    ensures Latest(d, o).Some? ==> Latest(d, o).value < |d.attempts|
  {
  }

  /** What a confirmed observation leaves of a recovery's status: a settled one keeps what it has, unless a final success
      makes it CONFIRMED. */
  function RecoveryStatus(was: Status, ok: bool, final: bool): Status {
    if ok && final then Confirmed else if Settled(was) then was else if ok then Included else Status.Reverted
  }

  predicate Settled(s: Status) { s.Confirmed? || s.Reverted? }

  /** Confirming a nonce recovery commits exactly while it was not replaced; the block is recorded unless it was settled
      before, and the observation in any case. */
  lemma ConfirmRecoveryExactly(c: Config, base: nat, db: Db, i: nat, ok: bool, block: BlockRef, final: bool)
    requires Inv(c, base, db) && i < |db.attempts| && db.attempts[i].core.op.None? && db.attempts[i].bytes.Some?
    ensures ConfirmRecoveryTx(db, i, ok, block, final).Some? <==> Live(db, i)
    ensures ConfirmRecoveryTx(db, i, ok, block, final).Some? ==>
              var e, was := ConfirmRecoveryTx(db, i, ok, block, final).value, db.attempts[i];
              && Marked(db, e, i, RecoveryStatus(was.status, ok, final), None, M.Failed)
              && e.attempts[i].block == (if Settled(was.status) then was.block else Some(block))
              && e.attempts[i].bytes == was.bytes && e.requests == db.requests
              && e.observations == db.observations + [Observation(Some(i), true, ok)]
  {
    hide Inv, Marked;
    var a := db.attempts[i].(status := if ok then Included else Status.Reverted, block := Some(block));
    LaneOf(c, base, db);
    if Live(db, i) { PutExactly(db, i, a); } else { RetiredRowsStay(base, db, i, a); }
    if Live(db, i) {
      ReceiptKeeps(c, base, db, i, ok, block);
      var d := RecordReceipt(db, i, ok, block).value;
      var e := Observe(d, Observation(Some(i), true, ok));
      SideTablesKeep(c, base, d, d.requests, e.observations);
      StatusExactly(c, base, e, i, Confirmed);
    }
    ConfirmPuts(db, i, a, ok, block, final);
  }

  lemma ConfirmPuts(db: Db, i: nat, a: Attempt, ok: bool, block: BlockRef, final: bool)
    requires i < |db.attempts|
    requires a == db.attempts[i].(status := if ok then Included else Status.Reverted, block := Some(block))
    requires Live(db, i) <==> Put(db, i, a).Some?
    requires Live(db, i) ==>
               SetStatus(Observe(RecordReceipt(db, i, ok, block).value, Observation(Some(i), true, ok)), i, Confirmed).Some?
    ensures var r := ConfirmRecoveryTx(db, i, ok, block, final);
            && (r.Some? <==> Live(db, i))
            && (r.Some? ==>
                  && Marked(db, r.value, i, RecoveryStatus(db.attempts[i].status, ok, final), None, M.Failed)
                  && r.value.attempts[i].block == (if Settled(db.attempts[i].status) then db.attempts[i].block else Some(block))
                  && r.value.attempts[i].bytes == db.attempts[i].bytes && r.value.requests == db.requests
                  && r.value.observations == db.observations + [Observation(Some(i), true, ok)])
  {
    hide AttemptsOk;
  }

  /** Before bytes are sent again their attempt is marked, and an operation in BROADCAST_UNKNOWN or SIGNED moves on. */
  lemma RebroadcastMarks(db: Db, o: nat, i: nat)
    requires o < |db.ops| && i < |db.attempts| && RebroadcastTx(db, o, i).Some?
    ensures var e, was := RebroadcastTx(db, o, i).value, db.ops[o].state;
            && Marked(db, e, i, Broadcasting, if was.BroadcastUnknown? || was.Signed? then Some(o) else None, M.Broadcasting)
            && e.attempts[i].bytes == db.attempts[i].bytes && e.attempts[i].sends == db.attempts[i].sends + 1
  {
    hide AttemptsOk;
  }

  /** A sync is enqueued exactly while every earlier one of its wallet and asset is terminal or still READY; those in
      READY are cancelled, the rest of the table stays, and the new one is last. */
  lemma EnqueueExactly(c: Config, base: nat, db: Db, kind: Kind)
    requires Inv(c, base, db) && kind.SyncOp?
    ensures var r := EnqueueSyncTx(db, kind);
            var n := |db.ops|;
            && (r.Some? <==> forall o: nat | o < n && SamePair(db.ops[o].kind, kind) ::
                  M.Terminal(db.ops[o].state) || db.ops[o].state.Ready?)
            && (r.Some? ==>
                  && |r.value.ops| == n + 1 && r.value.ops[n] == Op(kind, M.Ready, [M.Ready])
                  && r.value == db.(ops := r.value.ops)
                  && forall o: nat | o < n ::
                       if SamePair(db.ops[o].kind, kind) && db.ops[o].state.Ready? then Moved(db.ops[o], r.value.ops[o], M.Cancelled)
                       else r.value.ops[o] == db.ops[o])
  {
    hide AttemptsOk, RowsOk, LaneOk, TiesOk, IntentsOk, SyncOrder;
    var live := LiveSyncBelow(db.ops, kind, |db.ops|);
    if live.Some? {
      OneLivePair(db.ops, kind, live.value);
      if db.ops[live.value].state.Ready? {
        var d := Move(db, live.value, M.Cancelled).value;
        PairsStayLive(db.ops, d.ops, kind, live.value);
      }
    } else {
      FitsBeside(db.ops, kind);
    }
  }

  lemma OneLivePair(ops: seq<Op>, kind: Kind, k: nat)
    requires SyncsOk(ops) && k < |ops| && SamePair(ops[k].kind, kind) && !M.Terminal(ops[k].state)
    ensures forall o: nat | o < |ops| && o != k && SamePair(ops[o].kind, kind) :: M.Terminal(ops[o].state)
  {
    forall o: nat | o < |ops| && o != k && SamePair(ops[o].kind, kind) ensures M.Terminal(ops[o].state) {
      if k < o { assert SamePair(ops[k].kind, ops[o].kind); } else { assert SamePair(ops[o].kind, ops[k].kind); }
    }
  }

  lemma PairsStayLive(ops: seq<Op>, out: seq<Op>, kind: Kind, k: nat)
    requires SyncsOk(ops) && k < |ops| == |out| && out == ops[k := out[k]]
    requires out[k].kind == ops[k].kind && out[k].state.Cancelled? && kind.SyncOp?
    requires forall o: nat | o < |ops| && o != k && SamePair(ops[o].kind, kind) :: M.Terminal(ops[o].state)
    ensures OneLiveSync(out + [Op(kind, M.Ready, [M.Ready])])
  {
    assert SyncsOk(out) by {
      forall i: nat, j: nat | i < j < |out| && SamePair(out[i].kind, out[j].kind) ensures M.Terminal(out[i].state) {
        assert SamePair(ops[i].kind, ops[j].kind);
      }
    }
    FitsBeside(out, kind);
  }

  lemma FitsBeside(ops: seq<Op>, kind: Kind)
    requires SyncsOk(ops) && forall o: nat | o < |ops| && SamePair(ops[o].kind, kind) :: M.Terminal(ops[o].state)
    ensures OneLiveSync(ops + [Op(kind, M.Ready, [M.Ready])])
  {
    var out := ops + [Op(kind, M.Ready, [M.Ready])];
    forall i: nat, j: nat | i < j < |out| && SamePair(out[i].kind, out[j].kind)
      ensures M.Terminal(out[i].state) || M.Terminal(out[j].state)
    {
      if j < |ops| { assert SamePair(ops[i].kind, ops[j].kind); }
    }
  }
}
