/** The repositories and the transaction bodies of the chain writer, the executor and the sweeps, statement by statement
    over mutable tables with rollback. Each is one transaction of module Tables: all of it commits, or nothing does. What
    a transaction asks of its caller is what every worker of the lifecycle guarantees (LifecycleInvariants.ActorOk). */
module Repository {
  import opened CanonicalJson
  import opened SignedTransaction
  import opened MintProposal
  import opened Tables
  import opened TableInvariants
  import opened BlockedLane
  import opened Commits
  import Fee = TransactionIntent
  import M = OperationMachine

  /** The tables after a transaction that committed, or as they were. */
  function After(d: Db, r: Option<Db>): Db { if r.Some? then r.value else d }

  // ---------- retire, insert, link as one write ----------

  /** The three statements of a replacement break a constraint exactly when their combined effect does. */
  lemma ThreeStatements(rows: seq<Attempt>, p: nat, core: Core)
    requires AttemptsOk(rows) && p < |rows|
    ensures
      var retired := rows[p := rows[p].(status := Replaced)];
      var inserted := retired + [Fresh(core)];
      var linked := inserted[p := inserted[p].(replacedBy := Some(|rows|))];
      && linked == rows[p := rows[p].(status := Replaced, replacedBy := Some(|rows|))] + [Fresh(core)]
      && (AttemptsOk(linked) <==> AttemptsOk(retired) && AttemptsOk(inserted))
  {
    var retired := rows[p := rows[p].(status := Replaced)];
    var inserted := retired + [Fresh(core)];
    var linked := inserted[p := inserted[p].(replacedBy := Some(|rows|))];
    assert linked == rows[p := rows[p].(status := Replaced, replacedBy := Some(|rows|))] + [Fresh(core)];
    assert RowChecks(rows, p);
    SameButLink(inserted, linked, p);
    if AttemptsOk(inserted) { PrefixOk(inserted, |rows|); assert inserted[..|rows|] == retired; }
  }

  lemma SameButLink(rows: seq<Attempt>, linked: seq<Attempt>, p: nat)
    requires p < |rows| && linked == rows[p := rows[p].(replacedBy := Some(|rows| - 1))] && p != |rows| - 1
    requires rows[p].replacedBy != Some(p)
    ensures AttemptsOk(linked) <==> AttemptsOk(rows)
  {
    forall k: nat | k < |rows| ensures RowChecks(rows, k) == RowChecks(linked, k) {}
    if LiveUnique(rows) { LiveSame(rows, linked); }
    if LiveUnique(linked) { LiveSame(linked, rows); }
    if HashUnique(rows) { HashSame(rows, linked); }
    if HashUnique(linked) { HashSame(linked, rows); }
  }

  lemma LiveSame(rows: seq<Attempt>, out: seq<Attempt>)
    requires |rows| == |out| && LiveUnique(rows)
    requires forall k: nat | k < |rows| :: out[k].core == rows[k].core && out[k].status == rows[k].status
    ensures LiveUnique(out)
  {
    forall i: nat, j: nat | i < j < |out| && out[i].core.request.nonce == out[j].core.request.nonce
      ensures out[i].status.Replaced? || out[j].status.Replaced?
    {
      assert rows[i].core.request.nonce == rows[j].core.request.nonce;
    }
  }

  lemma HashSame(rows: seq<Attempt>, out: seq<Attempt>)
    requires |rows| == |out| && HashUnique(rows)
    requires forall k: nat | k < |rows| :: out[k].bytes == rows[k].bytes
    ensures HashUnique(out)
  {
    forall i: nat, j: nat | i < j < |out| && out[i].bytes.Some? ensures out[i].bytes != out[j].bytes {
      assert rows[i].bytes != rows[j].bytes;
    }
  }

  lemma PrefixOk(rows: seq<Attempt>, n: nat)
    requires AttemptsOk(rows) && n <= |rows|
    ensures AttemptsOk(rows[..n])
  {
    forall k: nat | k < n ensures RowChecks(rows[..n], k) { assert RowChecks(rows, k); }
    forall i: nat, j: nat | i < j < n && rows[..n][i].core.request.nonce == rows[..n][j].core.request.nonce
      ensures rows[..n][i].status.Replaced? || rows[..n][j].status.Replaced?
    {
      assert rows[i].core.request.nonce == rows[j].core.request.nonce;
    }
    forall i: nat, j: nat | i < j < n && rows[..n][i].bytes.Some? ensures rows[..n][i].bytes != rows[..n][j].bytes {
      assert rows[i].bytes != rows[j].bytes;
    }
  }

  class Database {
    const c: Config
    const base: nat
    var ops: seq<Op>
    var attempts: seq<Attempt>
    var lane: Option<nat>
    var requests: map<nat, RequestStatus>
    var observations: seq<Observation>

    function Snapshot(): Db
      reads this
    {
      Db(ops, attempts, lane, requests, observations)
    }

    /** Constraints, links, lane, intents, logs and the order of syncs: see TableInvariants.Inv. */
    ghost predicate Valid()
      reads this
    {
      Inv(c, base, Snapshot())
    }

    constructor (config: Config, first: nat)
      ensures Valid() && c == config && base == first && Snapshot() == Db([], [], None, map[], [])
    {
      c, base := config, first;
      ops, attempts, lane, requests, observations := [], [], None, map[], [];
    }

    // ---------- statements ----------

    method Rollback(d: Db)
      modifies this
      ensures Snapshot() == d
    {
      ops, attempts, lane, requests, observations := d.ops, d.attempts, d.lane, d.requests, d.observations;
    }

    /** A write of the attempts table, refused when it breaks a constraint. */
    method WriteAttempts(rows: seq<Attempt>) returns (ok: bool)
      modifies this`attempts
      ensures ok == AttemptsOk(rows)
      ensures attempts == if ok then rows else old(attempts)
    {
      ok := AttemptsOk(rows);
      if ok { attempts := rows; }
    }

    method UpdateStatus(i: nat, status: Status) returns (ok: bool)
      modifies this`attempts
      ensures ok == SetStatus(old(Snapshot()), i, status).Some?
      ensures Snapshot() == After(old(Snapshot()), SetStatus(old(Snapshot()), i, status))
    {
      if i >= |attempts| { return true; }
      ok := WriteAttempts(attempts[i := attempts[i].(status := status)]);
    }

    method UpdateBroadcasting(i: nat) returns (ok: bool)
      modifies this`attempts
      ensures ok == SetBroadcasting(old(Snapshot()), i).Some?
      ensures Snapshot() == After(old(Snapshot()), SetBroadcasting(old(Snapshot()), i))
    {
      if i >= |attempts| { return true; }
      ok := WriteAttempts(attempts[i := attempts[i].(status := Broadcasting, sends := attempts[i].sends + 1)]);
    }

    method PersistSignedAttempt(i: nat, bytes: SignedTx) returns (ok: bool)
      modifies this`attempts
      ensures ok == PersistSigned(old(Snapshot()), i, bytes).Some?
      ensures Snapshot() == After(old(Snapshot()), PersistSigned(old(Snapshot()), i, bytes))
    {
      if i >= |attempts| { return true; }
      ok := WriteAttempts(attempts[i := attempts[i].(bytes := Some(bytes), status := Status.Signed)]);
    }

    /** Guarded: a settled attempt is left as it is. */
    method RecordReceipt(i: nat, succeeded: bool, block: BlockRef) returns (ok: bool)
      modifies this`attempts
      ensures ok == Tables.RecordReceipt(old(Snapshot()), i, succeeded, block).Some?
      ensures Snapshot() == After(old(Snapshot()), Tables.RecordReceipt(old(Snapshot()), i, succeeded, block))
    {
      if i >= |attempts| { return true; }
      if attempts[i].status == Confirmed || attempts[i].status == Status.Reverted { return true; }
      ok := WriteAttempts(attempts[i := attempts[i].(status := if succeeded then Included else Status.Reverted, block := Some(block))]);
    }

    method ClearInclusion(i: nat) returns (ok: bool)
      modifies this`attempts
      ensures ok == Tables.ClearInclusion(old(Snapshot()), i).Some?
      ensures Snapshot() == After(old(Snapshot()), Tables.ClearInclusion(old(Snapshot()), i))
    {
      if i >= |attempts| { return true; }
      ok := WriteAttempts(attempts[i := attempts[i].(status := Submitted, block := None)]);
    }

    method InsertPreparedAttempt(core: Core) returns (ok: bool)
      modifies this`attempts
      ensures ok == InsertAttempt(old(Snapshot()), core).Some?
      ensures Snapshot() == After(old(Snapshot()), InsertAttempt(old(Snapshot()), core))
    {
      ok := WriteAttempts(attempts + [Fresh(core)]);
    }

    /** The next nonce of the lane, which is created from the chain's count when missing; a chain ahead of it halts. */
    method ReserveNonce(chainNonce: nat) returns (ok: bool, nonce: nat)
      modifies this`lane
      ensures old(lane).Some? ==> nonce == old(lane).value && (ok <==> chainNonce <= nonce)
      ensures old(lane).None? ==> nonce == chainNonce && ok
      ensures ok ==> lane == Some(nonce + 1)
    {
      if lane == None { lane := Some(chainNonce); }
      nonce := lane.value;
      ok := chainNonce <= nonce;
      if ok { lane := Some(nonce + 1); }
    }

    /** Guarded by the machine and by the state of the record it was given, however stale. */
    method TransitionOperation(o: nat, from: M.OpState, to: M.OpState) returns (ok: bool)
      modifies this`ops
      ensures ok == Transition(old(Snapshot()), o, from, to).Some?
      ensures Snapshot() == After(old(Snapshot()), Transition(old(Snapshot()), o, from, to))
      ensures ok ==> from == old(ops)[o].state && OnlyMoved(old(Snapshot()), Snapshot(), o, to)
      ensures old(Valid()) ==> Valid() && (ok ==> Grows(old(Snapshot()), Snapshot()))
    {
      ghost var d := Snapshot();
      ok := o < |ops| && M.CanTransition(from, to) && ops[o].state == from;
      if ok {
        ops := ops[o := ops[o].(state := to, log := ops[o].log + [to])];
        if Inv(c, base, d) { TransitionKeeps(c, base, d, o, from, to); }
      }
    }

    method MoveLocked(o: nat, to: M.OpState) returns (ok: bool)
      modifies this`ops
      ensures ok == Move(old(Snapshot()), o, to).Some?
      ensures Snapshot() == After(old(Snapshot()), Move(old(Snapshot()), o, to))
    {
      if o >= |ops| { return false; }
      ok := TransitionOperation(o, ops[o].state, to);
    }

    method MoveLockedIf(o: nat, from: set<M.OpState>, to: M.OpState) returns (ok: bool)
      modifies this`ops
      ensures ok == MoveIf(old(Snapshot()), o, from, to).Some?
      ensures Snapshot() == After(old(Snapshot()), MoveIf(old(Snapshot()), o, from, to))
    {
      if o >= |ops| || ops[o].state !in from { return true; }
      ok := MoveLocked(o, to);
    }

    method AdvanceLocked(o: nat, to: M.OpState) returns (ok: bool)
      modifies this`ops
      ensures ok == Advance(old(Snapshot()), o, to).Some?
      ensures Snapshot() == After(old(Snapshot()), Advance(old(Snapshot()), o, to))
    {
      if o >= |ops| || !M.CanTransition(ops[o].state, to) { return true; }
      ok := MoveLocked(o, to);
    }

    method InsertOperation(kind: Kind, state: M.OpState) returns (ok: bool)
      modifies this`ops
      ensures ok == InsertOp(old(Snapshot()), kind, state).Some?
      ensures Snapshot() == After(old(Snapshot()), InsertOp(old(Snapshot()), kind, state))
    {
      var rows := ops + [Op(kind, state, [state])];
      ok := OneLiveSync(rows);
      if ok { ops := rows; }
    }

    /** onSubmitted and onBroadcastUnknown of the three kinds of hooks. */
    method Reported(h: Hooks, to: M.OpState) returns (ok: bool)
      modifies this`ops
      ensures var d := old(Snapshot());
              var r := match h
                       case Operation(o, _) => Move(d, o, to)
                       case Replacement(o) => Advance(d, o, to)
                       case Recovery(o) => MoveIf(d, o, {M.Broadcasting}, to)
                       case NoHooks(_) => Some(d);
              ok == r.Some? && Snapshot() == After(d, r)
    {
      match h {
        case Operation(o, _) => ok := MoveLocked(o, to);
        case Replacement(o) => ok := AdvanceLocked(o, to);
        case Recovery(o) => ok := MoveLockedIf(o, {M.Broadcasting}, to);
        case NoHooks(_) => ok := true;
      }
    }

    // ---------- transactions of the chain writer ----------

    /** The nonce, the first attempt and PREPARING -> SIGNING, for a call that does what the operation is for. */
    method Prepare(o: nat, purpose: Purpose, to: Option<Address>, data: Data, gas: nat, fees: Fee.Fees, chainNonce: nat)
      returns (ok: bool)
      requires Valid() && o < |ops| && Serves(ops[o].kind, purpose, to, data) && Fee.Ordered(fees)
      requires (purpose.DeployToken? <==> to.None?) && (lane.None? ==> chainNonce == base)
      modifies this
      ensures Valid() && Grows(old(Snapshot()), Snapshot())
      ensures ok <==> old(ops[o].state.Preparing?) && (old(lane).Some? ==> chainNonce <= old(lane).value)
      ensures Snapshot() ==
                After(old(Snapshot()), PrepareTx(c, old(Snapshot()), o, purpose, to, data, gas, fees, chainNonce))
      ensures ok ==>
                var nonce := if old(lane).Some? then old(lane).value else chainNonce;
                && lane == Some(nonce + 1) && OnlyStarted(old(Snapshot()), Snapshot(), o)
                && attempts[|old(attempts)|].core.request.nonce == nonce && attempts[|old(attempts)|].core.op == Some(o)
    {
      hide Inv, Grows, Serves;
      ghost var d := Snapshot();
      ok := PrepareStatements(o, purpose, to, data, gas, fees, chainNonce);
      PrepareExactly(c, base, d, o, purpose, to, data, gas, fees, chainNonce);
      if ok { PrepareKeeps(c, base, d, o, purpose, to, data, gas, fees, chainNonce); } else { GrowsReflexive(d); }
    }

    /** One more attempt, and the operation in SIGNING. */
    ghost predicate OnlyStarted(d: Db, e: Db, o: nat) {
      && |e.attempts| == |d.attempts| + 1 && e.attempts[..|d.attempts|] == d.attempts && |e.ops| == |d.ops|
      && forall q: nat | q < |d.ops| :: if q == o then Moved(d.ops[q], e.ops[q], M.Signing) else e.ops[q] == d.ops[q]
    }

    method PrepareStatements(o: nat, purpose: Purpose, to: Option<Address>, data: Data, gas: nat, fees: Fee.Fees, chainNonce: nat)
      returns (ok: bool)
      modifies this
      ensures ok == PrepareTx(c, old(Snapshot()), o, purpose, to, data, gas, fees, chainNonce).Some?
      ensures Snapshot() == After(old(Snapshot()), PrepareTx(c, old(Snapshot()), o, purpose, to, data, gas, fees, chainNonce))
    {
      var before := Snapshot();
      var nonce;
      ok, nonce := ReserveNonce(chainNonce);
      if ok {
        ok := InsertPreparedAttempt(
          Core(Some(o), purpose, Request(c.chainId, c.signer, to, nonce, 0, data, gas, fees.maxFee, fees.priority), None, 0));
        if ok { ok := MoveLocked(o, M.Signing); }
      }
      if !ok { Rollback(before); }
    }

    /** Retire, insert, link: three updates, because the live-nonce index must be left before it can be entered. */
    method Replace(previous: nat, core: Core) returns (ok: bool)
      requires Valid() && previous < |attempts| && core.supersedes == Some(previous)
      requires ShapeOk(c, Fresh(core)) && Follows(c, attempts[previous].core, core) && core.request.value == 0
      requires core.purpose.DeployToken? <==> core.request.to.None?
      requires core.op.None? || (core.op == attempts[previous].core.op && SameIntent(attempts[previous].core, core))
      modifies this
      ensures Valid() && Grows(old(Snapshot()), Snapshot())
      ensures ok <==> !old(attempts[previous].status.Replaced?) && old(attempts[previous].bytes.Some?)
      ensures Snapshot() == After(old(Snapshot()), ReplaceTx(old(Snapshot()), previous, core))
      ensures ok ==> attempts == Retired(old(attempts), previous, core)
    {
      hide Inv, Grows, Follows;
      ghost var d := Snapshot();
      LaneOf(c, base, d);
      FollowsNumber(c, attempts[previous].core, core);
      ReplacementExactly(c, base, d, previous, core);
      if attempts[previous].status == Status.Replaced { ok := false; } else {
        ThreeStatements(attempts, previous, core);
        var before := Snapshot();
        var inserted := |attempts|;
        ok := UpdateStatus(previous, Replaced);
        if ok {
          ok := InsertPreparedAttempt(core);
          if ok { ok := WriteAttempts(attempts[previous := attempts[previous].(replacedBy := Some(inserted))]); }
        }
        if !ok { Rollback(before); }
      }
      if ok { ReplaceKeeps(c, base, d, previous, core); } else { GrowsReflexive(d); }
    }

    static lemma FollowsNumber(c: Config, p: Core, q: Core)
      requires Follows(c, p, q)
      ensures q.number > 0 && q.request.nonce == p.request.nonce
    {
    }

    /** Bytes that decode to what the attempt committed to, its signer request and its operation, together. */
    method Persist(i: nat, bytes: SignedTx, h: Hooks) returns (ok: bool)
      requires Valid() && HooksFit(Snapshot(), i, h) && !h.Recovery? && Decodes(bytes, attempts[i].core.request)
      requires attempts[i].bytes.Some? ==> attempts[i].bytes.value == bytes
      modifies this
      ensures Valid() && Grows(old(Snapshot()), Snapshot())
      ensures ok <==> && old(Live(Snapshot(), i)) && (h.Operation? ==> old(May(Snapshot(), h.op, M.Signed)))
                      && forall k: nat | k < |old(attempts)| && k != i :: old(attempts)[k].bytes != Some(bytes)
      ensures Snapshot() == After(old(Snapshot()), PersistTx(old(Snapshot()), i, bytes, h))
      ensures ok ==> && Marked(old(Snapshot()), Snapshot(), i, Status.Signed, Executor(h), M.Signed)
                     && attempts[i].bytes == Some(bytes) && requests == old(requests)[i := SignatureGiven]
    {
      hide Inv, Grows, Marked, HooksFit;
      ghost var d := Snapshot();
      PersistExactly(c, base, d, i, bytes, h);
      GrowsReflexive(d);
      if PersistTx(d, i, bytes, h).Some? { PersistKeeps(c, base, d, i, bytes, h); }
      var before := Snapshot();
      ok := PersistSignedAttempt(i, bytes);
      if ok {
        requests := requests[i := SignatureGiven];
        if h.Operation? { ok := MoveLocked(h.op, M.Signed); }
      }
      if !ok { Rollback(before); }
    }

    method MarkBroadcasting(i: nat, h: Hooks) returns (ok: bool)
      requires Valid() && HooksFit(Snapshot(), i, h) && attempts[i].bytes.Some?
      modifies this
      ensures Valid() && Grows(old(Snapshot()), Snapshot())
      ensures ok <==> old(Live(Snapshot(), i)) && (h.Operation? ==> old(May(Snapshot(), h.op, M.Broadcasting)))
      ensures Snapshot() == After(old(Snapshot()), BroadcastingTx(old(Snapshot()), i, h))
      ensures ok ==> && Marked(old(Snapshot()), Snapshot(), i, Broadcasting, Executor(h), M.Broadcasting)
                     && attempts[i].sends == old(attempts[i].sends) + 1
    {
      hide Inv, Grows, Marked, HooksFit;
      ghost var d := Snapshot();
      BroadcastingExactly(c, base, d, i, h);
      GrowsReflexive(d);
      if BroadcastingTx(d, i, h).Some? { BroadcastingKeeps(c, base, d, i, h); }
      var before := Snapshot();
      ok := UpdateBroadcasting(i);
      if ok && h.Operation? { ok := MoveLocked(h.op, M.Broadcasting); }
      if !ok { Rollback(before); }
    }

    /** What each answer of the node does to the attempt, and to the operation through the hooks. */
    method RecordOutcome(i: nat, h: Hooks, r: SendResult) returns (ok: bool)
      requires Valid() && HooksFit(Snapshot(), i, h) && attempts[i].bytes.Some?
      modifies this
      ensures Valid() && Grows(old(Snapshot()), Snapshot())
      ensures ok <==> old(Live(Snapshot(), i)) && (h.Operation? ==> old(May(Snapshot(), h.op, StateAfter(r))))
      ensures Snapshot() == After(old(Snapshot()), OutcomeTx(old(Snapshot()), i, h, r))
      ensures ok ==> Marked(old(Snapshot()), Snapshot(), i, StatusAfter(r), old(Mover(Snapshot(), h, r)), StateAfter(r))
    {
      hide Inv, Grows, Marked, HooksFit;
      ghost var d := Snapshot();
      OutcomeExactly(c, base, d, i, h, r);
      GrowsReflexive(d);
      if OutcomeTx(d, i, h, r).Some? { OutcomeKeeps(c, base, d, i, h, r); }
      var before := Snapshot();
      match r {
        case Accepted =>
          ok := UpdateStatus(i, Submitted);
          if ok { ok := Reported(h, M.Submitted); }
        case DeterministicRejection =>
          ok := UpdateStatus(i, Failed);
          if ok && h.Operation? { ok := MoveLocked(h.op, M.Failed); }
        case Ambiguous =>
          ok := UpdateStatus(i, BroadcastUnknown);
          if ok { ok := Reported(h, M.BroadcastUnknown); }
      }
      if !ok { Rollback(before); }
    }

    method FailAttempt(i: nat, h: Hooks) returns (ok: bool)
      requires Valid() && HooksFit(Snapshot(), i, h)
      modifies this
      ensures Valid() && Grows(old(Snapshot()), Snapshot())
      ensures ok <==> old(Live(Snapshot(), i)) && (h.Operation? ==> old(May(Snapshot(), h.op, M.Failed)))
      ensures Snapshot() == After(old(Snapshot()), FailAttemptTx(old(Snapshot()), i, h))
      ensures ok ==> Marked(old(Snapshot()), Snapshot(), i, Failed, Executor(h), M.Failed)
    {
      hide Inv, Grows, Marked, HooksFit;
      ghost var d := Snapshot();
      FailAttemptExactly(c, base, d, i, h);
      GrowsReflexive(d);
      if FailAttemptTx(d, i, h).Some? { FailAttemptKeeps(c, base, d, i, h); }
      var before := Snapshot();
      ok := UpdateStatus(i, Failed);
      if ok && h.Operation? { ok := MoveLocked(h.op, M.Failed); }
      if !ok { Rollback(before); }
    }

    // ---------- transactions of the sweeps ----------

    /** Before the identical bytes are sent again: whatever became of the operation since it was read, it is past the
        states failOperation touches afterwards. */
    method Rebroadcast(o: nat, i: nat) returns (ok: bool)
      requires Valid() && i < |attempts| && attempts[i].core.op == Some(o) && attempts[i].bytes.Some?
      modifies this
      ensures Valid() && Grows(old(Snapshot()), Snapshot())
      ensures ok <==> !old(attempts[i].status.Replaced?)
      ensures Snapshot() == After(old(Snapshot()), RebroadcastTx(old(Snapshot()), o, i))
      ensures ok ==> && Tied(Snapshot(), o, i) && old(o < |ops|)
                     && var was := old(ops)[o].state;
                        Marked(old(Snapshot()), Snapshot(), i, Broadcasting,
                               if was.BroadcastUnknown? || was.Signed? then Some(o) else None, M.Broadcasting)
    {
      hide Inv, Grows, Marked;
      ghost var d := Snapshot();
      RebroadcastExactly(c, base, d, o, i);
      SignedIsPast(c, base, d, i);
      GrowsReflexive(d);
      if RebroadcastTx(d, o, i).Some? {
        RebroadcastKeeps(c, base, d, o, i);
        RebroadcastMarks(d, o, i);
      }
      var before := Snapshot();
      ok := MoveLockedIf(o, {M.BroadcastUnknown, M.Signed}, M.Broadcasting);
      if ok { ok := UpdateBroadcasting(i); }
      if !ok { Rollback(before); }
    }

    method AbandonUnbroadcast(o: nat, latest: Option<nat>) returns (ok: bool)
      requires Valid() && o < |ops| && (latest.Some? ==> latest.value < |attempts|)
      modifies this
      ensures Valid() && Grows(old(Snapshot()), Snapshot())
      ensures Snapshot() == After(old(Snapshot()), AbandonTx(old(Snapshot()), o, latest))
      ensures var early := old(ops[o].state.Preparing? || ops[o].state.Signing?);
              && (ok <==> early ==> latest.None? || old(Live(Snapshot(), latest.value)))
              && (!early ==> Snapshot() == old(Snapshot()))
              && (ok && early && latest.Some? ==> Marked(old(Snapshot()), Snapshot(), latest.value, Failed, Some(o), M.Failed))
              && (ok && early && latest.None? ==> attempts == old(attempts) && OnlyMoved(old(Snapshot()), Snapshot(), o, M.Failed))
    {
      hide Inv, Grows, Marked;
      ghost var d := Snapshot();
      AbandonExactly(c, base, d, o, latest);
      GrowsReflexive(d);
      if AbandonTx(d, o, latest).Some? { AbandonKeeps(c, base, d, o, latest); }
      if ops[o].state != M.Preparing && ops[o].state != M.Signing { return true; }
      var before := Snapshot();
      ok := MoveLocked(o, M.Failed);
      if ok && latest.Some? { ok := UpdateStatus(latest.value, Failed); }
      if !ok { Rollback(before); }
    }

    method ConfirmRecovery(i: nat, succeeded: bool, block: BlockRef, final: bool) returns (ok: bool)
      requires Valid() && i < |attempts| && attempts[i].core.op.None? && attempts[i].bytes.Some?
      modifies this
      ensures Valid() && Grows(old(Snapshot()), Snapshot())
      ensures ok <==> old(Live(Snapshot(), i))
      ensures Snapshot() == After(old(Snapshot()), ConfirmRecoveryTx(old(Snapshot()), i, succeeded, block, final))
      ensures ok ==> && Marked(old(Snapshot()), Snapshot(), i, RecoveryStatus(old(attempts)[i].status, succeeded, final), None, M.Failed)
                     && observations == old(observations) + [Observation(Some(i), true, succeeded)]
    {
      hide Inv, Grows, Marked;
      ghost var d := Snapshot();
      ConfirmRecoveryExactly(c, base, d, i, succeeded, block, final);
      GrowsReflexive(d);
      if ConfirmRecoveryTx(d, i, succeeded, block, final).Some? { ConfirmRecoveryKeeps(c, base, d, i, succeeded, block, final); }
      var before := Snapshot();
      ok := RecordReceipt(i, succeeded, block);
      if ok {
        observations := observations + [Observation(Some(i), true, succeeded)];
        if final && succeeded { ok := UpdateStatus(i, Confirmed); }
      }
      if !ok { Rollback(before); }
    }

    // ---------- transactions of the executor ----------

    /** failOperation never overwrites an operation that is in flight or settled, and always commits. */
    method FailOperation(o: nat) returns (ok: bool)
      requires Valid() && o < |ops|
      modifies this
      ensures Valid() && Grows(old(Snapshot()), Snapshot()) && ok
      ensures Snapshot() == After(old(Snapshot()), FailOperationTx(old(Snapshot()), o))
      ensures M.Protected(old(ops[o].state)) ==> Snapshot() == old(Snapshot())
      ensures !M.Protected(old(ops[o].state)) ==>
                && OnlyMoved(old(Snapshot()), Snapshot(), o, M.Failed)
                && forall i: nat | IsLatest(old(attempts), o, i) ::
                     if old(attempts)[i].status.Prepared? then Marked(old(Snapshot()), Snapshot(), i, Failed, Some(o), M.Failed)
                     else attempts == old(attempts)
    {
      hide Inv, Grows, IsLatest;
      ghost var d := Snapshot();
      FailOperationExactly(c, base, d, o);
      FailOperationKeeps(c, base, d, o);
      if M.Protected(ops[o].state) { return true; }
      ok := MoveLocked(o, M.Failed);
      var latest := Latest(Snapshot(), o);
      if latest.Some? && attempts[latest.value].status == Prepared { ok := UpdateStatus(latest.value, Failed); }
    }

    method RecordInclusion(o: nat, i: nat, succeeded: bool, block: BlockRef) returns (ok: bool)
      requires Valid() && Tied(Snapshot(), o, i) && attempts[i].bytes.Some?
      modifies this
      ensures Valid() && Grows(old(Snapshot()), Snapshot())
      ensures ok <==> old(Live(Snapshot(), i))
      ensures Snapshot() == After(old(Snapshot()), IncludeTx(old(Snapshot()), o, i, succeeded, block))
      ensures ok ==>
                var was := old(attempts)[i];
                && Marked(old(Snapshot()), Snapshot(), i,
                          if Settled(was.status) then was.status else if succeeded then Included else Status.Reverted,
                          if old(ops)[o].state.Submitted? then Some(o) else None, M.Included)
                && attempts[i].block == if Settled(was.status) then was.block else Some(block)
    {
      hide Inv, Grows, Marked;
      ghost var d := Snapshot();
      IncludeExactly(c, base, d, o, i, succeeded, block);
      GrowsReflexive(d);
      if IncludeTx(d, o, i, succeeded, block).Some? { IncludeKeeps(c, base, d, o, i, succeeded, block); }
      var before := Snapshot();
      ok := MoveLockedIf(o, {M.Submitted}, M.Included);
      if ok { ok := RecordReceipt(i, succeeded, block); }
      if !ok { Rollback(before); }
    }

    /** What was observed of an orphaned block is kept, marked as no longer canonical. */
    method RecordReorg(o: nat, i: nat) returns (ok: bool)
      requires Valid() && Tied(Snapshot(), o, i) && attempts[i].bytes.Some?
      modifies this
      ensures Valid() && Grows(old(Snapshot()), Snapshot())
      ensures ok <==> old(Live(Snapshot(), i))
      ensures Snapshot() == After(old(Snapshot()), ReorgTx(old(Snapshot()), o, i))
      ensures ok ==>
                && Marked(old(Snapshot()), Snapshot(), i, Submitted, if old(ops)[o].state.Included? then Some(o) else None, M.Submitted)
                && attempts[i].block.None? && |observations| == |old(observations)| + 1
                && forall k: nat | k < |old(observations)| ::
                     observations[k].canonical <==> old(observations)[k].canonical && old(observations)[k].attempt != Some(i)
    {
      hide Inv, Grows, Marked;
      ghost var d := Snapshot();
      ReorgExactly(c, base, d, o, i);
      GrowsReflexive(d);
      if ReorgTx(d, o, i).Some? { ReorgKeeps(c, base, d, o, i); }
      var before := Snapshot();
      observations := Invalidated(observations, i);
      ok := ClearInclusion(i);
      if ok {
        observations := observations + [Observation(Some(i), false, false)];
        ok := MoveLockedIf(o, {M.Included}, M.Submitted);
      }
      if !ok { Rollback(before); }
    }

    method Settle(o: nat, i: nat, to: M.OpState) returns (ok: bool)
      requires Valid() && Tied(Snapshot(), o, i) && (to.Succeeded? || to.Reverted?)
      modifies this
      ensures Valid() && Grows(old(Snapshot()), Snapshot())
      ensures Snapshot() == After(old(Snapshot()), SettleTx(old(Snapshot()), o, i, to))
      ensures ok <==> old(ops[o].state) == to
                      || (old(ops[o].state.Included?) && old(Live(Snapshot(), i)) && old(attempts[i].bytes.Some?))
      ensures old(ops[o].state) == to ==> Snapshot() == old(Snapshot())
      ensures ok && old(ops[o].state) != to ==>
                Marked(old(Snapshot()), Snapshot(), i, if to.Succeeded? then Confirmed else Status.Reverted, Some(o), to)
    {
      hide Inv, Grows, Marked;
      ghost var d := Snapshot();
      SettleExactly(c, base, d, o, i, to);
      GrowsReflexive(d);
      if SettleTx(d, o, i, to).Some? { SettleKeeps(c, base, d, o, i, to); }
      if ops[o].state == to { return true; }
      var before := Snapshot();
      ok := MoveLocked(o, to);
      if ok { ok := UpdateStatus(i, if to.Succeeded? then Confirmed else Status.Reverted); }
      if !ok { Rollback(before); }
    }

    // ---------- transactions that create operations ----------

    /** A sync nobody picked up yet gives way to the newer decision; any other live one refuses it. */
    method EnqueueEligibilitySync(kind: Kind) returns (ok: bool)
      requires Valid() && kind.SyncOp?
      modifies this
      ensures Valid() && Grows(old(Snapshot()), Snapshot())
      ensures ok <==> forall o: nat | o < |old(ops)| && SamePair(old(ops)[o].kind, kind) ::
                        M.Terminal(old(ops)[o].state) || old(ops)[o].state.Ready?
      ensures Snapshot() == After(old(Snapshot()), EnqueueSyncTx(old(Snapshot()), kind))
      ensures ok ==> && |ops| == |old(ops)| + 1 && ops[|old(ops)|] == Op(kind, M.Ready, [M.Ready])
                     && forall o: nat | o < |old(ops)| && SamePair(old(ops)[o].kind, kind) :: M.Terminal(ops[o].state)
    {
      hide Inv, Grows;
      ghost var d := Snapshot();
      EnqueueExactly(c, base, d, kind);
      GrowsReflexive(d);
      if EnqueueSyncTx(d, kind).Some? { EnqueueSyncKeeps(c, base, d, kind); }
      var before := Snapshot();
      ok := true;
      var live := LiveSyncBelow(ops, kind, |ops|);
      if live.Some? {
        if ops[live.value].state != M.Ready { return false; }
        ok := MoveLocked(live.value, M.Cancelled);
      }
      if ok { ok := InsertOperation(kind, M.Ready); }
      if !ok { Rollback(before); }
    }
  }
}
