/** When the table constraints let an update or a replacement commit, and the lane they can block for good (level L1). */
module BlockedLane {
  import opened CanonicalJson
  import opened SignedTransaction
  import opened Ledger
  import opened Tables
  import opened TableInvariants
  import opened Lifecycle
  import opened LifecycleInvariants
  import opened LifecycleSteps
  import opened LifecycleRuns
  import opened LifecycleTheorems
  import opened ReplacementChains
  import Fee = TransactionIntent
  import M = OperationMachine

  // ---------- which writes commit ----------

  /** An unguarded status update commits exactly on rows that were not replaced, and needs bytes unless it only fails
      the attempt: REPLACED is absorbing. */
  lemma StatusExactly(c: Config, base: nat, db: Db, i: nat, status: Status)
    requires Inv(c, base, db) && i < |db.attempts| && !status.Replaced?
    ensures SetStatus(db, i, status).Some? <==>
            !db.attempts[i].status.Replaced? && (db.attempts[i].bytes.Some? || status.Prepared? || status.Failed?)
  {
    var a := db.attempts[i].(status := status);
    if db.attempts[i].status.Replaced? {
      RetiredRowsStay(base, db, i, a);
    } else {
      PutExactly(db, i, a);
    }
  }

  lemma PutExactly(db: Db, i: nat, a: Attempt)
    requires AttemptsOk(db.attempts) && i < |db.attempts| && !db.attempts[i].status.Replaced?
    requires a.core == db.attempts[i].core && a.replacedBy == db.attempts[i].replacedBy && !a.status.Replaced?
    requires a.bytes == db.attempts[i].bytes
    ensures Put(db, i, a).Some? <==> a.bytes.Some? || a.status.Prepared? || a.status.Failed?
  {
    var rows := db.attempts[i := a];
    assert RowChecks(db.attempts, i);
    assert rows[i] == a;
    if a.bytes.Some? || a.status.Prepared? || a.status.Failed? {
      forall k: nat | k < |rows| ensures RowChecks(rows, k) { assert RowChecks(db.attempts, k); }
      forall k: nat, l: nat | k < l < |rows| && rows[k].core.request.nonce == rows[l].core.request.nonce
        ensures rows[k].status.Replaced? || rows[l].status.Replaced?
      {
        assert db.attempts[k].core.request.nonce == db.attempts[l].core.request.nonce;
      }
      assert HashUnique(rows);
    } else {
      assert !RowChecks(rows, i);
    }
  }

  /** Sending again what recovery read commits exactly while the attempt was not replaced, whatever became of its
      operation in between. */
  lemma RebroadcastExactly(c: Config, base: nat, db: Db, o: nat, i: nat)
    requires Inv(c, base, db) && i < |db.attempts| && db.attempts[i].core.op == Some(o) && db.attempts[i].bytes.Some?
    ensures RebroadcastTx(db, o, i).Some? <==> !db.attempts[i].status.Replaced?
  {
    hide Inv, AttemptsOk;
    RebroadcastMoves(c, base, db, o, i);
    var d := MoveIf(db, o, {M.BroadcastUnknown, M.Signed}, M.Broadcasting).value;
    var a := d.attempts[i].(status := Broadcasting, sends := d.attempts[i].sends + 1);
    if db.attempts[i].status.Replaced? {
      LaneOf(c, base, d);
      RetiredRowsStay(base, d, i, a);
    } else {
      LaneOf(c, base, d);
      PutExactly(d, i, a);
    }
  }

  lemma LaneOf(c: Config, base: nat, db: Db)
    requires Inv(c, base, db)
    ensures AttemptsOk(db.attempts) && LaneOk(base, db.attempts, db.lane)
  {
  }

  /** A replacement, by fees or by cancellation, commits exactly when the row it retires is live and was signed: the
      constraint on REPLACED rows refuses to retire one without bytes. */
  lemma ReplacementExactly(c: Config, base: nat, db: Db, i: nat, core: Core)
    requires Inv(c, base, db) && i < |db.attempts|
    requires core.supersedes == Some(i) && core.number > 0 && core.request.nonce == db.attempts[i].core.request.nonce
    requires core.request.value == 0 && (core.purpose.DeployToken? <==> core.request.to.None?)
    ensures ReplaceTx(db, i, core).Some? <==> !db.attempts[i].status.Replaced? && db.attempts[i].bytes.Some?
  {
    if !db.attempts[i].status.Replaced? {
      var rows := Retired(db.attempts, i, core);
      if db.attempts[i].bytes.Some? {
        RetiredChecks(db.attempts, i, core);
        RetiredUnique(db.attempts, i, core);
        assert HashUnique(rows);
      } else {
        assert !RowChecks(rows, i);
      }
    }
  }

  lemma RetiredChecks(rows: seq<Attempt>, i: nat, core: Core)
    requires AttemptsOk(rows) && i < |rows| && rows[i].bytes.Some? && core.supersedes == Some(i) && core.number > 0
    requires core.request.value == 0 && (core.purpose.DeployToken? <==> core.request.to.None?)
    ensures forall k: nat | k < |Retired(rows, i, core)| :: RowChecks(Retired(rows, i, core), k)
  {
    var out := Retired(rows, i, core);
    forall k: nat | k < |out| ensures RowChecks(out, k) {
      if k < |rows| { assert RowChecks(rows, k); }
    }
  }

  lemma RetiredUnique(rows: seq<Attempt>, i: nat, core: Core)
    requires LiveUnique(rows) && i < |rows| && !rows[i].status.Replaced?
    requires core.request.nonce == rows[i].core.request.nonce
    ensures LiveUnique(Retired(rows, i, core))
  {
    var out := Retired(rows, i, core);
    forall k: nat, l: nat | k < l < |out| && out[k].core.request.nonce == out[l].core.request.nonce
      ensures out[k].status.Replaced? || out[l].status.Replaced?
    {
      if l < |rows| {
        assert rows[k].core.request.nonce == rows[l].core.request.nonce;
      } else if k < i {
        assert rows[k].core.request.nonce == rows[i].core.request.nonce;
      } else if i < k {
        assert rows[i].core.request.nonce == rows[k].core.request.nonce;
      }
    }
  }

  /** cancelNonce gets past its transaction exactly for a live attempt that was signed. */
  lemma CancellationExactly(env: Env, labels: seq<Label>, i: nat, fees: Fee.Fees)
    requires i < |Run(env, labels).db.attempts|
    ensures var db := Run(env, labels).db;
            ReplaceTx(db, i, Cancellation(env.c, i, db.attempts[i].core, fees)).Some? <==>
              !db.attempts[i].status.Replaced? && db.attempts[i].bytes.Some?
  {
    hide Run, Inv, NetOk, SuccessOk;
    RunKeeps(env, labels);
    var db := Run(env, labels).db;
    ReplacementExactly(env.c, env.base, db, i, Cancellation(env.c, i, db.attempts[i].core, fees));
  }

  // ---------- a lane blocked for good ----------

  /** The attempt that reserved its nonce was never signed and its operation has failed. */
  predicate Blocked(db: Db, i: nat) {
    && i < |db.attempts| && !db.attempts[i].status.Replaced? && db.attempts[i].bytes.None?
    && db.attempts[i].core.supersedes.None? && db.attempts[i].core.op.Some?
    && db.attempts[i].core.op.value < |db.ops| && db.ops[db.attempts[i].core.op.value].state.Failed?
  }

  ghost predicate SameBytes(d: Db, e: Db) {
    |d.attempts| <= |e.attempts| && forall i: nat | i < |d.attempts| :: e.attempts[i].bytes == d.attempts[i].bytes
  }

  lemma ExecuteBytes(env: Env, db: Db, net: Net, a: Actor, ch: Choice)
    requires a.Claimed? || a.Built? || a.Erring?
    ensures SameBytes(db, ExecuteStep(env, db, net, a, ch).0)
  {
    hide AttemptsOk;
  }

  lemma SignBytes(db: Db, net: Net, a: Actor, ch: Choice)
    requires a.Requesting? || a.Answered? || a.Settling? || a.Failing? || a.Resuming? || a.Expiring? || a.Fetching?
    ensures SameBytes(db, SignStep(db, net, a, ch).0)
         || (a.Settling? && a.answer.SignatureOf? && PersistTx(db, a.attempt, a.answer.tx, a.h) == Some(SignStep(db, net, a, ch).0))
  {
    hide AttemptsOk, VerifySigned;
  }

  lemma SendBytes(db: Db, net: Net, a: Actor, ch: Choice)
    requires a.Persisted? || a.Allowed? || a.Sending? || a.Checked? || a.Sent?
    ensures SameBytes(db, SendStep(db, net, a, ch).0)
  {
    hide AttemptsOk;
  }

  lemma ObserveBytes(env: Env, db: Db, net: Net, a: Actor, ch: Choice)
    requires a.Observing? || a.Awaiting? || a.Including? || a.Orphaning? || a.Reconciling? || a.Judged?
    ensures SameBytes(db, ObserveStep(env, db, net, a, ch).0)
  {
    hide AttemptsOk, Confirms, MintEventOk;
  }

  lemma RecoverBytes(db: Db, net: Net, a: Actor, ch: Choice)
    requires a.RecoverSigning? || a.RecoverRequest? || a.RecoverUnsent? || a.Abandoning? || a.ResolveInFlight? ||
             a.LookingUp? || a.Advancing? || a.Finalizing? || a.Rebroadcasting?
    ensures SameBytes(db, RecoverStep(db, net, a, ch).0)
  {
    hide AttemptsOk;
  }

  lemma ReplaceKeepsBytes(db: Db, i: nat, core: Core)
    ensures ReplaceTx(db, i, core).Some? ==> SameBytes(db, ReplaceTx(db, i, core).value)
  {
    hide AttemptsOk;
  }

  lemma ConfirmKeepsBytes(db: Db, i: nat, ok: bool, block: BlockRef, final: bool)
    ensures ConfirmRecoveryTx(db, i, ok, block, final).Some? ==> SameBytes(db, ConfirmRecoveryTx(db, i, ok, block, final).value)
  {
    hide AttemptsOk;
  }

  lemma ConfirmBytes(env: Env, db: Db, net: Net, a: Actor, ch: Choice)
    requires a.ConfirmingRecovery?
    ensures SameBytes(db, ReplaceStep(env, db, net, a, ch).0)
  {
    hide ConfirmRecoveryTx, Confirms;
    match ch.seen
    case SeenIncluded(ok, block) => ConfirmKeepsBytes(db, a.attempt, ok, block, false);
    case SeenReverted(block, _) => ConfirmKeepsBytes(db, a.attempt, false, block, false);
    case SeenFinal(block, _) => ConfirmKeepsBytes(db, a.attempt, true, block, true);
    case _ =>
  }

  lemma ReplaceBytes(env: Env, db: Db, net: Net, a: Actor, ch: Choice)
    requires a.Stuck? || a.StuckOperation? || a.Replacing? || a.LaneRead? || a.LaneAt? || a.Cancelling? ||
             a.ConfirmingRecovery?
    ensures SameBytes(db, ReplaceStep(env, db, net, a, ch).0)
  {
    hide ReplaceTx, ConfirmRecoveryTx, LiveBelow, Confirms;
    if a.ConfirmingRecovery? {
      ConfirmBytes(env, db, net, a, ch);
    } else if (a.Replacing? || a.Cancelling?) && a.attempt < |db.attempts| {
      var p := db.attempts[a.attempt].core;
      var fees := Fee.BumpFees(Fee.Fees(p.request.maxFee, p.request.priority), Estimate(ch), env.c.bump);
      var q := if a.Replacing? then FeeReplacement(a.attempt, p, fees) else Cancellation(env.c, a.attempt, p, fees);
      ReplaceKeepsBytes(db, a.attempt, q);
    }
  }

  /** Only a verified signature changes stored bytes. */
  lemma ActorBytes(env: Env, db: Db, net: Net, a: Actor, ch: Choice)
    ensures var e := ActorStep(env, db, net, a, ch).0;
            SameBytes(db, e) || (a.Settling? && a.answer.SignatureOf? && PersistTx(db, a.attempt, a.answer.tx, a.h) == Some(e))
  {
    hide ExecuteStep, SignStep, SendStep, ObserveStep, RecoverStep, ReplaceStep, PersistTx;
    if a.Done? {}
    else if a.Claimed? || a.Built? || a.Erring? { ExecuteBytes(env, db, net, a, ch); }
    else if a.Requesting? || a.Answered? || a.Settling? || a.Failing? || a.Resuming? || a.Expiring? || a.Fetching? {
      SignBytes(db, net, a, ch);
    }
    else if a.Persisted? || a.Allowed? || a.Sending? || a.Checked? || a.Sent? { SendBytes(db, net, a, ch); }
    else if a.Observing? || a.Awaiting? || a.Including? || a.Orphaning? || a.Reconciling? || a.Judged? {
      ObserveBytes(env, db, net, a, ch);
    }
    else if a.Stuck? || a.StuckOperation? || a.Replacing? || a.LaneRead? || a.LaneAt? || a.Cancelling? ||
            a.ConfirmingRecovery? {
      ReplaceBytes(env, db, net, a, ch);
    }
    else { RecoverBytes(db, net, a, ch); }
  }

  /** Storing a signature of the attempt needs a transition its failed operation no longer has. */
  lemma PersistSkips(db: Db, i: nat, h: Hooks, j: nat, tx: SignedTx)
    requires Blocked(db, i) && HooksFit(db, j, h) && !h.Recovery? && PersistTx(db, j, tx, h).Some?
    ensures PersistTx(db, j, tx, h).value.attempts[i].bytes.None?
  {
  }

  lemma StepStaysBlocked(env: Env, s: State, l: Label, i: nat)
    requires L1(env, s) && Blocked(s.db, i)
    ensures Blocked(Step(env, s, l).db, i)
  {
    hide Inv, NetOk, SuccessOk, ActorStep, PersistTx, CanMine, IsStuck, OneLiveSync;
    StepKeeps(env, s, l);
    var t := Step(env, s, l);
    assert AttemptKept(s.db.attempts[i], t.db.attempts[i]);
    assert OpKept(s.db.ops[s.db.attempts[i].core.op.value], t.db.ops[s.db.attempts[i].core.op.value]);
    LiveStays(env, s.db, t.db, i);
    if l.Act? && l.actor < |s.actors| {
      var a := s.actors[l.actor];
      ActorBytes(env, s.db, s.net, a, l.ch);
      assert ActorOk(env, s.db, s.net, a);
      if a.Settling? && a.answer.SignatureOf? && PersistTx(s.db, a.attempt, a.answer.tx, a.h).Some? {
        PersistSkips(s.db, i, a.h, a.attempt, a.answer.tx);
      }
    }
  }

  /** A row without bytes is never retired. */
  lemma LiveStays(env: Env, d: Db, e: Db, i: nat)
    requires Inv(env.c, env.base, e) && Grows(d, e) && Blocked(d, i)
    ensures e.attempts[i].bytes.None? ==> !e.attempts[i].status.Replaced?
  {
    assert RowChecks(e.attempts, i);
  }

  /** While it stands, no transaction at its nonce can be in the chain. */
  lemma BlockedStops(env: Env, s: State, i: nat)
    requires L1(env, s) && Blocked(s.db, i)
    ensures AccountNonce(env, s.net) <= s.db.attempts[i].core.request.nonce
  {
    hide SuccessOk, LaneOk, TiesOk, IntentsOk, OpsOk, SyncsOk, SyncOrder, ActorOk;
    var ours := OursOf(Flat(s.net.chain));
    var rows := s.db.attempts;
    var nonce := rows[i].core.request.nonce;
    assert LinkOk(env.c, rows, i) && RowChecks(rows, i);
    if AccountNonce(env, s.net) > nonce && nonce >= env.base {
      var k := nonce - env.base;
      assert ours[k] in s.net.exposed;
      assert Stored(rows, ours[k]);
      var j: nat :| j < |rows| && rows[j].bytes == Some(ours[k]);
      assert ShapeOk(env.c, rows[j]);
      OneLive(rows, Tail(env.c, rows, j), i, nonce);
      assert false;
    }
    if nonce < env.base { LaneFloor(env, s, i); }
  }

  lemma LaneFloor(env: Env, s: State, i: nat)
    requires L1(env, s) && i < |s.db.attempts|
    ensures s.db.attempts[i].core.request.nonce >= env.base
  {
  }

  /** There is no general liveness: once an attempt fails unsigned, its nonce stays live and unsent in every
      continuation, and the account nonce never gets past it. */
  lemma {:induction false} UnsignedFailureBlocksLane(env: Env, labels: seq<Label>, n: nat, i: nat)
    requires n <= |labels| && Blocked(Run(env, labels[..n]).db, i)
    ensures Blocked(Run(env, labels).db, i)
    ensures AccountNonce(env, Run(env, labels).net) <= Run(env, labels).db.attempts[i].core.request.nonce
    decreases |labels|
  {
    hide L1, Step, Blocked, AccountNonce;
    if n == |labels| {
      assert labels[..n] == labels;
    } else {
      var k := |labels| - 1;
      assert labels[..k][..n] == labels[..n];
      UnsignedFailureBlocksLane(env, labels[..k], n, i);
      RunKeeps(env, labels[..k]);
      StepStaysBlocked(env, Run(env, labels[..k]), labels[k], i);
    }
    RunKeeps(env, labels);
    BlockedStops(env, Run(env, labels), i);
  }
}
