/** What is true when bytes are handed to a node, and what reorganisations leave alone (level L1). */
module Broadcasts {
  import opened CanonicalJson
  import opened SignedTransaction
  import opened Ledger
  import opened Tables
  import opened TableInvariants
  import opened Lifecycle
  import opened LifecycleInvariants
  import opened LifecycleSteps
  import opened LifecycleRuns
  import opened LifecycleTheorems
  import M = OperationMachine

  // ---------- persist before broadcast ----------

  lemma ExecuteExposes(env: Env, db: Db, net: Net, a: Actor, ch: Choice)
    requires a.Claimed? || a.Built? || a.Erring?
    ensures ExecuteStep(env, db, net, a, ch).1 == net
  {
    hide PrepareTx, FailOperationTx;
  }

  lemma SignExposes(db: Db, net: Net, a: Actor, ch: Choice)
    requires a.Requesting? || a.Answered? || a.Settling? || a.Failing? || a.Resuming? || a.Expiring? || a.Fetching?
    ensures SignStep(db, net, a, ch).1.exposed == net.exposed && SignStep(db, net, a, ch).1.known == net.known
  {
    hide PersistTx, FailAttemptTx, ExpireTx, VerifySigned;
  }

  lemma ObserveExposes(env: Env, db: Db, net: Net, a: Actor, ch: Choice)
    requires a.Observing? || a.Awaiting? || a.Including? || a.Orphaning? || a.Reconciling? || a.Judged?
    ensures ObserveStep(env, db, net, a, ch).1 == net
  {
    hide IncludeTx, ReorgTx, SettleTx, Confirms, MintEventOk;
  }

  lemma RecoverExposes(db: Db, net: Net, a: Actor, ch: Choice)
    requires a.RecoverSigning? || a.RecoverRequest? || a.RecoverUnsent? || a.Abandoning? || a.ResolveInFlight? ||
             a.LookingUp? || a.Advancing? || a.Finalizing? || a.Rebroadcasting?
    ensures RecoverStep(db, net, a, ch).1 == net
  {
    hide AbandonTx, AdvanceTx, RebroadcastTx, Latest;
  }

  lemma ReplaceExposes(env: Env, db: Db, net: Net, a: Actor, ch: Choice)
    requires a.Stuck? || a.StuckOperation? || a.Replacing? || a.LaneRead? || a.LaneAt? || a.Cancelling? ||
             a.ConfirmingRecovery?
    ensures ReplaceStep(env, db, net, a, ch).1 == net
  {
    hide ReplaceTx, ConfirmRecoveryTx, Confirms, LiveBelow;
  }

  lemma SendExposes(db: Db, net: Net, a: Actor, ch: Choice)
    requires a.Persisted? || a.Allowed? || a.Sending? || a.Checked? || a.Sent?
    ensures var e := SendStep(db, net, a, ch).1.exposed;
            if a.Checked? && !ch.send.DeterministicRejection? then e == net.exposed + {a.tx} else e == net.exposed
  {
    hide BroadcastingTx, OutcomeTx, BroadcastAllowed;
  }

  /** Only a worker past its last check hands bytes to a node. */
  lemma ActorExposes(env: Env, db: Db, net: Net, a: Actor, ch: Choice)
    ensures var e := ActorStep(env, db, net, a, ch).1.exposed;
            if a.Checked? && !ch.send.DeterministicRejection? then e == net.exposed + {a.tx} else e == net.exposed
  {
    hide ExecuteStep, SignStep, SendStep, ObserveStep, RecoverStep, ReplaceStep;
    if a.Done? {}
    else if a.Claimed? || a.Built? || a.Erring? { ExecuteExposes(env, db, net, a, ch); }
    else if a.Requesting? || a.Answered? || a.Settling? || a.Failing? || a.Resuming? || a.Expiring? || a.Fetching? {
      SignExposes(db, net, a, ch);
    }
    else if a.Persisted? || a.Allowed? || a.Sending? || a.Checked? || a.Sent? { SendExposes(db, net, a, ch); }
    else if a.Observing? || a.Awaiting? || a.Including? || a.Orphaning? || a.Reconciling? || a.Judged? {
      ObserveExposes(env, db, net, a, ch);
    }
    else if a.Stuck? || a.StuckOperation? || a.Replacing? || a.LaneRead? || a.LaneAt? || a.Cancelling? ||
            a.ConfirmingRecovery? {
      ReplaceExposes(env, db, net, a, ch);
    }
    else { RecoverExposes(db, net, a, ch); }
  }

  /** Persist before broadcast: bytes a step hands to a node were already stored on their attempt before it, under an
      operation that was signed, that failOperation no longer touches, and whose log then has BROADCASTING after SIGNED
      exactly if it was not failed straight from SIGNED. */
  lemma SendsWhatIsStored(env: Env, labels: seq<Label>, tx: SignedTx) returns (i: nat)
    requires labels != [] && tx in Run(env, labels).net.exposed
    requires tx !in Run(env, labels[..|labels| - 1]).net.exposed
    ensures var db := Run(env, labels[..|labels| - 1]).db;
            && i < |db.attempts| && db.attempts[i].bytes == Some(tx) && Decodes(tx, db.attempts[i].core.request)
            && (db.attempts[i].core.op.Some? ==>
                  var o := db.attempts[i].core.op.value;
                  && o < |db.ops| && M.Signed in db.ops[o].log && M.Protected(db.ops[o].state)
                  && (M.WasBroadcast(db.ops[o].log) <==> !M.FailedFromSigned(db.ops[o].log)))
  {
    RunUnfolds(env, labels);
    hide Run, L1, M.WasBroadcast, M.FailedFromSigned, M.Protected;
    var n := |labels| - 1;
    var s := Run(env, labels[..n]);
    RunKeeps(env, labels[..n]);
    StepExposes(env, s, labels[n]);
    i := s.actors[labels[n].actor].attempt;
    ArmedRow(env, s, labels[n].actor);
    if s.db.attempts[i].core.op.Some? { LogWhenSigned(env, labels[..n], s.db.attempts[i].core.op.value); }
  }

  /** What a worker past its last check sends is on its attempt, under an operation failOperation does not touch. */
  lemma ArmedRow(env: Env, s: State, k: nat)
    requires L1(env, s) && k < |s.actors| && s.actors[k].Checked?
    ensures var a, rows := s.actors[k], s.db.attempts;
            && a.attempt < |rows| && rows[a.attempt].bytes == Some(a.tx) && Decodes(a.tx, rows[a.attempt].core.request)
            && (rows[a.attempt].core.op.Some? ==>
                  var o := rows[a.attempt].core.op.value;
                  o < |s.db.ops| && M.Signed in s.db.ops[o].log && M.Protected(s.db.ops[o].state))
  {
    hide AttemptsOk, LaneOk, IntentsOk, OpsOk, SyncsOk, SyncOrder, NetOk, SuccessOk;
    var a := s.actors[k];
    assert ActorOk(env, s.db, s.net, a);
    assert ShapeOk(env.c, s.db.attempts[a.attempt]) && TieOk(s.db.ops, s.db.attempts[a.attempt]);
  }

  lemma LogWhenSigned(env: Env, labels: seq<Label>, o: nat)
    requires
      var ops := Run(env, labels).db.ops;
      o < |ops| && M.Signed in ops[o].log && M.Protected(ops[o].state)
    ensures var log := Run(env, labels).db.ops[o].log; M.WasBroadcast(log) <==> !M.FailedFromSigned(log)
  {
    hide Run, M.IsPath, M.WasBroadcast, M.FailedFromSigned;
    DurableLog(env, labels, o);
    M.BroadcastUnlessFailed(Run(env, labels).db.ops[o].log);
  }

  /** When bytes of an operation are out at L1, its log has SIGNED and at once BROADCASTING exactly if it does not end
      with SIGNED, FAILED: the one way around BROADCASTING is to be failed straight from SIGNED. */
  lemma LogOfSentExactly(env: Env, labels: seq<Label>, i: nat)
    requires
      var s := Run(env, labels);
      && i < |s.db.attempts| && s.db.attempts[i].core.op.Some?
      && s.db.attempts[i].bytes.Some? && s.db.attempts[i].bytes.value in s.net.exposed
    ensures
      var s := Run(env, labels);
      var o := s.db.attempts[i].core.op.value;
      o < |s.db.ops| && (M.WasBroadcast(s.db.ops[o].log) <==> !M.FailedFromSigned(s.db.ops[o].log))
  {
    hide Run, M.WasBroadcast, M.FailedFromSigned, M.Protected;
    CancelledHasNoAttempt(env, labels, i);
    LogWhenSigned(env, labels, Run(env, labels).db.attempts[i].core.op.value);
  }

  lemma StepExposes(env: Env, s: State, l: Label)
    ensures Step(env, s, l).net.exposed == s.net.exposed
         || (l.Act? && l.actor < |s.actors| && s.actors[l.actor].Checked?
             && Step(env, s, l).net.exposed == s.net.exposed + {s.actors[l.actor].tx})
  {
    hide ActorStep;
    if l.Act? && l.actor < |s.actors| { ActorExposes(env, s.db, s.net, s.actors[l.actor], l.ch); }
  }

  // ---------- the check before a first send ----------

  /** Past the check that the operation may still execute, on the executor's or the replacement's path. */
  predicate Gated(a: Actor) {
    (a.Allowed? || a.Sending? || a.Checked? || a.Sent?) && (a.h.Operation? || a.h.Replacement?)
  }

  /** It was past the check before this step, or this step was the check and it passed. */
  predicate GateFrom(db: Db, a: Actor, b: Actor, ch: Choice)
    requires Gated(b)
  {
    || (Gated(a) && a.attempt == b.attempt && a.h == b.h && a.tx == b.tx)
    || (a == Persisted(b.attempt, b.h, b.tx) && BroadcastAllowed(db, b.h, ch))
  }

  /** Past the last look at its attempt, whatever the hooks. */
  predicate Cleared(a: Actor) { a.Checked? || a.Sent? }

  /** It was past that look before this step, or this step was the look and found an attempt that was not replaced. */
  predicate ClearedFrom(db: Db, a: Actor, b: Actor)
    requires Cleared(b)
  {
    || (Cleared(a) && a.attempt == b.attempt && a.h == b.h && a.tx == b.tx)
    || (a == Sending(b.attempt, b.h, b.tx) && b.attempt < |db.attempts| && !db.attempts[b.attempt].status.Replaced?)
  }

  lemma SendGates(db: Db, net: Net, a: Actor, ch: Choice)
    requires a.Persisted? || a.Allowed? || a.Sending? || a.Checked? || a.Sent?
    ensures var b := SendStep(db, net, a, ch).2;
            (Gated(b) ==> GateFrom(db, a, b, ch)) && (Cleared(b) ==> ClearedFrom(db, a, b))
  {
    hide BroadcastingTx, OutcomeTx;
  }

  lemma WritersNeverGate(env: Env, db: Db, net: Net, a: Actor, ch: Choice)
    requires a.Claimed? || a.Built? || a.Erring? || a.Requesting? || a.Answered? || a.Settling? || a.Failing? || a.Resuming? ||
             a.Expiring? || a.Fetching?
    ensures var b := ActorStep(env, db, net, a, ch).2; !Gated(b) && !Cleared(b)
  {
    hide PrepareTx, FailOperationTx, PersistTx, FailAttemptTx, ExpireTx, VerifySigned, SendStep, ObserveStep, RecoverStep,
         ReplaceStep, Prepare;
  }

  lemma ObserversNeverGate(env: Env, db: Db, net: Net, a: Actor, ch: Choice)
    requires a.Observing? || a.Awaiting? || a.Including? || a.Orphaning? || a.Reconciling? || a.Judged?
    ensures var b := ActorStep(env, db, net, a, ch).2; !Gated(b) && !Cleared(b)
  {
    hide IncludeTx, ReorgTx, SettleTx, Confirms, MintEventOk, ExecuteStep, SignStep, SendStep, RecoverStep, ReplaceStep;
  }

  lemma SweepsNeverGate(env: Env, db: Db, net: Net, a: Actor, ch: Choice)
    requires a.RecoverSigning? || a.RecoverRequest? || a.RecoverUnsent? || a.Abandoning? || a.ResolveInFlight? ||
             a.LookingUp? || a.Advancing? || a.Finalizing? || a.Rebroadcasting? || a.Stuck? || a.StuckOperation? ||
             a.Replacing? || a.LaneRead? || a.LaneAt? || a.Cancelling? || a.ConfirmingRecovery? || a.Done?
    ensures var b := ActorStep(env, db, net, a, ch).2; !Gated(b) && !Cleared(b)
  {
    hide AbandonTx, AdvanceTx, RebroadcastTx, Latest, ReplaceTx, ConfirmRecoveryTx, LiveBelow, Confirms, ExecuteStep, SignStep,
         SendStep, ObserveStep;
  }

  lemma ActorGates(env: Env, db: Db, net: Net, a: Actor, ch: Choice)
    ensures var b := ActorStep(env, db, net, a, ch).2;
            (Gated(b) ==> GateFrom(db, a, b, ch)) && (Cleared(b) ==> ClearedFrom(db, a, b))
  {
    hide SendStep, GateFrom, Gated, ClearedFrom, Cleared;
    if a.Persisted? || a.Allowed? || a.Sending? || a.Checked? || a.Sent? {
      SendGates(db, net, a, ch);
    } else if a.Claimed? || a.Built? || a.Erring? || a.Requesting? || a.Answered? || a.Settling? || a.Failing? || a.Resuming?
              || a.Expiring? || a.Fetching? {
      WritersNeverGate(env, db, net, a, ch);
    } else if a.Observing? || a.Awaiting? || a.Including? || a.Orphaning? || a.Reconciling? || a.Judged? {
      ObserversNeverGate(env, db, net, a, ch);
    } else {
      SweepsNeverGate(env, db, net, a, ch);
    }
  }

  lemma StepGates(env: Env, s: State, l: Label, k: nat)
    requires k < |Step(env, s, l).actors| && (Gated(Step(env, s, l).actors[k]) || Cleared(Step(env, s, l).actors[k]))
    ensures k < |s.actors|
    ensures var b := Step(env, s, l).actors[k];
            || s.actors[k] == b
            || (l.Act? && l.actor == k && (Gated(b) ==> GateFrom(s.db, s.actors[k], b, l.ch))
                && (Cleared(b) ==> ClearedFrom(s.db, s.actors[k], b)))
  {
    hide ActorStep, GateFrom, ClearedFrom, CanMine, IsStuck, MoveIf, InsertOp, EnqueueSyncTx;
    if l.Act? && l.actor == k && k < |s.actors| { ActorGates(env, s.db, s.net, s.actors[k], l.ch); }
  }

  /** With signed bytes stored, a worker goes on to send them exactly if its operation exists, is not CANCELLED and, for a
      mint, its wallet is still eligible; otherwise it fails the attempt and withholds them. A nonce recovery has no
      operation to ask. The look changes nothing. */
  lemma WithholdsExactly(env: Env, db: Db, net: Net, i: nat, h: Hooks, tx: SignedTx, ch: Choice)
    ensures ActorStep(env, db, net, Persisted(i, h, tx), ch) ==
              (db, net,
               if h.NoHooks? || (h.op < |db.ops| && db.ops[h.op].state != M.Cancelled && !(db.ops[h.op].kind.MintOp? && !ch.eligible))
               then Allowed(i, h, tx) else Failing(i, h, false))
  {
  }

  /** Whatever a worker sends on the executor's or the replacement's path: after it was stored, that worker found the
      operation there, not CANCELLED and, if it is a mint, its wallet eligible. Recovery sends again without this check. */
  lemma {:induction false} SendsOnlyWhatIsAllowed(env: Env, labels: seq<Label>, k: nat) returns (n: nat)
    requires k < |Run(env, labels).actors| && Gated(Run(env, labels).actors[k])
    ensures var a := Run(env, labels).actors[k];
            && n < |labels| && labels[n].Act? && labels[n].actor == k
            && k < |Run(env, labels[..n]).actors|
            && Run(env, labels[..n]).actors[k] == Persisted(a.attempt, a.h, a.tx)
            && var ops := Run(env, labels[..n]).db.ops;
               a.h.op < |ops| && ops[a.h.op].state != M.Cancelled && (ops[a.h.op].kind.MintOp? ==> labels[n].ch.eligible)
    decreases |labels|
  {
    RunUnfolds(env, labels);
    hide Run, Step, ClearedFrom;
    var last := |labels| - 1;
    var before := labels[..last];
    StepGates(env, Run(env, before), labels[last], k);
    if Gated(Run(env, before).actors[k]) {
      n := SendsOnlyWhatIsAllowed(env, before, k);
      assert before[..n] == labels[..n];
    } else {
      n := last;
    }
  }

  /** Whatever a worker sends on any path, recovery's included: that worker found its attempt not REPLACED after the
      BROADCASTING of this send was committed. */
  lemma {:induction false} SendsOnlyLive(env: Env, labels: seq<Label>, k: nat) returns (n: nat)
    requires k < |Run(env, labels).actors| && Cleared(Run(env, labels).actors[k])
    ensures var a := Run(env, labels).actors[k];
            && n < |labels| && labels[n].Act? && labels[n].actor == k
            && k < |Run(env, labels[..n]).actors|
            && Run(env, labels[..n]).actors[k] == Sending(a.attempt, a.h, a.tx)
            && var rows := Run(env, labels[..n]).db.attempts;
               a.attempt < |rows| && rows[a.attempt].status != Replaced
    decreases |labels|
  {
    RunUnfolds(env, labels);
    hide Run, Step, GateFrom;
    var last := |labels| - 1;
    var before := labels[..last];
    StepGates(env, Run(env, before), labels[last], k);
    if Cleared(Run(env, before).actors[k]) {
      n := SendsOnlyLive(env, before, k);
      assert before[..n] == labels[..n];
    } else {
      n := last;
    }
  }

  // ---------- reorganisations ----------

  /** What one observation of an attempt concluded. */
  datatype Sighting = Orphaned | Seen(ok: bool, block: BlockRef)

  function Sight(db: Db, o: nat, i: nat, e: Sighting): Db {
    var r := match e case Orphaned => ReorgTx(db, o, i) case Seen(ok, block) => IncludeTx(db, o, i, ok, block);
    if r.Some? then r.value else db
  }

  function Churn(db: Db, o: nat, i: nat, events: seq<Sighting>): Db {
    if events == [] then db
    else Sight(Churn(db, o, i, events[..|events| - 1]), o, i, events[|events| - 1])
  }

  /** Nothing but the status and block of this attempt, the canonical marks of its observations and INCLUDED or
      SUBMITTED of its operation is different. */
  ghost predicate Undisturbed(d: Db, e: Db, o: nat, i: nat) {
    && e.lane == d.lane && e.requests == d.requests
    && |e.attempts| == |d.attempts| && |e.ops| == |d.ops| && |e.observations| >= |d.observations|
    && (forall k: nat | k < |d.attempts| ::
          e.attempts[k] == d.attempts[k].(status := e.attempts[k].status, block := e.attempts[k].block)
          && (k != i ==> e.attempts[k] == d.attempts[k]))
    && (forall k: nat | k < |d.ops| && (k != o || !(d.ops[k].state.Submitted? || d.ops[k].state.Included?)) ::
          e.ops[k] == d.ops[k])
    && (o < |d.ops| && (d.ops[o].state.Submitted? || d.ops[o].state.Included?) ==>
          e.ops[o].kind == d.ops[o].kind && d.ops[o].log <= e.ops[o].log
          && (e.ops[o].state.Submitted? || e.ops[o].state.Included?))
    && (forall k: nat | k < |d.observations| ::
          e.observations[k] == d.observations[k].(canonical := e.observations[k].canonical)
          && (d.observations[k].attempt != Some(i) ==> e.observations[k] == d.observations[k]))
  }

  lemma SightUndisturbed(db: Db, o: nat, i: nat, e: Sighting)
    ensures Undisturbed(db, Sight(db, o, i, e), o, i)
  {
    hide AttemptsOk;
  }

  lemma UndisturbedTransitive(d: Db, e: Db, f: Db, o: nat, i: nat)
    requires Undisturbed(d, e, o, i) && Undisturbed(e, f, o, i)
    ensures Undisturbed(d, f, o, i)
  {
    forall k: nat | k < |d.observations|
      ensures f.observations[k] == d.observations[k].(canonical := f.observations[k].canonical)
      ensures d.observations[k].attempt != Some(i) ==> f.observations[k] == d.observations[k]
    {
      assert e.observations[k] == d.observations[k].(canonical := e.observations[k].canonical);
      assert f.observations[k] == e.observations[k].(canonical := f.observations[k].canonical);
    }
    forall k: nat | k < |d.attempts|
      ensures f.attempts[k] == d.attempts[k].(status := f.attempts[k].status, block := f.attempts[k].block)
      ensures k != i ==> f.attempts[k] == d.attempts[k]
    {
      assert e.attempts[k] == d.attempts[k].(status := e.attempts[k].status, block := e.attempts[k].block);
      assert f.attempts[k] == e.attempts[k].(status := f.attempts[k].status, block := f.attempts[k].block);
    }
    forall k: nat | k < |d.ops| && (k != o || !(d.ops[k].state.Submitted? || d.ops[k].state.Included?))
      ensures f.ops[k] == d.ops[k]
    {
      assert e.ops[k] == d.ops[k];
    }
  }

  /** Reorg neutrality: any number of orphan and re-inclusion cycles leaves the lane, the attempts, their bytes and
      hashes and every settled operation as they were, and deletes no observation. */
  lemma {:induction false} ReorgNeutral(db: Db, o: nat, i: nat, events: seq<Sighting>)
    ensures Undisturbed(db, Churn(db, o, i, events), o, i)
  {
    hide Undisturbed, Sight;
    if events == [] {
      Same(db, o, i);
    } else {
      var before := events[..|events| - 1];
      ReorgNeutral(db, o, i, before);
      SightUndisturbed(Churn(db, o, i, before), o, i, events[|events| - 1]);
      UndisturbedTransitive(db, Churn(db, o, i, before), Churn(db, o, i, events), o, i);
    }
  }

  lemma Same(db: Db, o: nat, i: nat)
    ensures Undisturbed(db, db, o, i)
  {
  }
}
