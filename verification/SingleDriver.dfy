/** Level L2: one driver per operation at a time, with crashes anywhere. Failure then never strands value; which steps
    of an unrestricted interleaving do strand it is stated exactly. */
module SingleDriver {
  import opened CanonicalJson
  import opened SignedTransaction
  import opened Ledger
  import opened Tables
  import opened TableInvariants
  import opened Lifecycle
  import opened LifecycleInvariants
  import opened LifecycleSteps
  import opened LifecycleRuns
  import opened LifecycleTheorems
  import opened Broadcasts
  import opened Commits
  import Fee = TransactionIntent
  import M = OperationMachine

  // ---------- stranded value ----------

  /** Bytes of the operation were handed to a node that did not refuse them. */
  ghost predicate Out(db: Db, net: Net, o: nat) {
    exists i: nat :: i < |db.attempts| && db.attempts[i].core.op == Some(o) && db.attempts[i].bytes.Some?
                     && db.attempts[i].bytes.value in net.exposed
  }

  /** No operation is FAILED while its bytes are out. */
  ghost predicate NoneStranded(s: State) {
    forall o: nat | o < |s.db.ops| && s.db.ops[o].state.Failed? :: !Out(s.db, s.net, o)
  }

  /** The steps that can strand value: failing an operation whose bytes are out, and sending for a failed one. */
  ghost predicate Strands(db: Db, net: Net, a: Actor, ch: Choice) {
    || (a.Failing? && a.h.Operation? && FailAttemptTx(db, a.attempt, a.h).Some? && Out(db, net, a.h.op))
    || (a.Sent? && a.h.Operation? && a.result.DeterministicRejection? && OutcomeTx(db, a.attempt, a.h, a.result).Some?
        && Out(db, net, a.h.op))
    || (a.Checked? && !ch.send.DeterministicRejection? && !a.h.NoHooks? && a.h.op < |db.ops|
        && db.ops[a.h.op].state.Failed?)
  }

  // ---------- whom a worker acts for ----------

  function HookOp(h: Hooks): Option<nat> { if h.NoHooks? then None else Some(h.op) }

  function Driver(db: Db, a: Actor): Option<nat> {
    if a.Requesting? || a.Answered? || a.Settling? || a.Failing? || a.Resuming? || a.Expiring? || a.Fetching?
       || a.Persisted? || a.Allowed? || a.Sending? || a.Checked? || a.Sent? then HookOp(a.h)
    else if a.Stuck? || a.StuckOperation? || a.Replacing? then
      if a.attempt < |db.attempts| then db.attempts[a.attempt].core.op else None
    else if a.Done? || a.LaneRead? || a.LaneAt? || a.Cancelling? || a.ConfirmingRecovery? then None
    else Some(a.op)
  }

  /** Only the driver's operation changes. */
  ghost predicate Framed(d: Db, e: Db, who: Option<nat>) {
    |e.ops| == |d.ops| && forall q: nat | q < |d.ops| && who != Some(q) :: e.ops[q] == d.ops[q]
  }

  /** An operation that becomes FAILED was one failOperation touches. */
  ghost predicate FailsSafely(d: Db, e: Db) {
    forall q: nat | q < |d.ops| && q < |e.ops| && e.ops[q].state.Failed? && !d.ops[q].state.Failed? ::
      !M.Protected(d.ops[q].state)
  }

  predicate FailsByHook(a: Actor) {
    (a.Failing? && a.h.Operation?) || (a.Sent? && a.h.Operation? && a.result.DeterministicRejection?)
  }

  /** Changes at most the operation `who`, and fails it only out of flight. */
  ghost predicate Effect(d: Db, e: Db, who: Option<nat>) { Framed(d, e, who) && FailsSafely(d, e) }

  lemma SameEffect(db: Db, who: Option<nat>)
    ensures Effect(db, db, who)
  {
  }

  lemma PrepareEffects(c: Config, db: Db, o: nat, purpose: Purpose, to: Option<Address>, data: Data, gas: nat, fees: Fee.Fees,
                       chainNonce: nat)
    ensures var r := PrepareTx(c, db, o, purpose, to, data, gas, fees, chainNonce); r.Some? ==> Effect(db, r.value, Some(o))
  {
    hide AttemptsOk;
  }

  lemma FailEffects(db: Db, o: nat)
    ensures FailOperationTx(db, o).Some? ==> Effect(db, FailOperationTx(db, o).value, Some(o))
  {
    hide AttemptsOk, Latest;
  }

  lemma ExecuteFrames(env: Env, db: Db, net: Net, a: Actor, ch: Choice)
    requires a.Claimed? || a.Built? || a.Erring?
    ensures var r := ExecuteStep(env, db, net, a, ch);
            Effect(db, r.0, Driver(db, a)) && (Driver(r.0, r.2).Some? ==> Driver(r.0, r.2) == Driver(db, a))
  {
    hide PrepareTx, FailOperationTx, Effect;
    SameEffect(db, Driver(db, a));
    if a.Built? { PrepareEffects(env.c, db, a.op, a.purpose, a.to, a.data, a.gas, a.fees, a.chainNonce); }
    if a.Erring? { FailEffects(db, a.op); }
  }

  lemma SignFrames(db: Db, net: Net, a: Actor, ch: Choice)
    requires a.Requesting? || a.Answered? || a.Settling? || a.Failing? || a.Resuming? || a.Expiring? || a.Fetching?
    ensures var r := SignStep(db, net, a, ch);
            && Framed(db, r.0, Driver(db, a)) && (FailsByHook(a) || FailsSafely(db, r.0))
            && (Driver(r.0, r.2).Some? ==> Driver(r.0, r.2) == Driver(db, a))
  {
    hide AttemptsOk, VerifySigned;
  }

  lemma OutcomeFrames(db: Db, i: nat, h: Hooks, r: SendResult)
    requires OutcomeTx(db, i, h, r).Some?
    ensures var e := OutcomeTx(db, i, h, r).value;
            Framed(db, e, HookOp(h)) && ((h.Operation? && r.DeterministicRejection?) || FailsSafely(db, e))
  {
    hide AttemptsOk;
  }

  lemma SendFrames(db: Db, net: Net, a: Actor, ch: Choice)
    requires a.Persisted? || a.Allowed? || a.Sending? || a.Checked? || a.Sent?
    ensures var r := SendStep(db, net, a, ch);
            && Framed(db, r.0, Driver(db, a)) && (FailsByHook(a) || FailsSafely(db, r.0))
            && (Driver(r.0, r.2).Some? ==> Driver(r.0, r.2) == Driver(db, a))
  {
    hide AttemptsOk, BroadcastAllowed, OutcomeTx;
    if a.Sent? && OutcomeTx(db, a.attempt, a.h, a.result).Some? { OutcomeFrames(db, a.attempt, a.h, a.result); }
  }

  lemma SeeEffects(db: Db, o: nat, i: nat, e: Sighting)
    ensures Effect(db, Sight(db, o, i, e), Some(o))
  {
    hide AttemptsOk;
  }

  lemma SettleEffects(db: Db, o: nat, i: nat, to: M.OpState)
    requires !to.Failed?
    ensures SettleTx(db, o, i, to).Some? ==> Effect(db, SettleTx(db, o, i, to).value, Some(o))
  {
    hide AttemptsOk;
  }

  lemma RecoverEffects(db: Db, o: nat, i: nat, latest: Option<nat>)
    ensures AbandonTx(db, o, latest).Some? ==> Effect(db, AbandonTx(db, o, latest).value, Some(o))
    ensures AdvanceTx(db, o).Some? ==> Effect(db, AdvanceTx(db, o).value, Some(o))
    ensures RebroadcastTx(db, o, i).Some? ==> Effect(db, RebroadcastTx(db, o, i).value, Some(o))
  {
    hide AttemptsOk;
  }

  lemma ReplaceEffects(db: Db, i: nat, core: Core, who: Option<nat>)
    ensures ReplaceTx(db, i, core).Some? ==> Effect(db, ReplaceTx(db, i, core).value, who)
  {
    hide AttemptsOk;
  }

  lemma ConfirmEffects(db: Db, i: nat, ok: bool, block: BlockRef, final: bool)
    ensures ConfirmRecoveryTx(db, i, ok, block, final).Some? ==>
              Effect(db, ConfirmRecoveryTx(db, i, ok, block, final).value, None)
  {
    hide AttemptsOk;
  }

  lemma ObserveFrames(env: Env, db: Db, net: Net, a: Actor, ch: Choice)
    requires a.Observing? || a.Awaiting? || a.Including? || a.Orphaning? || a.Reconciling? || a.Judged?
    requires a.Judged? ==> !a.target.Failed?
    ensures var r := ObserveStep(env, db, net, a, ch);
            Effect(db, r.0, Driver(db, a)) && (Driver(r.0, r.2).Some? ==> Driver(r.0, r.2) == Driver(db, a))
  {
    hide IncludeTx, ReorgTx, SettleTx, Confirms, MintEventOk, Effect;
    SameEffect(db, Driver(db, a));
    if a.Including? { SeeEffects(db, a.op, a.attempt, Seen(a.ok, a.block)); }
    if a.Orphaning? { SeeEffects(db, a.op, a.attempt, Orphaned); }
    if a.Judged? { SettleEffects(db, a.op, a.attempt, a.target); }
  }

  lemma RecoverFrames(db: Db, net: Net, a: Actor, ch: Choice)
    requires a.RecoverSigning? || a.RecoverRequest? || a.RecoverUnsent? || a.Abandoning? || a.ResolveInFlight? ||
             a.LookingUp? || a.Advancing? || a.Finalizing? || a.Rebroadcasting?
    ensures var r := RecoverStep(db, net, a, ch);
            Effect(db, r.0, Driver(db, a)) && (Driver(r.0, r.2).Some? ==> Driver(r.0, r.2) == Driver(db, a))
  {
    hide AbandonTx, AdvanceTx, RebroadcastTx, Latest, Effect;
    SameEffect(db, Driver(db, a));
    if a.Abandoning? { RecoverEffects(db, a.op, 0, a.latest); }
    if a.Advancing? { RecoverEffects(db, a.op, 0, None); }
    if a.Rebroadcasting? { RecoverEffects(db, a.op, a.attempt, None); }
  }

  lemma ConfirmFrames(env: Env, db: Db, net: Net, a: Actor, ch: Choice)
    requires a.ConfirmingRecovery?
    ensures var r := ReplaceStep(env, db, net, a, ch); Effect(db, r.0, None) && r.2 == Done
  {
    hide ConfirmRecoveryTx, Confirms, Effect;
    SameEffect(db, None);
    match ch.seen
    case SeenIncluded(ok, block) => ConfirmEffects(db, a.attempt, ok, block, false);
    case SeenReverted(block, _) => ConfirmEffects(db, a.attempt, false, block, false);
    case SeenFinal(block, _) => ConfirmEffects(db, a.attempt, true, block, true);
    case _ =>
  }

  lemma ReplaceFrames(env: Env, db: Db, net: Net, a: Actor, ch: Choice)
    requires a.Stuck? || a.StuckOperation? || a.Replacing? || a.LaneRead? || a.LaneAt? || a.Cancelling? ||
             a.ConfirmingRecovery?
    ensures var r := ReplaceStep(env, db, net, a, ch);
            && Effect(db, r.0, Driver(db, a)) && (Driver(r.0, r.2).Some? ==> Driver(r.0, r.2) == Driver(db, a))
  {
    hide ReplaceTx, ConfirmRecoveryTx, Confirms, Effect, LiveBelow;
    SameEffect(db, Driver(db, a));
    if a.ConfirmingRecovery? {
      ConfirmFrames(env, db, net, a, ch);
    } else if (a.Replacing? || a.Cancelling?) && a.attempt < |db.attempts| {
      var p := db.attempts[a.attempt].core;
      var fees := Fee.BumpFees(Fee.Fees(p.request.maxFee, p.request.priority), Estimate(ch), env.c.bump);
      var q := if a.Replacing? then FeeReplacement(a.attempt, p, fees) else Cancellation(env.c, a.attempt, p, fees);
      ReplaceEffects(db, a.attempt, q, Driver(db, a));
    }
  }

  /** A worker changes no operation but its own, stays with it, and fails it past failOperation's guard only through the executor's
      hooks. */
  lemma ActorFrames(env: Env, db: Db, net: Net, a: Actor, ch: Choice)
    requires a.Judged? ==> !a.target.Failed?
    ensures var r := ActorStep(env, db, net, a, ch);
            && Framed(db, r.0, Driver(db, a)) && (FailsByHook(a) || FailsSafely(db, r.0))
            && (Driver(r.0, r.2).Some? ==> Driver(r.0, r.2) == Driver(db, a))
  {
    hide ExecuteStep, SignStep, SendStep, ObserveStep, RecoverStep, ReplaceStep, Driver, Framed, FailsSafely, FailsByHook;
    if a.Done? { DoneFrames(db); }
    else if a.Claimed? || a.Built? || a.Erring? { ExecuteFrames(env, db, net, a, ch); }
    else if a.Requesting? || a.Answered? || a.Settling? || a.Failing? || a.Resuming? || a.Expiring? || a.Fetching? {
      SignFrames(db, net, a, ch);
    }
    else if a.Persisted? || a.Allowed? || a.Sending? || a.Checked? || a.Sent? { SendFrames(db, net, a, ch); }
    else if a.Observing? || a.Awaiting? || a.Including? || a.Orphaning? || a.Reconciling? || a.Judged? {
      ObserveFrames(env, db, net, a, ch);
    }
    else if a.Stuck? || a.StuckOperation? || a.Replacing? || a.LaneRead? || a.LaneAt? || a.Cancelling? ||
            a.ConfirmingRecovery? {
      ReplaceFrames(env, db, net, a, ch);
    }
    else { RecoverFrames(db, net, a, ch); }
  }

  lemma DoneFrames(db: Db)
    ensures Framed(db, db, None) && FailsSafely(db, db) && Driver(db, Done) == None
  {
  }

  // ---------- bytes that are out ----------

  lemma OutProtected(env: Env, s: State, o: nat)
    requires L1(env, s) && Out(s.db, s.net, o)
    ensures o < |s.db.ops| && M.Protected(s.db.ops[o].state)
  {
    hide Inv, SuccessOk, ChainOk, DecidedOk, ActorOk;
    var i: nat :| i < |s.db.attempts| && s.db.attempts[i].core.op == Some(o) && s.db.attempts[i].bytes.Some?
                  && s.db.attempts[i].bytes.value in s.net.exposed;
    assert Tied(s.db, o, i);
  }

  /** Storing bytes cannot put an operation's bytes out: those a node has are stored already. */
  lemma OutStays(env: Env, s: State, t: State, o: nat)
    requires L1(env, s) && L1(env, t) && Grows(s.db, t.db) && t.net.exposed == s.net.exposed
    ensures Out(t.db, t.net, o) == Out(s.db, s.net, o)
  {
    hide SuccessOk, ActorOk, RowsOk, LaneOk, TiesOk, IntentsOk, OpsOk, SyncsOk, SyncOrder;
    if Out(s.db, s.net, o) {
      var i: nat :| i < |s.db.attempts| && s.db.attempts[i].core.op == Some(o) && s.db.attempts[i].bytes.Some?
                    && s.db.attempts[i].bytes.value in s.net.exposed;
      assert AttemptKept(s.db.attempts[i], t.db.attempts[i]);
    }
    if Out(t.db, t.net, o) {
      var i: nat :| i < |t.db.attempts| && t.db.attempts[i].core.op == Some(o) && t.db.attempts[i].bytes.Some?
                    && t.db.attempts[i].bytes.value in t.net.exposed;
      assert Stored(s.db.attempts, t.db.attempts[i].bytes.value);
      var j: nat :| j < |s.db.attempts| && s.db.attempts[j].bytes == t.db.attempts[i].bytes;
      assert AttemptKept(s.db.attempts[j], t.db.attempts[j]);
      SameRow(t.db.attempts, i, j);
    }
  }

  /** A send puts out the bytes of its own operation only. */
  lemma SendPutsOut(env: Env, s: State, a: Actor, net: Net, o: nat)
    requires L1(env, s) && a.Checked? && ActorOk(env, s.db, s.net, a) && net.exposed == s.net.exposed + {a.tx}
    ensures Out(s.db, net, o) <==> Out(s.db, s.net, o) || Driver(s.db, a) == Some(o)
  {
    hide SuccessOk, RowsOk, LaneOk, TiesOk, IntentsOk, OpsOk, SyncsOk, SyncOrder, NetOk;
    if Driver(s.db, a) == Some(o) {
      assert s.db.attempts[a.attempt].core.op == Some(o);
      assert s.db.attempts[a.attempt].bytes.value in net.exposed;
    }
    if Out(s.db, net, o) && !Out(s.db, s.net, o) {
      var i: nat :| i < |s.db.attempts| && s.db.attempts[i].core.op == Some(o) && s.db.attempts[i].bytes.Some?
                    && s.db.attempts[i].bytes.value in net.exposed;
      SameRow(s.db.attempts, i, a.attempt);
    }
    if Out(s.db, s.net, o) {
      var i: nat :| i < |s.db.attempts| && s.db.attempts[i].core.op == Some(o) && s.db.attempts[i].bytes.Some?
                    && s.db.attempts[i].bytes.value in s.net.exposed;
      assert s.db.attempts[i].bytes.value in net.exposed;
    }
  }

  // ---------- exactly when value is stranded ----------

  lemma HookFails(s: State, a: Actor, t: Db, ch: Choice, env: Env)
    requires FailsByHook(a) && t == ActorStep(env, s.db, s.net, a, ch).0
    requires ActorOk(env, s.db, s.net, a)
    ensures var r := if a.Failing? then FailAttemptTx(s.db, a.attempt, a.h) else OutcomeTx(s.db, a.attempt, a.h, a.result);
            if r.Some? then a.h.op < |t.ops| && t.ops[a.h.op].state.Failed? && Framed(s.db, t, Some(a.h.op))
            else t == s.db
  {
    hide AttemptsOk, ExecuteStep, ObserveStep, RecoverStep, ReplaceStep;
  }

  lemma CheckedSends(env: Env, db: Db, net: Net, a: Actor, ch: Choice)
    requires a.Checked?
    ensures ActorStep(env, db, net, a, ch).0 == db
  {
  }

  /** One step of one worker leaves value stranded exactly when it fails an operation whose bytes are out or sends for
      a failed one. */
  lemma StrandsExactly(env: Env, s: State, k: nat, ch: Choice)
    requires L1(env, s) && NoneStranded(s) && k < |s.actors|
    ensures NoneStranded(Step(env, s, Act(k, ch))) <==> !Strands(s.db, s.net, s.actors[k], ch)
  {
    hide L1, Out, ActorStep, FailAttemptTx, OutcomeTx, NetGrows, FailsSafely;
    var a := s.actors[k];
    var t := Step(env, s, Act(k, ch));
    StepKeeps(env, s, Act(k, ch));
    WorkerOk(env, s, k);
    ActorFrames(env, s.db, s.net, a, ch);
    ActorExposes(env, s.db, s.net, a, ch);
    if a.Checked? && !ch.send.DeterministicRejection? {
      SendStrands(env, s, a, t, ch);
    } else {
      forall o: nat ensures Out(t.db, t.net, o) == Out(s.db, s.net, o) { OutStays(env, s, t, o); }
      if FailsByHook(a) { HookStrands(env, s, a, t, ch); } else { QuietStrands(env, s, t); }
    }
  }

  lemma WorkerOk(env: Env, s: State, k: nat)
    requires L1(env, s) && k < |s.actors|
    ensures ActorOk(env, s.db, s.net, s.actors[k]) && (s.actors[k].Judged? ==> !s.actors[k].target.Failed?)
  {
    hide Inv, NetOk, SuccessOk;
    assert ActorOk(env, s.db, s.net, s.actors[k]);
  }

  lemma QuietStrands(env: Env, s: State, t: State)
    requires L1(env, s) && NoneStranded(s) && FailsSafely(s.db, t.db)
    requires forall o: nat | |s.db.ops| <= o < |t.db.ops| :: !t.db.ops[o].state.Failed?
    requires forall o: nat :: Out(t.db, t.net, o) == Out(s.db, s.net, o)
    ensures NoneStranded(t)
  {
    hide L1, Out;
    forall o: nat | o < |t.db.ops| && t.db.ops[o].state.Failed? ensures !Out(t.db, t.net, o) {
      if Out(s.db, s.net, o) { OutProtected(env, s, o); }
    }
  }

  lemma SendStrands(env: Env, s: State, a: Actor, t: State, ch: Choice)
    requires L1(env, s) && NoneStranded(s) && a.Checked? && ActorOk(env, s.db, s.net, a)
    requires !ch.send.DeterministicRejection? && t.net.exposed == s.net.exposed + {a.tx}
    requires t.db == ActorStep(env, s.db, s.net, a, ch).0
    ensures NoneStranded(t) <==> !Strands(s.db, s.net, a, ch)
  {
    hide L1, Out, ActorStep;
    CheckedSends(env, s.db, s.net, a, ch);
    forall o: nat ensures Out(t.db, t.net, o) <==> Out(s.db, s.net, o) || Driver(s.db, a) == Some(o) {
      SendPutsOut(env, s, a, t.net, o);
    }
  }

  lemma HookStrands(env: Env, s: State, a: Actor, t: State, ch: Choice)
    requires NoneStranded(s) && FailsByHook(a) && ActorOk(env, s.db, s.net, a)
    requires t.db == ActorStep(env, s.db, s.net, a, ch).0
    requires forall o: nat :: Out(t.db, t.net, o) == Out(s.db, s.net, o)
    ensures NoneStranded(t) <==> !Strands(s.db, s.net, a, ch)
  {
    hide Out, ActorStep, FailAttemptTx, OutcomeTx;
    HookFails(s, a, t.db, ch, env);
  }

  // ---------- what a worker can see of it ----------

  /** What the rows show before such a step: the operation is in BROADCASTING or BROADCAST_UNKNOWN and its attempt was
      not replaced, or it is FAILED and about to be sent for. */
  predicate Risky(db: Db, a: Actor, ch: Choice) {
    || (FailsByHook(a) && Live(db, a.attempt) && a.h.op < |db.ops|
        && (db.ops[a.h.op].state.Broadcasting? || db.ops[a.h.op].state.BroadcastUnknown?))
    || (a.Checked? && !ch.send.DeterministicRejection? && !a.h.NoHooks? && a.h.op < |db.ops|
        && db.ops[a.h.op].state.Failed?)
  }

  /** A send strands value exactly when its operation's row is FAILED. A failure does exactly when it meets BROADCASTING
      or BROADCAST_UNKNOWN, on an attempt not replaced, while bytes are out; never from SIGNING or SIGNED. */
  lemma StrandsByRows(env: Env, s: State, k: nat, ch: Choice)
    requires L1(env, s) && k < |s.actors|
    ensures var a := s.actors[k];
            Strands(s.db, s.net, a, ch) <==> Risky(s.db, a, ch) && (a.Checked? || Out(s.db, s.net, a.h.op))
  {
    hide L1, Out, FailAttemptTx, OutcomeTx;
    WorkerOk(env, s, k);
    var a := s.actors[k];
    if FailsByHook(a) {
      HookCommits(env, s, a);
      if Out(s.db, s.net, a.h.op) { OutProtected(env, s, a.h.op); }
    }
  }

  lemma HookCommits(env: Env, s: State, a: Actor)
    requires L1(env, s) && ActorOk(env, s.db, s.net, a) && FailsByHook(a)
    ensures var r := if a.Failing? then FailAttemptTx(s.db, a.attempt, a.h) else OutcomeTx(s.db, a.attempt, a.h, a.result);
            r.Some? <==> Live(s.db, a.attempt) && May(s.db, a.h.op, M.Failed)
  {
    hide Inv, NetOk, SuccessOk, FailAttemptTx, OutcomeTx;
    if a.Failing? {
      FailAttemptExactly(env.c, env.base, s.db, a.attempt, a.h);
    } else {
      OutcomeExactly(env.c, env.base, s.db, a.attempt, a.h, a.result);
    }
  }

  /** Whatever the interleaving, a run in which no worker takes a step the rows show to be risky strands nothing. */
  lemma {:induction false} UnriskyRunStrandsNothing(env: Env, labels: seq<Label>)
    requires forall n: nat | n < |labels| && labels[n].Act? ::
               var s := Run(env, labels[..n]);
               labels[n].actor < |s.actors| ==> !Risky(s.db, s.actors[labels[n].actor], labels[n].ch)
    ensures NoneStranded(Run(env, labels))
  {
    if labels != [] {
      hide L1, Step, Risky, NoneStranded;
      var n := |labels| - 1;
      forall m: nat | m < n ensures labels[..n][..m] == labels[..m] {}
      UnriskyRunStrandsNothing(env, labels[..n]);
      RunKeeps(env, labels[..n]);
      UnriskyStep(env, Run(env, labels[..n]), labels[n]);
    } else {
      Starts(env);
    }
  }

  lemma Starts(env: Env)
    ensures NoneStranded(Run(env, []))
  {
  }

  lemma UnriskyStep(env: Env, s: State, l: Label)
    requires L1(env, s) && NoneStranded(s)
    requires l.Act? && l.actor < |s.actors| ==> !Risky(s.db, s.actors[l.actor], l.ch)
    ensures NoneStranded(Step(env, s, l))
  {
    hide L1, NoneStranded, Outside, Risky, Strands, ActorStep;
    if l.Act? {
      if l.actor < |s.actors| {
        StrandsExactly(env, s, l.actor, l.ch);
        StrandsByRows(env, s, l.actor, l.ch);
      }
    } else {
      StepKeeps(env, s, l);
      LabelOutside(env, s, l);
      OutsideStrands(env, s, Step(env, s, l));
    }
  }

  // ---------- one driver at a time ----------

  function Begins(db: Db, l: Label): Option<nat> {
    match l
    case BeginExecute(o) => Some(o)
    case BeginRecovery(o, _) => Some(o)
    case BeginReplacement(i) => if i < |db.attempts| then db.attempts[i].core.op else None
    case _ => None
  }

  predicate Idle(s: State, o: nat) {
    forall k: nat | k < |s.actors| :: Driver(s.db, s.actors[k]) != Some(o)
  }

  /** A worker starts on an operation only while no other works on it, so what the recovery sweep read of it is still
      current. */
  predicate Solo(s: State, l: Label) {
    && (Begins(s.db, l).Some? ==> Idle(s, Begins(s.db, l).value))
    && (l.BeginRecovery? ==> l.op < |s.db.ops| && l.read == s.db.ops[l.op].state)
  }

  /** L2 excludes nothing but a second driver and a recovery that acts on a state no longer current: every other step, and
      every crash, answer, block and reorganisation, stays possible at any time. */
  lemma SoloExactly(s: State, l: Label)
    ensures Solo(s, l) <==>
              match l
              case BeginExecute(o) => forall k: nat | k < |s.actors| :: Driver(s.db, s.actors[k]) != Some(o)
              case BeginRecovery(o, read) =>
                && (forall k: nat | k < |s.actors| :: Driver(s.db, s.actors[k]) != Some(o))
                && o < |s.db.ops| && read == s.db.ops[o].state
              case BeginReplacement(i) =>
                i < |s.db.attempts| && s.db.attempts[i].core.op.Some? ==>
                  forall k: nat | k < |s.actors| :: Driver(s.db, s.actors[k]) != s.db.attempts[i].core.op
              case _ => true
  {
    hide Driver;
  }

  ghost predicate SoloRun(env: Env, labels: seq<Label>) {
    forall n: nat | n < |labels| :: Solo(Run(env, labels[..n]), labels[n])
  }

  ghost predicate OneDriver(s: State) {
    forall k: nat, l: nat | k < l < |s.actors| && Driver(s.db, s.actors[k]).Some? ::
      Driver(s.db, s.actors[k]) != Driver(s.db, s.actors[l])
  }

  /** What a driver may rely on: before it fails its operation the bytes are not out, and before it sends again the
      operation has not failed. */
  predicate Fits(a: Actor, failed: bool, out: bool) {
    if a.Requesting? || a.Answered? || a.Settling? || a.Failing? || a.Resuming? || a.Expiring? || a.Fetching?
       || a.Persisted? || a.Allowed? then if a.h.Operation? then !out else !failed
    else if a.Sending? || a.Checked? then !failed && (a.h.Operation? ==> !out)
    else if a.Sent? then a.h.Operation? && a.result.DeterministicRejection? ==> !out
    else if a.RecoverSigning? || a.RecoverRequest? then !failed && !out
    else if a.RecoverUnsent? || a.ResolveInFlight? || a.LookingUp? || a.Rebroadcasting? || a.Replacing? then !failed
    else true
  }

  ghost predicate Fit(db: Db, net: Net, a: Actor) {
    Driver(db, a).Some? ==>
      var o := Driver(db, a).value;
      o < |db.ops| && Fits(a, db.ops[o].state.Failed?, Out(db, net, o))
  }

  ghost predicate L2(env: Env, s: State) {
    && L1(env, s) && NoneStranded(s) && OneDriver(s)
    && forall k: nat | k < |s.actors| :: Fit(s.db, s.net, s.actors[k])
  }

  /** A driver that may rely on all this strands nothing. */
  lemma FitNeverStrands(env: Env, s: State, k: nat, ch: Choice)
    requires L2(env, s) && k < |s.actors|
    ensures !Strands(s.db, s.net, s.actors[k], ch)
  {
    hide L1, Out, NoneStranded, OneDriver, FailAttemptTx, OutcomeTx;
    assert Fit(s.db, s.net, s.actors[k]);
  }

  lemma ExecuteFits(env: Env, db: Db, net: Net, a: Actor, ch: Choice, out: bool)
    requires a.Claimed? || a.Built? || a.Erring?
    requires a.op < |db.ops|
    requires var e := ExecuteStep(env, db, net, a, ch).0;
             a.op < |e.ops| && (out ==> M.Protected(e.ops[a.op].state))
    ensures var r := ExecuteStep(env, db, net, a, ch); r.2 != Done ==> Fits(r.2, r.0.ops[a.op].state.Failed?, out)
  {
    hide AttemptsOk, FailOperationTx;
  }

  lemma SignFits(db: Db, net: Net, a: Actor, ch: Choice, out: bool)
    requires a.Requesting? || a.Answered? || a.Settling? || a.Failing? || a.Resuming? || a.Expiring? || a.Fetching?
    requires !a.h.NoHooks? && !a.h.Recovery? && a.h.op < |db.ops| && Fits(a, db.ops[a.h.op].state.Failed?, out)
    ensures var r := SignStep(db, net, a, ch);
            r.2 != Done ==> a.h.op < |r.0.ops| && Fits(r.2, r.0.ops[a.h.op].state.Failed?, out)
  {
    hide AttemptsOk, VerifySigned;
  }

  lemma SendFits(db: Db, net: Net, a: Actor, ch: Choice, out: bool, now: bool)
    requires a.Persisted? || a.Allowed? || a.Sending? || a.Checked? || a.Sent?
    requires !a.h.NoHooks? && a.h.op < |db.ops| && Fits(a, db.ops[a.h.op].state.Failed?, out)
    requires now == (out || (a.Checked? && !ch.send.DeterministicRejection?))
    ensures var r := SendStep(db, net, a, ch);
            r.2 != Done ==> a.h.op < |r.0.ops| && Fits(r.2, r.0.ops[a.h.op].state.Failed?, now)
  {
    hide AttemptsOk, BroadcastAllowed, OutcomeTx;
    if a.Sent? && OutcomeTx(db, a.attempt, a.h, a.result).Some? { OutcomeFrames(db, a.attempt, a.h, a.result); }
  }

  lemma RecoverFits(db: Db, net: Net, a: Actor, ch: Choice, out: bool)
    requires a.RecoverSigning? || a.RecoverRequest? || a.RecoverUnsent? || a.Abandoning? || a.ResolveInFlight? ||
             a.LookingUp? || a.Advancing? || a.Finalizing? || a.Rebroadcasting?
    requires a.op < |db.ops| && Fits(a, db.ops[a.op].state.Failed?, out)
    ensures var r := RecoverStep(db, net, a, ch);
            r.2 != Done ==> a.op < |r.0.ops| && Fits(r.2, r.0.ops[a.op].state.Failed?, out)
  {
    hide AttemptsOk, AbandonTx, Latest;
  }

  lemma ObserveFits(env: Env, db: Db, net: Net, a: Actor, ch: Choice, failed: bool, out: bool)
    requires a.Observing? || a.Awaiting? || a.Including? || a.Orphaning? || a.Reconciling? || a.Judged?
    ensures Fits(ObserveStep(env, db, net, a, ch).2, failed, out)
  {
    hide IncludeTx, ReorgTx, SettleTx, Confirms, MintEventOk;
  }

  lemma ReplaceFits(env: Env, db: Db, net: Net, a: Actor, ch: Choice, out: bool)
    requires a.Stuck? || a.StuckOperation? || a.Replacing?
    requires Driver(db, a).Some? && Driver(db, a).value < |db.ops|
    requires Fits(a, db.ops[Driver(db, a).value].state.Failed?, out)
    ensures var r := ReplaceStep(env, db, net, a, ch);
            r.2 != Done ==> Fits(r.2, db.ops[Driver(db, a).value].state.Failed?, out) && r.0.ops == db.ops
  {
    hide AttemptsOk;
  }

  lemma ActorFits(env: Env, db: Db, net: Net, a: Actor, ch: Choice, out: bool, now: bool)
    requires Driver(db, a).Some? && Driver(db, a).value < |db.ops|
    requires ActorOk(env, db, net, a)
    requires Fits(a, db.ops[Driver(db, a).value].state.Failed?, out)
    requires now == (out || (a.Checked? && !ch.send.DeterministicRejection?))
    requires var e, o := ActorStep(env, db, net, a, ch).0, Driver(db, a).value;
             |e.ops| == |db.ops| && (now ==> M.Protected(e.ops[o].state))
    ensures var r, o := ActorStep(env, db, net, a, ch), Driver(db, a).value;
            r.2 != Done ==> Fits(r.2, r.0.ops[o].state.Failed?, now)
  {
    hide ExecuteStep, SignStep, SendStep, ObserveStep, RecoverStep, ReplaceStep, Fits;
    if a.Claimed? || a.Built? || a.Erring? { ExecuteFits(env, db, net, a, ch, out); }
    else if a.Requesting? || a.Answered? || a.Settling? || a.Failing? || a.Resuming? || a.Expiring? || a.Fetching? {
      SignFits(db, net, a, ch, out);
    }
    else if a.Persisted? || a.Allowed? || a.Sending? || a.Checked? || a.Sent? { SendFits(db, net, a, ch, out, now); }
    else if a.Observing? || a.Awaiting? || a.Including? || a.Orphaning? || a.Reconciling? || a.Judged? {
      var o := Driver(db, a).value;
      ObserveFits(env, db, net, a, ch, ActorStep(env, db, net, a, ch).0.ops[o].state.Failed?, now);
    }
    else if a.Stuck? || a.StuckOperation? || a.Replacing? { ReplaceFits(env, db, net, a, ch, out); }
    else { RecoverFits(db, net, a, ch, out); }
  }

  // ---------- every step of a solo run ----------

  lemma DriverStays(env: Env, d: Db, n: Net, e: Db, a: Actor)
    requires ActorOk(env, d, n, a) && Grows(d, e)
    ensures Driver(e, a) == Driver(d, a)
  {
    if a.Stuck? || a.StuckOperation? || a.Replacing? { assert AttemptKept(d.attempts[a.attempt], e.attempts[a.attempt]); }
  }

  /** What the labels that are no worker's step do. */
  ghost predicate Outside(s: State, t: State) {
    && t.net.exposed == s.net.exposed && t.db.attempts == s.db.attempts && |s.db.ops| <= |t.db.ops|
    && (forall o: nat | o < |t.db.ops| && t.db.ops[o].state.Failed? :: o < |s.db.ops| && s.db.ops[o] == t.db.ops[o])
  }

  lemma LabelOutside(env: Env, s: State, l: Label)
    requires !l.Act?
    ensures Outside(s, Step(env, s, l))
  {
    hide OneLiveSync, CanMine, IsStuck;
  }

  lemma LabelActors(env: Env, s: State, l: Label)
    requires !l.Act?
    ensures var t := Step(env, s, l);
            || t.actors == s.actors
            || (l.Crash? && l.actor < |s.actors| && t.actors == s.actors[l.actor := Done])
            || (|t.actors| == |s.actors| + 1 && t.actors[..|s.actors|] == s.actors)
  {
    hide OneLiveSync, CanMine, IsStuck, Move, MoveIf, InsertOp, EnqueueSyncTx;
  }

  lemma ExecuteStarts(env: Env, s: State, o: nat)
    requires o < |s.db.ops| && s.db.ops[o].state.Ready?
    ensures var t := Step(env, s, BeginExecute(o)); |t.db.ops| == |s.db.ops| && t.actors == s.actors + [Claimed(o)]
  {
  }

  lemma EntryFits(o: nat, read: M.OpState, out: bool)
    requires out ==> M.Protected(read)
    ensures Fits(RecoveryEntry(o, read), read.Failed?, out)
    ensures RecoveryEntry(o, read) == Done || Driver(Db([], [], None, map[], []), RecoveryEntry(o, read)) == Some(o)
  {
  }

  lemma RecoveryStarts(env: Env, s: State, o: nat, read: M.OpState)
    requires L1(env, s) && o < |s.db.ops| && read == s.db.ops[o].state
    ensures var a := RecoveryEntry(o, read); (Driver(s.db, a).Some? ==> Driver(s.db, a) == Some(o)) && Fit(s.db, s.net, a)
  {
    hide L1, Out;
    if Out(s.db, s.net, o) { OutProtected(env, s, o); }
    EntryFits(o, read, Out(s.db, s.net, o));
  }

  lemma StuckStarts(env: Env, s: State, i: nat)
    requires L1(env, s) && i < |s.db.attempts| && IsStuck(env, s.db.attempts[i])
    ensures Driver(s.db, Stuck(i)) == s.db.attempts[i].core.op && Fit(s.db, s.net, Stuck(i))
  {
    hide L1, Out, IsStuck;
    StuckBegins(env, s, i);
    WorkerOk(env, Spawn(s, Stuck(i)), |s.actors|);
    StuckDriver(env, s, i);
  }

  /** A worker that starts: on its own operation, and where the state it read sends it. */
  lemma Started(env: Env, s: State, l: Label)
    requires L1(env, s) && Solo(s, l) && !l.Act? && |Step(env, s, l).actors| > |s.actors|
    ensures var t := Step(env, s, l);
            var a := t.actors[|s.actors|];
            (Driver(t.db, a).Some? ==> Driver(t.db, a) == Begins(s.db, l)) && Fit(t.db, t.net, a)
  {
    hide OneLiveSync, CanMine, IsStuck, Out, L1, MoveIf, Move, InsertOp, EnqueueSyncTx, RecoveryEntry;
    match l
    case BeginExecute(o) => ExecuteStarts(env, s, o);
    case BeginRecovery(o, read) => RecoveryStarts(env, s, o, read);
    case BeginReplacement(i) => StuckStarts(env, s, i);
    case _ =>
  }

  lemma StuckDriver(env: Env, t: State, i: nat)
    requires L1(env, t) && StuckOk(t.db, i)
    ensures t.db.attempts[i].core.op.Some? ==> t.db.attempts[i].core.op.value < |t.db.ops|
  {
  }

  lemma OutsideKeeps(env: Env, s: State, t: State, a: Actor)
    requires L1(env, s) && L1(env, t) && Grows(s.db, t.db) && Outside(s, t)
    requires ActorOk(env, s.db, s.net, a) && Fit(s.db, s.net, a)
    ensures Fit(t.db, t.net, a) && Driver(t.db, a) == Driver(s.db, a)
  {
    hide L1, Out, ActorOk, Grows;
    DriverStays(env, s.db, s.net, t.db, a);
    if Driver(s.db, a).Some? {
      var o := Driver(s.db, a).value;
      OutStays(env, s, t, o);
    }
  }

  lemma LabelFits(env: Env, s: State, l: Label)
    requires L2(env, s) && Solo(s, l) && !l.Act?
    ensures L2(env, Step(env, s, l))
  {
    hide L1, Out, Step, Fit, Solo, Outside, Driver;
    var t := Step(env, s, l);
    StepKeeps(env, s, l);
    LabelOutside(env, s, l);
    LabelActors(env, s, l);
    OutsideStrands(env, s, t);
    forall k: nat | k < |s.actors| ensures Fit(t.db, t.net, s.actors[k]) && Driver(t.db, s.actors[k]) == Driver(s.db, s.actors[k]) {
      WorkerOk(env, s, k);
      OutsideKeeps(env, s, t, s.actors[k]);
    }
    DoneFits(t.db, t.net);
    if |t.actors| > |s.actors| {
      Started(env, s, l);
      assert forall k: nat | k < |s.actors| :: t.actors[..|s.actors|][k] == s.actors[k];
      NewDriver(s, t, l);
    }
  }

  lemma DoneFits(db: Db, net: Net)
    ensures Fit(db, net, Done) && Driver(db, Done).None?
  {
  }

  lemma NewDriver(s: State, t: State, l: Label)
    requires OneDriver(s) && Solo(s, l) && |t.actors| == |s.actors| + 1
    requires forall k: nat | k < |s.actors| :: t.actors[k] == s.actors[k] && Driver(t.db, s.actors[k]) == Driver(s.db, s.actors[k])
    requires Driver(t.db, t.actors[|s.actors|]).Some? ==> Driver(t.db, t.actors[|s.actors|]) == Begins(s.db, l)
    ensures OneDriver(t)
  {
    hide Driver, Begins;
  }

  lemma OutsideStrands(env: Env, s: State, t: State)
    requires L1(env, s) && L1(env, t) && Grows(s.db, t.db) && Outside(s, t) && NoneStranded(s)
    ensures NoneStranded(t)
  {
    hide L1, Out, Grows;
    forall o: nat ensures Out(t.db, t.net, o) == Out(s.db, s.net, o) { OutStays(env, s, t, o); }
  }

  /** What a worker's step does to another worker's operation. */
  lemma BystanderFits(env: Env, s: State, t: State, k: nat, l: nat, ch: Choice)
    requires L2(env, s) && L1(env, t) && k < |s.actors| && l < |s.actors| && k != l && t == Step(env, s, Act(k, ch))
    requires Grows(s.db, t.db) && Framed(s.db, t.db, Driver(s.db, s.actors[k]))
    ensures Fit(t.db, t.net, s.actors[l]) && Driver(t.db, s.actors[l]) == Driver(s.db, s.actors[l])
  {
    hide L1, Out, ActorStep, Grows, Fits, NoneStranded;
    var a, b := s.actors[k], s.actors[l];
    WorkerOk(env, s, k);
    WorkerOk(env, s, l);
    DriverStays(env, s.db, s.net, t.db, b);
    assert Fit(s.db, s.net, b);
    if Driver(s.db, b).Some? {
      var o := Driver(s.db, b).value;
      OthersDriver(s, k, l);
      OutOfOthers(env, s, t, k, o, ch);
    }
  }

  lemma OthersDriver(s: State, k: nat, l: nat)
    requires OneDriver(s) && k < |s.actors| && l < |s.actors| && k != l && Driver(s.db, s.actors[l]).Some?
    ensures Driver(s.db, s.actors[k]) != Driver(s.db, s.actors[l])
  {
    hide Driver;
  }

  lemma OutOfOthers(env: Env, s: State, t: State, k: nat, o: nat, ch: Choice)
    requires L1(env, s) && L1(env, t) && k < |s.actors| && t == Step(env, s, Act(k, ch)) && Grows(s.db, t.db)
    ensures Out(t.db, t.net, o) ==
            (Out(s.db, s.net, o) || (s.actors[k].Checked? && !ch.send.DeterministicRejection? && Driver(s.db, s.actors[k]) == Some(o)))
  {
    hide L1, Out, ActorStep, Grows, Driver;
    var a := s.actors[k];
    ActorExposes(env, s.db, s.net, a, ch);
    if a.Checked? && !ch.send.DeterministicRejection? {
      WorkerOk(env, s, k);
      CheckedSends(env, s.db, s.net, a, ch);
      SendPutsOut(env, s, a, t.net, o);
    } else {
      OutStays(env, s, t, o);
    }
  }

  lemma OwnFits(env: Env, s: State, t: State, k: nat, ch: Choice)
    requires L2(env, s) && L1(env, t) && k < |s.actors| && t == Step(env, s, Act(k, ch)) && Grows(s.db, t.db)
    requires |t.db.ops| == |s.db.ops|
    requires Driver(t.db, t.actors[k]).Some? ==> Driver(t.db, t.actors[k]) == Driver(s.db, s.actors[k])
    ensures Fit(t.db, t.net, t.actors[k])
  {
    hide L1, Out, ActorStep, Grows, Fits, NoneStranded, Driver;
    var a := s.actors[k];
    if Driver(t.db, t.actors[k]).Some? {
      var o := Driver(s.db, a).value;
      assert Fit(s.db, s.net, a);
      WorkerOk(env, s, k);
      OutOfOthers(env, s, t, k, o, ch);
      if Out(t.db, t.net, o) { OutProtected(env, t, o); }
      ActorFits(env, s.db, s.net, a, ch, Out(s.db, s.net, o), Out(t.db, t.net, o));
      DoneFits(t.db, t.net);
    }
  }

  lemma ActFits(env: Env, s: State, k: nat, ch: Choice)
    requires L2(env, s) && k < |s.actors|
    ensures L2(env, Step(env, s, Act(k, ch)))
  {
    var t := Step(env, s, Act(k, ch));
    hide L1, Out, ActorStep, Fit, Driver, NoneStranded, Framed, FailsSafely;
    StepKeeps(env, s, Act(k, ch));
    FitNeverStrands(env, s, k, ch);
    StrandsExactly(env, s, k, ch);
    WorkerOk(env, s, k);
    ActorFrames(env, s.db, s.net, s.actors[k], ch);
    FramedSize(s.db, t.db, Driver(s.db, s.actors[k]));
    OwnFits(env, s, t, k, ch);
    forall l: nat | l < |s.actors| && l != k
      ensures Fit(t.db, t.net, t.actors[l]) && Driver(t.db, t.actors[l]) == Driver(s.db, s.actors[l])
    {
      BystanderFits(env, s, t, k, l, ch);
    }
  }

  lemma FramedSize(d: Db, e: Db, who: Option<nat>)
    requires Framed(d, e, who)
    ensures |e.ops| == |d.ops|
  {
  }

  lemma SoloPrefix(env: Env, labels: seq<Label>)
    requires SoloRun(env, labels) && labels != []
    ensures SoloRun(env, labels[..|labels| - 1])
  {
    hide Run, Solo;
    var before := labels[..|labels| - 1];
    forall k: nat | k < |before| ensures Solo(Run(env, before[..k]), before[k]) {
      assert before[..k] == labels[..k];
    }
  }

  lemma SoloStart(env: Env)
    ensures L2(env, Run(env, []))
  {
    RunKeeps(env, []);
  }

  lemma {:induction false} SoloRunKeeps(env: Env, labels: seq<Label>)
    requires SoloRun(env, labels)
    ensures L2(env, Run(env, labels))
  {
    hide L2, Step, Solo;
    if labels == [] {
      SoloStart(env);
    } else {
      var n := |labels| - 1;
      SoloPrefix(env, labels);
      SoloRunKeeps(env, labels[..n]);
      SoloStep(env, Run(env, labels[..n]), labels[n]);
    }
  }

  lemma SoloStep(env: Env, s: State, l: Label)
    requires L2(env, s) && Solo(s, l)
    ensures L2(env, Step(env, s, l))
  {
    hide L2, Solo;
    if !l.Act? { LabelFits(env, s, l); } else if l.actor < |s.actors| { ActFits(env, s, l.actor, l.ch); }
  }

  /** Failure never strands value: with one driver per operation, no operation is FAILED whose bytes were handed to a
      node without a deterministic refusal. Bytes that were, belong to an operation whose log has SIGNED and then
      BROADCASTING. */
  lemma FailureNeverStrands(env: Env, labels: seq<Label>, i: nat)
    requires SoloRun(env, labels)
    requires
      var s := Run(env, labels);
      && i < |s.db.attempts| && s.db.attempts[i].core.op.Some?
      && s.db.attempts[i].bytes.Some? && s.db.attempts[i].bytes.value in s.net.exposed
    ensures
      var s := Run(env, labels);
      var o := s.db.attempts[i].core.op.value;
      && o < |s.db.ops| && !s.db.ops[o].state.Failed? && !s.db.ops[o].state.Cancelled?
      && M.WasBroadcast(s.db.ops[o].log)
  {
    hide Run, L1, SoloRun, OneDriver, Fit, M.IsPath, M.WasBroadcast;
    SoloRunKeeps(env, labels);
    var s := Run(env, labels);
    var o := s.db.attempts[i].core.op.value;
    CancelledHasNoAttempt(env, labels, i);
    assert Out(s.db, s.net, o);
    DurableLog(env, labels, o);
    LogOfSentExactly(env, labels, i);
  }
}
