/** The replacement sweep of one worker while nobody else acts: which attempts it replaces and with what, and how it gets
    a blocked lane moving. */
module ReplacementSweep {
  import opened CanonicalJson
  import opened SignedTransaction
  import opened Ledger
  import opened Tables
  import opened TableInvariants
  import opened Lifecycle
  import opened LifecycleInvariants
  import opened LifecycleTheorems
  import opened ReplacementChains
  import opened BlockedLane
  import opened Commits
  import opened Stretches
  import Fee = TransactionIntent
  import M = OperationMachine

  // ---------- stuck attempts ----------

  /** A sweep takes up an attempt exactly if it was handed to a node, is in no block and may still be replaced; and the
      lane, once there is one, with what it has reserved so far. */
  lemma TakesUpExactly(env: Env, s: State, i: nat)
    ensures
      var taken := i < |s.db.attempts| && s.db.attempts[i].status in {Submitted, Broadcasting, BroadcastUnknown}
                   && s.db.attempts[i].block == None && s.db.attempts[i].core.number < env.c.maxReplacements;
      Step(env, s, BeginReplacement(i)) == if taken then s.(actors := s.actors + [Stuck(i)]) else s
    ensures Step(env, s, BeginLane) == match s.db.lane case Some(next) => s.(actors := s.actors + [LaneRead(next)]) case None => s
  {
  }

  /** Nothing stands against replacing the attempt: no receipt, its operation not settled, replacements left, and a row
      that was signed and not replaced. */
  predicate MayReplace(c: Config, db: Db, i: nat, receipt: bool) {
    && i < |db.attempts| && !receipt
    && (db.attempts[i].core.op.Some? ==>
          db.attempts[i].core.op.value < |db.ops|
          && db.ops[db.attempts[i].core.op.value].state !in {M.Succeeded, M.Reverted, M.Failed, M.Cancelled})
    && db.attempts[i].core.number < c.maxReplacements && Live(db, i) && db.attempts[i].bytes.Some?
  }

  /** The rows once `i` is retired in favour of a new last one. */
  predicate TakenOver(rows: seq<Attempt>, out: seq<Attempt>, i: nat, core: Core) {
    && i < |rows|
    && out == rows[i := rows[i].(status := Replaced, replacedBy := Some(|rows|))] + [Attempt(core, None, Prepared, None, None, 0)]
  }

  /** Both fees are raised by the bump and to the market, and no further than the two need. */
  predicate Outbids(bump: nat, p: Request, q: Request, market: Fee.Fees) {
    && Raised(bump, p, q)
    && Fee.Priced(q.maxFee, p.maxFee, market.maxFee, bump) && Fee.Priced(q.priority, p.priority, market.priority, bump)
  }

  lemma BumpOutbids(env: Env, db: Db, i: nat, ch: Choice, q: Request)
    requires i < |db.attempts| && Fee.Fees(q.maxFee, q.priority) == BumpedFees(env, db, i, ch)
    ensures Outbids(env.c.bump, db.attempts[i].core.request, q, Estimate(ch))
  {
    hide Fee.BumpFees, Fee.Priced, Estimate;
    var r := db.attempts[i].core.request;
    Fee.BumpRises(Fee.Fees(r.maxFee, r.priority), Estimate(ch), env.c.bump);
  }

  lemma RowFits(c: Config, base: nat, db: Db, i: nat)
    requires Inv(c, base, db) && i < |db.attempts|
    ensures RowChecks(db.attempts, i)
  {
  }

  /** A stuck attempt is replaced exactly when nothing stands against it: it is retired, and the new attempt asks for the
      same but for the fees, which outbid it, with the next number, and goes on to be signed under replacement hooks. */
  lemma ReplacesExactly(env: Env, db: Db, net: Net, i: nat, chs: seq<Choice>)
    requires Inv(env.c, env.base, db) && |chs| == 3
    ensures
      var r := Alone(env, db, net, Stuck(i), chs);
      if chs[0].fail || !MayReplace(env.c, db, i, chs[0].found) then r == (db, net, Done) else
        var p, n := db.attempts[i].core, |db.attempts|;
        && r.1 == net && r.0 == db.(attempts := r.0.attempts) && |r.0.attempts| == n + 1
        && r.2 == Requesting(n, if p.op.Some? then Replacement(p.op.value) else NoHooks(false))
        && var q := r.0.attempts[n].core.request;
           && q == p.request.(maxFee := q.maxFee, priority := q.priority)
           && Outbids(env.c.bump, p.request, q, Estimate(chs[2]))
           && TakenOver(db.attempts, r.0.attempts, i, Core(p.op, p.purpose, q, Some(i), p.number + 1))
  {
    hide Inv, AttemptsOk, Outbids, ReplaceTx, ReplaceStep, Alone, ExecuteStep, SignStep, SendStep, ObserveStep, RecoverStep, Fee.BumpFees;
    AloneStep(env, db, net, Stuck(i), chs);
    ReadsFirst(env, db, net, i, chs[0], chs[1]);
    var rest := chs[1..];
    AloneStep(env, db, net, StuckOperation(i), rest);
    AloneStep(env, db, net, Replacing(i), rest[1..]);
    AloneEnds(env, rest[1..][1..]);
    AloneDone(env, db, net, rest);
    AloneDone(env, db, net, rest[1..]);
    Replaces(env, db, net, i, chs[2]);
  }

  lemma ReadsFirst(env: Env, db: Db, net: Net, i: nat, ch: Choice, later: Choice)
    ensures ActorStep(env, db, net, Stuck(i), ch) == (db, net, if ch.fail || ch.found then Done else StuckOperation(i))
    ensures ActorStep(env, db, net, StuckOperation(i), later) ==
              (db, net, if i >= |db.attempts| || (db.attempts[i].core.op.Some? && (db.attempts[i].core.op.value >= |db.ops|
                             || db.ops[db.attempts[i].core.op.value].state in {M.Succeeded, M.Reverted, M.Failed, M.Cancelled}))
                        then Done else Replacing(i))
  {
    hide ReplaceTx, ConfirmRecoveryTx, LiveBelow, Confirms, ExecuteStep, SignStep, SendStep, ObserveStep, RecoverStep;
  }

  lemma Replaces(env: Env, db: Db, net: Net, i: nat, ch: Choice)
    requires Inv(env.c, env.base, db)
    ensures
      var r := ActorStep(env, db, net, Replacing(i), ch);
      if !(i < |db.attempts| && db.attempts[i].core.number < env.c.maxReplacements && Live(db, i) && db.attempts[i].bytes.Some?)
      then r == (db, net, Done) else
        var p, n := db.attempts[i].core, |db.attempts|;
        && r.1 == net && r.0 == db.(attempts := r.0.attempts) && |r.0.attempts| == n + 1
        && r.2 == Requesting(n, if p.op.Some? then Replacement(p.op.value) else NoHooks(false))
        && var q := r.0.attempts[n].core.request;
           && q == p.request.(maxFee := q.maxFee, priority := q.priority)
           && Outbids(env.c.bump, p.request, q, Estimate(ch))
           && TakenOver(db.attempts, r.0.attempts, i, Core(p.op, p.purpose, q, Some(i), p.number + 1))
  {
    hide Inv, AttemptsOk, Outbids, ConfirmRecoveryTx, LiveBelow, Confirms, ExecuteStep, SignStep, SendStep, ObserveStep, RecoverStep,
         Fee.BumpFees, Estimate;
    if i < |db.attempts| && db.attempts[i].core.number < env.c.maxReplacements {
      var p := db.attempts[i].core;
      var q := FeeReplacement(i, p, BumpedFees(env, db, i, ch));
      RowFits(env.c, env.base, db, i);
      BumpOutbids(env, db, i, ch, q.request);
      ReplacementExactly(env.c, env.base, db, i, q);
    }
  }

  // ---------- a blocked lane ----------

  /** The lane is looked at only while the account nonce is behind what was reserved. Then the attempt that holds the
      account nonce decides: a recovery is finished, by its signature or by its send, unless it failed; any other is
      cancelled exactly if it failed without a block, and otherwise left alone. */
  lemma UnblocksExactly(env: Env, db: Db, net: Net, reserved: nat, t: nat, chs: seq<Choice>)
    requires Inv(env.c, env.base, db) && |chs| == 2
    ensures
      var r, n := Alone(env, db, net, LaneRead(reserved), chs), AccountNonce(env, net);
      && r.0 == db && r.1 == net
      && (chs[0].fail || n >= reserved ==> r.2 == Done)
      && ((forall i: nat :: !Holds(db.attempts, i, n)) ==> r.2 == Done)
      && (!chs[0].fail && n < reserved && Holds(db.attempts, t, n) ==>
            var b := db.attempts[t];
            r.2 == if b.core.purpose == NonceRecovery then
                     if b.status == Failed then Done
                     else if b.bytes.None? then Resuming(t, NoHooks(true)) else Sending(t, NoHooks(true), b.bytes.value)
                   else if b.status == Failed && b.block == None then Cancelling(t) else Done)
  {
    hide Inv, Alone, ActorStep, AccountNonce;
    var n := AccountNonce(env, net);
    AloneStep(env, db, net, LaneRead(reserved), chs);
    ReadsLane(env, db, net, reserved, chs[0]);
    if chs[0].fail || n >= reserved {
      AloneDone(env, db, net, chs[1..]);
    } else {
      AloneStep(env, db, net, LaneAt(n), chs[1..]);
      AloneEnds(env, chs[1..][1..]);
      HolderDecides(env, db, net, n, t, chs[1..][0]);
    }
  }

  lemma ReadsLane(env: Env, db: Db, net: Net, reserved: nat, ch: Choice)
    ensures ActorStep(env, db, net, LaneRead(reserved), ch)
              == (db, net, if ch.fail || AccountNonce(env, net) >= reserved then Done else LaneAt(AccountNonce(env, net)))
  {
    hide AccountNonce, ReplaceTx, ConfirmRecoveryTx, LiveBelow, Confirms, ExecuteStep, SignStep, SendStep, ObserveStep, RecoverStep;
  }

  lemma HolderDecides(env: Env, db: Db, net: Net, n: nat, t: nat, ch: Choice)
    requires Inv(env.c, env.base, db)
    ensures
      var r := ActorStep(env, db, net, LaneAt(n), ch);
      && r.0 == db && r.1 == net
      && ((forall i: nat :: !Holds(db.attempts, i, n)) ==> r.2 == Done)
      && (Holds(db.attempts, t, n) ==>
            var b := db.attempts[t];
            r.2 == if b.core.purpose == NonceRecovery then
                     if b.status == Failed then Done
                     else if b.bytes.None? then Resuming(t, NoHooks(true)) else Sending(t, NoHooks(true), b.bytes.value)
                   else if b.status == Failed && b.block == None then Cancelling(t) else Done)
  {
    hide Inv, ReplaceTx, ConfirmRecoveryTx, Confirms, ExecuteStep, SignStep, SendStep, ObserveStep, RecoverStep;
    LaneOf(env.c, env.base, db);
    var blocking := LiveBelow(db.attempts, n, |db.attempts|);
    if blocking.Some? && Holds(db.attempts, t, n) { OneLive(db.attempts, blocking.value, t, n); }
  }

  /** The nonce of a live attempt that was signed is taken over by an empty self-transfer of the configured gas, with
      outbidding fees and no operation; the sweep confirms it itself. One that was never signed cannot be cancelled. */
  lemma CancelsExactly(env: Env, db: Db, net: Net, i: nat, ch: Choice)
    requires Inv(env.c, env.base, db)
    ensures
      var r := ActorStep(env, db, net, Cancelling(i), ch);
      if ch.fail || !Live(db, i) || db.attempts[i].bytes.None? then r == (db, net, Done) else
        var p, n := db.attempts[i].core, |db.attempts|;
        && r.1 == net && r.0 == db.(attempts := r.0.attempts) && |r.0.attempts| == n + 1
        && r.2 == Requesting(n, NoHooks(true))
        && var q := r.0.attempts[n].core.request;
           && q == Request(p.request.chainId, env.c.signer, Some(env.c.signer), p.request.nonce, 0, Empty, 30_000, q.maxFee, q.priority)
           && Outbids(env.c.bump, p.request, q, Estimate(ch))
           && TakenOver(db.attempts, r.0.attempts, i, Core(None, NonceRecovery, q, Some(i), p.number + 1))
  {
    hide Inv, AttemptsOk, Outbids, ConfirmRecoveryTx, LiveBelow, Confirms, ExecuteStep, SignStep, SendStep, ObserveStep, RecoverStep,
         Fee.BumpFees, Estimate;
    if i < |db.attempts| && !ch.fail {
      var p := db.attempts[i].core;
      var q := Cancellation(env.c, i, p, BumpedFees(env, db, i, ch));
      BumpOutbids(env, db, i, ch, q.request);
      ReplacementExactly(env.c, env.base, db, i, q);
    }
  }

  /** A recovery's receipt is recorded unless there is none or its block left the chain, and only a final success confirms it. */
  lemma ConfirmsExactly(env: Env, db: Db, net: Net, i: nat, tx: SignedTx, ch: Choice)
    requires Inv(env.c, env.base, db) && Live(db, i) && db.attempts[i].core.op.None? && db.attempts[i].bytes.Some?
    ensures
      var r := ActorStep(env, db, net, ConfirmingRecovery(i, tx), ch);
      && r.1 == net && r.2 == Done
      && if ch.fail || !Confirms(env, net, tx, ch.seen) || ch.seen.SeenOrphaned? then r.0 == db else
           var ok, was := !ch.seen.SeenReverted? && (ch.seen.SeenIncluded? ==> ch.seen.ok), db.attempts[i].status;
           && r.0.observations == db.observations + [Observation(Some(i), true, ok)]
           && Marked(db, r.0, i, if ch.seen.SeenFinal? then Confirmed else if was == Confirmed || was == Status.Reverted then was
                                 else if ok then Included else Status.Reverted, None, M.Failed)
  {
    hide Inv, AttemptsOk, Marked, ReplaceTx, ConfirmRecoveryTx, LiveBelow, Confirms, ExecuteStep, SignStep, SendStep, ObserveStep,
         RecoverStep;
    match ch.seen
    case SeenIncluded(ok, block) => ConfirmRecoveryExactly(env.c, env.base, db, i, ok, block, false);
    case SeenReverted(block, _) => ConfirmRecoveryExactly(env.c, env.base, db, i, false, block, false);
    case SeenFinal(block, _) => ConfirmRecoveryExactly(env.c, env.base, db, i, true, block, true);
    case SeenOrphaned =>
    case NotSeen => NeverConfirms(env, net, tx);
  }

  lemma NeverConfirms(env: Env, net: Net, tx: SignedTx)
    ensures !Confirms(env, net, tx, NotSeen)
  {
  }
}
