/** The recovery and the replacement sweep: which attempt they act on, where they go for what they read, and what they
    leave. The first part holds at level L1; the rest is about one sweep's worker while nobody else acts. */
module Sweeps {
  import opened CanonicalJson
  import opened SignedTransaction
  import opened Ledger
  import opened Tables
  import opened TableInvariants
  import opened Lifecycle
  import opened LifecycleInvariants
  import opened LifecycleSteps
  import opened LifecycleRuns
  import opened LifecycleTheorems
  import opened ReplacementChains
  import opened BlockedLane
  import opened Commits
  import opened Stretches
  import Fee = TransactionIntent
  import M = OperationMachine

  // ---------- the latest attempt holds the nonce ----------

  lemma LatestLeads(c: Config, rows: seq<Attempt>, o: nat, i: nat, t: nat) returns (x: nat)
    requires RowsOk(c, rows) && LiveUnique(rows) && forall r: nat | r < |rows| :: RowChecks(rows, r)
    requires IsLatest(rows, o, i) && rows[i].status.Replaced? && Holds(rows, t, rows[i].core.request.nonce)
    ensures Cancels(rows, x) && At(rows, x, rows[i].core.request.nonce) && rows[t].core.purpose.NonceRecovery? && t != i
  {
    hide LiveUnique;
    x := Successor(c, rows, i);
    assert LinkOk(c, rows, x) && ShapeOk(c, rows[i]) && ShapeOk(c, rows[x]);
    OneLive(rows, Tail(c, rows, x), t, rows[i].core.request.nonce);
    RecoveryStays(c, rows, x, t);
  }

  lemma CancelledLeads(c: Config, rows: seq<Attempt>, o: nat, i: nat, x: nat)
    requires RowsOk(c, rows) && LiveUnique(rows) && forall r: nat | r < |rows| :: RowChecks(rows, r)
    requires i < |rows| && rows[i].core.op == Some(o) && Cancels(rows, x) && At(rows, x, rows[i].core.request.nonce)
    ensures rows[i].status.Replaced?
  {
    assert ShapeOk(c, rows[i]);
    if !rows[i].status.Replaced? {
      OneLive(rows, Tail(c, rows, x), i, rows[i].core.request.nonce);
      RecoveryStays(c, rows, x, i);
    }
  }

  /** The attempt recovery finds for an operation is the one that holds the operation's nonce, unless the nonce was
      cancelled: then a nonce recovery holds it. All its other attempts are at the same nonce, earlier, and REPLACED. */
  lemma LatestIsLive(env: Env, labels: seq<Label>, o: nat, i: nat, t: nat)
    requires
      var rows := Run(env, labels).db.attempts;
      IsLatest(rows, o, i) && Holds(rows, t, rows[i].core.request.nonce)
    ensures
      var rows := Run(env, labels).db.attempts;
      && (t == i <==> !rows[i].status.Replaced?)
      && (t == i <==> !rows[t].core.purpose.NonceRecovery?)
      && (t == i <==> !exists x: nat :: Cancels(rows, x) && At(rows, x, rows[i].core.request.nonce))
      && forall j: nat | j < |rows| && rows[j].core.op == Some(o) && j != i ::
           j < i && rows[j].status.Replaced? && rows[j].core.request.nonce == rows[i].core.request.nonce
  {
    hide Run, LaneOk, TiesOk, OpsOk, SyncsOk, SyncOrder, NetOk, SuccessOk, HashUnique;
    RunKeeps(env, labels);
    LatestHolds(env.c, Run(env, labels).db.attempts, o, i, t);
  }

  lemma LatestHolds(c: Config, rows: seq<Attempt>, o: nat, i: nat, t: nat)
    requires RowsOk(c, rows) && LiveUnique(rows) && IntentsOk(rows) && forall r: nat | r < |rows| :: RowChecks(rows, r)
    requires IsLatest(rows, o, i) && Holds(rows, t, rows[i].core.request.nonce)
    ensures t == i <==> !rows[i].status.Replaced?
    ensures t == i <==> !rows[t].core.purpose.NonceRecovery?
    ensures t == i <==> !exists x: nat :: Cancels(rows, x) && At(rows, x, rows[i].core.request.nonce)
    ensures forall j: nat | j < |rows| && rows[j].core.op == Some(o) && j != i ::
              j < i && rows[j].status.Replaced? && rows[j].core.request.nonce == rows[i].core.request.nonce
  {
    hide LiveUnique, LinkOk, RowChecks;
    if rows[i].status.Replaced? {
      var x := LatestLeads(c, rows, o, i, t);
    } else {
      OneLive(rows, i, t, rows[i].core.request.nonce);
      assert ShapeOk(c, rows[i]);
      forall x: nat | Cancels(rows, x) && At(rows, x, rows[i].core.request.nonce) ensures false { CancelledLeads(c, rows, o, i, x); }
    }
    forall j: nat | j < |rows| && rows[j].core.op == Some(o) && j != i
      ensures j < i && rows[j].status.Replaced? && rows[j].core.request.nonce == rows[i].core.request.nonce
    {
      assert j < i;
      assert SameIntent(rows[j].core, rows[i].core);
      assert ShapeOk(c, rows[j]);
      if !rows[j].status.Replaced? { OneLive(rows, j, t, rows[i].core.request.nonce); }
    }
  }

  // ---------- the recovery sweep ----------

  /** The operation's latest attempt, if it has any. */
  ghost predicate LatestIs(rows: seq<Attempt>, o: nat, latest: Option<nat>) {
    match latest
    case Some(i) => IsLatest(rows, o, i)
    case None => forall j: nat | j < |rows| :: rows[j].core.op != Some(o)
  }

  lemma FindsLatest(db: Db, o: nat, latest: Option<nat>)
    requires LatestIs(db.attempts, o, latest)
    ensures Latest(db, o) == latest && (latest.Some? ==> latest.value < |db.attempts|)
  {
    hide Latest;
    LatestExactly(db, o);
  }

  /** The states before a known submission. */
  predicate BeforeSubmitted(s: M.OpState) {
    s.Preparing? || s.Signing? || s.Signed? || s.Broadcasting? || s.BroadcastUnknown?
  }

  predicate Outstanding(db: Db, i: nat) { i in db.requests && db.requests[i].Pending? }

  /** What recovery reads of an operation it reads of the latest attempt: an unsigned one is asked about at the signer's or
      given up, the bytes of a signed one are looked up or watched, and a replaced one is left to the replacement sweep. */
  lemma ReadsLatest(env: Env, db: Db, net: Net, o: nat, latest: Option<nat>, ch: Choice)
    requires LatestIs(db.attempts, o, latest)
    ensures
      var bytes := if latest.Some? then db.attempts[latest.value].bytes else None;
      && ActorStep(env, db, net, RecoverSigning(o), ch)
           == (db, net, if latest.Some? && bytes.None? then RecoverRequest(o, latest.value) else RecoverUnsent(o))
      && ActorStep(env, db, net, RecoverUnsent(o), ch)
           == (db, net, if bytes.Some? then ResolveInFlight(o) else Abandoning(o, latest))
      && ActorStep(env, db, net, ResolveInFlight(o), ch)
           == (db, net, if bytes.None? then RecoverUnsent(o) else if db.attempts[latest.value].status.Replaced? then Done
                        else LookingUp(o, latest.value, bytes.value))
      && ActorStep(env, db, net, Finalizing(o), ch)
           == (db, net, if bytes.Some? then Observing(o, latest.value, bytes.value) else Done)
  {
    hide Latest, LatestIs, ExecuteStep, SignStep, SendStep, ObserveStep, ReplaceStep, AbandonTx, AdvanceTx, RebroadcastTx;
    FindsLatest(db, o, latest);
  }

  lemma ReadsRequest(env: Env, db: Db, net: Net, o: nat, i: nat, ch: Choice)
    ensures ActorStep(env, db, net, RecoverRequest(o, i), ch)
              == (db, net, if Outstanding(db, i) then Resuming(i, Operation(o, false)) else RecoverUnsent(o))
  {
    hide Latest, ExecuteStep, SignStep, SendStep, ObserveStep, ReplaceStep, AbandonTx, AdvanceTx, RebroadcastTx;
  }

  lemma Hop(env: Env, db: Db, net: Net, a: Actor, b: Actor, chs: seq<Choice>)
    requires chs != [] && ActorStep(env, db, net, a, chs[0]) == (db, net, b)
    ensures Alone(env, db, net, a, chs) == Alone(env, db, net, b, chs[1..])
  {
    hide ActorStep;
  }

  /** An operation whose latest attempt has no bytes, or that has none, is given up whatever state the sweep read before
      a submission: if it is still in PREPARING or SIGNING it fails, together with that attempt, and otherwise nothing
      changes. Only a request the signer still holds is spared. */
  lemma GivesUpUnsent(env: Env, db: Db, net: Net, o: nat, read: M.OpState, latest: Option<nat>, chs: seq<Choice>)
    requires Inv(env.c, env.base, db) && o < |db.ops| && LatestIs(db.attempts, o, latest) && |chs| == 4 && BeforeSubmitted(read)
    requires latest.Some? ==> db.attempts[latest.value].bytes.None?
    requires read.Signing? && latest.Some? ==> !Outstanding(db, latest.value)
    ensures
      var r := Alone(env, db, net, RecoveryEntry(o, read), chs);
      && r.1 == net && r.2 == Done
      && if db.ops[o].state == M.Preparing || db.ops[o].state == M.Signing then
           if latest.Some? then Marked(db, r.0, latest.value, Failed, Some(o), M.Failed)
           else r.0.attempts == db.attempts && OnlyMoved(db, r.0, o, M.Failed)
         else r.0 == db
  {
    hide Inv, LatestIs, Marked, OnlyMoved, AbandonTx, Alone, ActorStep, Outstanding;
    FindsLatest(db, o, latest);
    UnsentIsLive(env.c, env.base, db, latest);
    AbandonExactly(env.c, env.base, db, o, latest);
    var rest := chs;
    if read.Signing? {
      ReadsLatest(env, db, net, o, latest, rest[0]);
      if latest.Some? {
        Hop(env, db, net, RecoverSigning(o), RecoverRequest(o, latest.value), rest);
        rest := rest[1..];
        ReadsRequest(env, db, net, o, latest.value, rest[0]);
        Hop(env, db, net, RecoverRequest(o, latest.value), RecoverUnsent(o), rest);
      } else {
        Hop(env, db, net, RecoverSigning(o), RecoverUnsent(o), rest);
      }
      rest := rest[1..];
    } else if !read.Preparing? {
      ReadsLatest(env, db, net, o, latest, rest[0]);
      Hop(env, db, net, ResolveInFlight(o), RecoverUnsent(o), rest);
      rest := rest[1..];
    }
    assert |rest| >= 2 && Alone(env, db, net, RecoveryEntry(o, read), chs) == Alone(env, db, net, RecoverUnsent(o), rest);
    ReadsLatest(env, db, net, o, latest, rest[0]);
    Hop(env, db, net, RecoverUnsent(o), Abandoning(o, latest), rest);
    Abandons(env, db, net, o, latest, rest[1..]);
  }

  lemma UnsentIsLive(c: Config, base: nat, db: Db, latest: Option<nat>)
    requires Inv(c, base, db)
    ensures latest.Some? && latest.value < |db.attempts| && db.attempts[latest.value].bytes.None? ==> Live(db, latest.value)
  {
    if latest.Some? && latest.value < |db.attempts| { assert RowChecks(db.attempts, latest.value); }
  }

  lemma Abandons(env: Env, db: Db, net: Net, o: nat, latest: Option<nat>, chs: seq<Choice>)
    requires chs != []
    ensures Alone(env, db, net, Abandoning(o, latest), chs)
              == (if AbandonTx(db, o, latest).Some? then AbandonTx(db, o, latest).value else db, net, Done)
  {
    hide AbandonTx, Alone, ExecuteStep, SignStep, SendStep, ObserveStep, ReplaceStep;
    AloneStep(env, db, net, Abandoning(o, latest), chs);
    var r := ActorStep(env, db, net, Abandoning(o, latest), chs[0]);
    AloneDone(env, r.0, r.1, chs[1..]);
  }

  /** A request the signer still holds is resumed under the executor's hooks, for the latest attempt and no other. */
  lemma ResumesLatest(env: Env, db: Db, net: Net, o: nat, i: nat, chs: seq<Choice>)
    requires IsLatest(db.attempts, o, i) && db.attempts[i].bytes.None? && Outstanding(db, i) && |chs| == 2
    ensures Alone(env, db, net, RecoveryEntry(o, M.Signing), chs) == (db, net, Resuming(i, Operation(o, false)))
  {
    hide Alone, ActorStep, IsLatest, Outstanding;
    ReadsLatest(env, db, net, o, Some(i), chs[0]);
    Hop(env, db, net, RecoverSigning(o), RecoverRequest(o, i), chs);
    ReadsRequest(env, db, net, o, i, chs[1..][0]);
    Hop(env, db, net, RecoverRequest(o, i), Resuming(i, Operation(o, false)), chs[1..]);
    AloneEnds(env, chs[1..][1..]);
  }

  /** How many reads it takes to get to the bytes. */
  function Hops(read: M.OpState): nat { if read.Signing? then 3 else if read.Preparing? then 2 else 1 }

  /** Whatever state before a submission the sweep read: when the latest attempt has bytes, exactly those are looked up,
      unless the attempt was replaced, which leaves them to the replacement sweep. */
  lemma LooksUpLatest(env: Env, db: Db, net: Net, o: nat, read: M.OpState, i: nat, tx: SignedTx, chs: seq<Choice>)
    requires IsLatest(db.attempts, o, i) && db.attempts[i].bytes == Some(tx) && BeforeSubmitted(read) && |chs| == Hops(read)
    ensures Alone(env, db, net, RecoveryEntry(o, read), chs)
              == (db, net, if db.attempts[i].status.Replaced? then Done else LookingUp(o, i, tx))
  {
    hide Alone, ActorStep, IsLatest;
    FindsLatest(db, o, Some(i));
    var rest := chs;
    if read.Signing? {
      ReadsLatest(env, db, net, o, Some(i), rest[0]);
      Hop(env, db, net, RecoverSigning(o), RecoverUnsent(o), rest);
      rest := rest[1..];
    }
    if read.Signing? || read.Preparing? {
      ReadsLatest(env, db, net, o, Some(i), rest[0]);
      Hop(env, db, net, RecoverUnsent(o), ResolveInFlight(o), rest);
      rest := rest[1..];
    }
    ReadsLatest(env, db, net, o, Some(i), rest[0]);
    Hop(env, db, net, ResolveInFlight(o), if db.attempts[i].status.Replaced? then Done else LookingUp(o, i, tx), rest);
    AloneEnds(env, rest[1..]);
  }

  /** Bytes found in the chain: an operation in BROADCASTING or BROADCAST_UNKNOWN is SUBMITTED, and in any state its latest
      attempt is watched. */
  lemma FoundIsWatched(env: Env, db: Db, net: Net, o: nat, i: nat, tx: SignedTx, chs: seq<Choice>)
    requires IsLatest(db.attempts, o, i) && db.attempts[i].bytes == Some(tx) && o < |db.ops| && |chs| == 3
    requires !chs[0].fail && chs[0].found && tx in OursOf(Flat(net.chain))
    ensures
      var r, p := Alone(env, db, net, LookingUp(o, i, tx), chs), db.ops[o];
      && r.1 == net && r.2 == Observing(o, i, tx)
      && r.0 == if p.state == M.BroadcastUnknown || p.state == M.Broadcasting
                then db.(ops := db.ops[o := Op(p.kind, M.Submitted, p.log + [M.Submitted])]) else db
  {
    hide Alone, ActorStep, IsLatest;
    Finds(env, db, net, o, i, tx, chs[0]);
    Hop(env, db, net, LookingUp(o, i, tx), Advancing(o), chs);
    Advances(env, db, net, o, chs[1..][0]);
    AloneStep(env, db, net, Advancing(o), chs[1..]);
    var d := ActorStep(env, db, net, Advancing(o), chs[1..][0]).0;
    ReadsLatest(env, d, net, o, Some(i), chs[1..][1..][0]);
    Hop(env, d, net, Finalizing(o), Observing(o, i, tx), chs[1..][1..]);
    AloneEnds(env, chs[1..][1..][1..]);
  }

  lemma Finds(env: Env, db: Db, net: Net, o: nat, i: nat, tx: SignedTx, ch: Choice)
    ensures ActorStep(env, db, net, LookingUp(o, i, tx), ch)
              == (db, net, if ch.fail then Done else if ch.found && tx in OursOf(Flat(net.chain)) then Advancing(o)
                           else Rebroadcasting(o, i, tx))
  {
    hide Latest, ExecuteStep, SignStep, SendStep, ObserveStep, ReplaceStep, AbandonTx, AdvanceTx, RebroadcastTx;
  }

  lemma Advances(env: Env, db: Db, net: Net, o: nat, ch: Choice)
    requires o < |db.ops|
    ensures
      var p := db.ops[o];
      ActorStep(env, db, net, Advancing(o), ch)
        == (if p.state == M.BroadcastUnknown || p.state == M.Broadcasting
            then db.(ops := db.ops[o := Op(p.kind, M.Submitted, p.log + [M.Submitted])]) else db, net, Finalizing(o))
  {
    hide Latest, ExecuteStep, SignStep, SendStep, ObserveStep, ReplaceStep, AbandonTx, RebroadcastTx;
  }

  /** The operation's state once its bytes are to be sent again, and once the node answered. */
  function Resent(s: M.OpState): M.OpState { if s.BroadcastUnknown? || s.Signed? then M.Broadcasting else s }
  function AnswerTo(s: M.OpState, r: SendResult): M.OpState {
    if Resent(s).Broadcasting? && !r.DeterministicRejection? then StateAfter(r) else Resent(s)
  }

  /** Bytes not found in the chain are sent again as they are stored: the attempt is BROADCASTING before the node gets them
      and has the node's answer afterwards, one more send is counted, and an operation that was SIGNED, BROADCASTING or
      BROADCAST_UNKNOWN follows; recovery never fails it for a rejection. A replaced attempt is not sent. */
  lemma SendsAgainExactly(env: Env, db: Db, net: Net, o: nat, i: nat, tx: SignedTx, chs: seq<Choice>)
    requires Inv(env.c, env.base, db) && Row(db, o, i, tx) && |chs| == 5
    requires !chs[0].fail && !(chs[0].found && tx in OursOf(Flat(net.chain)))
    ensures
      var r, send := Alone(env, db, net, LookingUp(o, i, tx), chs), chs[3].send;
      if !Live(db, i) then r == (db, net, Done) else
        && Handed(net, r.1, tx, chs[3]) && r.2 == Done
        && |r.0.attempts| == |db.attempts| && |r.0.ops| == |db.ops| && o < |db.ops|
        && r.0.attempts[i] == db.attempts[i].(status := StatusAfter(send), sends := db.attempts[i].sends + 1)
        && r.0.ops[o].state == AnswerTo(db.ops[o].state, send)
        && (forall q: nat | q < |db.ops| && q != o :: r.0.ops[q] == db.ops[q])
        && (forall k: nat | k < |db.attempts| && k != i :: r.0.attempts[k] == db.attempts[k])
  {
    hide Inv, AttemptsOk, RebroadcastTx, HooksFit, Handed, Alone, ActorStep, Tied, StatusAfter, StateAfter;
    Finds(env, db, net, o, i, tx, chs[0]);
    Hop(env, db, net, LookingUp(o, i, tx), Rebroadcasting(o, i, tx), chs);
    var later := chs[1..];
    Rebroadcasts(env, db, net, o, i, tx, later[0]);
    AloneStep(env, db, net, Rebroadcasting(o, i, tx), later);
    RebroadcastExactly(env.c, env.base, db, o, i);
    SignedIsPast(env.c, env.base, db, i);
    if !Live(db, i) {
      AloneDone(env, db, net, later[1..]);
    } else {
      var d := RebroadcastTx(db, o, i).value;
      RebroadcastKeeps(env.c, env.base, db, o, i);
      RebroadcastRow(db, d, o, i);
      SendsExactly(env, d, net, i, Recovery(o), tx, later[1..]);
    }
  }

  lemma Rebroadcasts(env: Env, db: Db, net: Net, o: nat, i: nat, tx: SignedTx, ch: Choice)
    ensures ActorStep(env, db, net, Rebroadcasting(o, i, tx), ch)
              == if RebroadcastTx(db, o, i).Some? then (RebroadcastTx(db, o, i).value, net, Sending(i, Recovery(o), tx))
                 else (db, net, Done)
  {
    hide Latest, ExecuteStep, SignStep, SendStep, ObserveStep, ReplaceStep, AbandonTx, AdvanceTx, RebroadcastTx;
  }

  lemma RebroadcastRow(db: Db, d: Db, o: nat, i: nat)
    requires o < |db.ops| && i < |db.attempts| && RebroadcastTx(db, o, i) == Some(d) && Tied(d, o, i) && Live(db, i)
    ensures HooksFit(d, i, Recovery(o)) && Live(d, i)
    ensures d.attempts == db.attempts[i := db.attempts[i].(status := Broadcasting, sends := db.attempts[i].sends + 1)]
    ensures |d.ops| == |db.ops| && d.ops[o].state == Resent(db.ops[o].state)
    ensures forall q: nat | q < |db.ops| && q != o :: d.ops[q] == db.ops[q]
  {
    hide AttemptsOk;
  }

  /** Read in SUBMITTED or INCLUDED, the latest attempt is watched, with its own bytes; read in any other state outside the
      ones before a submission, nothing is done. */
  lemma WatchesLatest(env: Env, db: Db, net: Net, o: nat, read: M.OpState, latest: Option<nat>, chs: seq<Choice>)
    requires LatestIs(db.attempts, o, latest) && !BeforeSubmitted(read) && |chs| == 1
    ensures Alone(env, db, net, RecoveryEntry(o, read), chs)
              == (db, net, if (read == M.Submitted || read == M.Included) && latest.Some? && db.attempts[latest.value].bytes.Some?
                           then Observing(o, latest.value, db.attempts[latest.value].bytes.value) else Done)
  {
    hide Alone, LatestIs, ActorStep;
    if read == M.Submitted || read == M.Included {
      ReadsLatest(env, db, net, o, latest, chs[0]);
      AloneStep(env, db, net, Finalizing(o), chs);
      AloneEnds(env, chs[1..]);
    } else {
      AloneDone(env, db, net, chs);
    }
  }

  // ---------- what recovery sends again, over every run ----------

  /** On recovery's way from the bytes it read to their send. */
  predicate Resends(a: Actor) {
    a.LookingUp? || a.Rebroadcasting? || ((a.Sending? || a.Checked? || a.Sent?) && a.h.Recovery?)
  }

  function ResentOp(a: Actor): nat
    requires Resends(a)
  {
    if a.LookingUp? || a.Rebroadcasting? then a.op else a.h.op
  }

  /** The worker was on that way before with the same bytes, or this step read them on the operation's latest attempt,
      which was not replaced. */
  ghost predicate ResendsFrom(db: Db, a: Actor, b: Actor)
    requires Resends(b)
  {
    || (Resends(a) && ResentOp(a) == ResentOp(b) && a.attempt == b.attempt && a.tx == b.tx)
    || (&& a == ResolveInFlight(ResentOp(b)) && IsLatest(db.attempts, ResentOp(b), b.attempt)
        && db.attempts[b.attempt].bytes == Some(b.tx) && db.attempts[b.attempt].status != Replaced)
  }

  lemma WritersNeverResend(env: Env, db: Db, net: Net, a: Actor, ch: Choice)
    requires a.Claimed? || a.Built? || a.Erring? || a.Requesting? || a.Answered? || a.Settling? || a.Failing? || a.Resuming? ||
             a.Expiring? || a.Fetching? || a.Done?
    ensures !Resends(ActorStep(env, db, net, a, ch).2)
  {
    hide PrepareTx, FailOperationTx, PersistTx, FailAttemptTx, ExpireTx, VerifySigned, SendStep, ObserveStep, RecoverStep,
         ReplaceStep, Prepare;
  }

  lemma WatchersNeverResend(env: Env, db: Db, net: Net, a: Actor, ch: Choice)
    requires a.Observing? || a.Awaiting? || a.Including? || a.Orphaning? || a.Reconciling? || a.Judged? || a.Stuck? ||
             a.StuckOperation? || a.Replacing? || a.LaneRead? || a.LaneAt? || a.Cancelling? || a.ConfirmingRecovery?
    ensures !Resends(ActorStep(env, db, net, a, ch).2)
  {
    hide IncludeTx, ReorgTx, SettleTx, Confirms, MintEventOk, ExecuteStep, SignStep, SendStep, RecoverStep, ReplaceTx,
         ConfirmRecoveryTx, LiveBelow;
  }

  lemma SendersResend(env: Env, db: Db, net: Net, a: Actor, ch: Choice)
    requires a.Persisted? || (a.Allowed? && !a.h.Recovery?) || a.Sending? || a.Checked? || a.Sent?
    ensures var b := ActorStep(env, db, net, a, ch).2; Resends(b) ==> ResendsFrom(db, a, b)
  {
    hide BroadcastingTx, OutcomeTx, BroadcastAllowed, ExecuteStep, SignStep, ObserveStep, RecoverStep, ReplaceStep, IsLatest;
  }

  lemma RecoveryResends(env: Env, db: Db, net: Net, a: Actor, ch: Choice)
    requires a.RecoverSigning? || a.RecoverRequest? || a.RecoverUnsent? || a.Abandoning? || a.LookingUp? || a.Advancing? ||
             a.Finalizing? || a.Rebroadcasting?
    ensures var b := ActorStep(env, db, net, a, ch).2; Resends(b) ==> ResendsFrom(db, a, b)
  {
    hide AbandonTx, AdvanceTx, RebroadcastTx, Latest, ExecuteStep, SignStep, SendStep, ObserveStep, ReplaceStep, IsLatest;
  }

  lemma ReadResends(env: Env, db: Db, net: Net, o: nat, ch: Choice)
    ensures var b := ActorStep(env, db, net, ResolveInFlight(o), ch).2; Resends(b) ==> ResendsFrom(db, ResolveInFlight(o), b)
  {
    hide ActorStep;
    LatestExactly(db, o);
    ReadsLatest(env, db, net, o, Latest(db, o), ch);
  }

  lemma ActorResends(env: Env, db: Db, net: Net, a: Actor, ch: Choice)
    requires ActorOk(env, db, net, a)
    ensures var b := ActorStep(env, db, net, a, ch).2; Resends(b) ==> ResendsFrom(db, a, b)
  {
    hide ActorStep, ResendsFrom, Resends;
    if a.ResolveInFlight? { ReadResends(env, db, net, a.op, ch); }
    else if a.RecoverSigning? || a.RecoverRequest? || a.RecoverUnsent? || a.Abandoning? || a.LookingUp? || a.Advancing? ||
            a.Finalizing? || a.Rebroadcasting? {
      RecoveryResends(env, db, net, a, ch);
    }
    else if a.Persisted? || a.Allowed? || a.Sending? || a.Checked? || a.Sent? { SendersResend(env, db, net, a, ch); }
    else if a.Claimed? || a.Built? || a.Erring? || a.Requesting? || a.Answered? || a.Settling? || a.Failing? || a.Resuming?
            || a.Expiring? || a.Fetching? || a.Done? {
      WritersNeverResend(env, db, net, a, ch);
    }
    else { WatchersNeverResend(env, db, net, a, ch); }
  }

  lemma StepResends(env: Env, s: State, l: Label, k: nat)
    requires L1(env, s) && k < |Step(env, s, l).actors| && Resends(Step(env, s, l).actors[k])
    ensures k < |s.actors|
    ensures var b := Step(env, s, l).actors[k];
            s.actors[k] == b || (l.Act? && l.actor == k && ResendsFrom(s.db, s.actors[k], b))
  {
    hide ActorStep, ResendsFrom, CanMine, IsStuck, MoveIf, InsertOp, EnqueueSyncTx, Inv, NetOk, SuccessOk, ActorOk;
    if l.Act? && l.actor == k && k < |s.actors| { ActorResends(env, s.db, s.net, s.actors[k], l.ch); }
  }

  /** Whatever recovery sends again, over any interleaving: when that worker read the bytes, they were those of the
      operation's latest attempt, and it was not REPLACED. */
  lemma {:induction false} ResendsTheLatest(env: Env, labels: seq<Label>, k: nat) returns (n: nat)
    requires k < |Run(env, labels).actors| && Resends(Run(env, labels).actors[k])
    ensures
      var a := Run(env, labels).actors[k];
      && n < |labels| && labels[n].Act? && labels[n].actor == k
      && k < |Run(env, labels[..n]).actors| && Run(env, labels[..n]).actors[k] == ResolveInFlight(ResentOp(a))
      && var rows := Run(env, labels[..n]).db.attempts;
         && IsLatest(rows, ResentOp(a), a.attempt)
         && rows[a.attempt].bytes == Some(a.tx) && rows[a.attempt].status != Replaced
    decreases |labels|
  {
    RunUnfolds(env, labels);
    hide Run, Step, L1;
    var last := |labels| - 1;
    var before := labels[..last];
    RunKeeps(env, before);
    StepResends(env, Run(env, before), labels[last], k);
    if Resends(Run(env, before).actors[k]) {
      n := ResendsTheLatest(env, before, k);
      assert before[..n] == labels[..n];
    } else {
      n := last;
    }
  }
}
