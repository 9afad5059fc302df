/** What one worker does from one decision to the next while nobody else acts: the stretches of execute, the chain
    writer and observeAndFinalize, each from its first read to its last write. */
module Stretches {
  import opened CanonicalJson
  import opened MintProposal
  import opened SignedTransaction
  import opened Ledger
  import opened Tables
  import opened TableInvariants
  import opened Lifecycle
  import opened LifecycleInvariants
  import opened LifecycleSteps
  import opened LifecycleRuns
  import opened BlockedLane
  import opened Commits
  import Fee = TransactionIntent
  import M = OperationMachine
  import Token

  /** One worker's steps, one per choice. */
  ghost function Alone(env: Env, db: Db, net: Net, a: Actor, chs: seq<Choice>): Outcome
    decreases |chs|
  {
    if chs == [] then (db, net, a) else
      var (d, n, b) := ActorStep(env, db, net, a, chs[0]);
      Alone(env, d, n, b, chs[1..])
  }

  lemma AloneStep(env: Env, db: Db, net: Net, a: Actor, chs: seq<Choice>)
    requires chs != []
    ensures var r := ActorStep(env, db, net, a, chs[0]);
            Alone(env, db, net, a, chs) == Alone(env, r.0, r.1, r.2, chs[1..])
  {
    hide ActorStep;
  }

  lemma {:induction false} AloneDone(env: Env, db: Db, net: Net, chs: seq<Choice>)
    ensures Alone(env, db, net, Done, chs) == (db, net, Done)
  {
    hide ExecuteStep, SignStep, SendStep, ObserveStep, RecoverStep, ReplaceStep;
    if chs != [] { AloneDone(env, db, net, chs[1..]); }
  }

  function Acts(k: nat, chs: seq<Choice>): seq<Label> { seq(|chs|, i requires 0 <= i < |chs| => Act(k, chs[i])) }

  /** Such a stretch is a part of a run. */
  lemma {:induction false} AloneRuns(env: Env, labels: seq<Label>, k: nat, chs: seq<Choice>)
    requires k < |Run(env, labels).actors|
    ensures var s := Run(env, labels);
            var (d, n, a) := Alone(env, s.db, s.net, s.actors[k], chs);
            Run(env, labels + Acts(k, chs)) == State(d, n, s.actors[k := a])
    decreases |chs|
  {
    hide Run, ActorStep;
    var s := Run(env, labels);
    if chs == [] {
      assert labels + Acts(k, chs) == labels;
      assert s.actors[k := s.actors[k]] == s.actors;
    } else {
      var a, b := Alone(env, s.db, s.net, s.actors[k], chs).2, ActorStep(env, s.db, s.net, s.actors[k], chs[0]).2;
      RunNext(env, labels, Act(k, chs[0]));
      AloneRuns(env, labels + [Act(k, chs[0])], k, chs[1..]);
      assert labels + [Act(k, chs[0])] + Acts(k, chs[1..]) == labels + Acts(k, chs);
      assert s.actors[k := b][k := a] == s.actors[k := a];
    }
  }

  // ---------- failing an attempt ----------

  /** Where an error goes: to the executor's handler while it listens. */
  function Thrown(h: Hooks): Actor { match h case Operation(o, true) => Erring(o) case _ => Done }

  /** The attempt and, under the executor's hooks, its operation may still fail. */
  predicate MayFail(db: Db, i: nat, h: Hooks) { Live(db, i) && (h.Operation? ==> May(db, h.op, M.Failed)) }

  /** What failing the attempt leaves: both fail together or, when one of them may not, nothing does. */
  ghost predicate Fails(db: Db, i: nat, h: Hooks, d: Db) {
    && (MayFail(db, i, h) ==> Marked(db, d, i, Failed, Executor(h), M.Failed))
    && (!MayFail(db, i, h) ==> d.attempts == db.attempts && d.ops == db.ops && d.lane == db.lane)
  }

  lemma FailingFails(env: Env, db: Db, was: Db, net: Net, i: nat, h: Hooks, rethrow: bool, ch: Choice)
    requires Inv(env.c, env.base, db) && HooksFit(db, i, h) && was == db.(requests := was.requests)
    ensures var r := ActorStep(env, db, net, Failing(i, h, rethrow), ch);
            && r.1 == net && Fails(was, i, h, r.0) && r.0.requests == db.requests
            && r.2 == (if rethrow || !MayFail(was, i, h) then Thrown(h) else Done)
  {
    hide Inv, AttemptsOk, Marked, FailAttemptTx;
    FailAttemptExactly(env.c, env.base, db, i, h);
    RequestsStay(db, i, h);
    if FailAttemptTx(db, i, h).Some? { SameMarks(was, db, FailAttemptTx(db, i, h).value, i, Failed, Executor(h), M.Failed); }
  }

  lemma RequestsStay(db: Db, i: nat, h: Hooks)
    ensures FailAttemptTx(db, i, h).Some? ==> FailAttemptTx(db, i, h).value.requests == db.requests
  {
    hide AttemptsOk;
  }

  lemma SameMarks(was: Db, db: Db, d: Db, i: nat, status: Status, who: Option<nat>, to: M.OpState)
    requires was == db.(requests := was.requests) && Marked(db, d, i, status, who, to)
    ensures Marked(was, d, i, status, who, to)
  {
  }

  lemma InvWithRequests(c: Config, base: nat, db: Db, requests: map<nat, RequestStatus>)
    requires Inv(c, base, db)
    ensures Inv(c, base, db.(requests := requests))
  {
  }

  // ---------- the signer ----------

  /** The signer's settled answer for the attempt, now or from before. */
  function AnswerOf(net: Net, i: nat, ch: Choice): Option<Answer> {
    if i in net.decided then Some(net.decided[i]) else ch.answer
  }

  function Asked(net: Net, i: nat, a: Option<Answer>): Net {
    if a.Some? then net.(decided := net.decided[i := a.value]) else net
  }

  /** Asking for a signature: an error goes to whoever listens; no decision yet leaves a PENDING request to be resumed; a
      decision is recorded as the request's status and settled. The signer never decides twice. */
  lemma RequestsExactly(env: Env, db: Db, net: Net, i: nat, h: Hooks, chs: seq<Choice>)
    requires |chs| == 2
    ensures
      var r, answer := Alone(env, db, net, Requesting(i, h), chs), AnswerOf(net, i, chs[0]);
      if chs[0].fail then ActorStep(env, db, net, Requesting(i, h), chs[0]) == (db, net, Thrown(h))
      else if answer.None? then r == (db.(requests := db.requests[i := Pending]), net, Done)
      else r == (db.(requests := db.requests[i := if answer.value.Refused? then Rejected else SignatureGiven]),
                 Asked(net, i, answer), Settling(i, h, answer.value))
  {
    hide ExecuteStep, SendStep, ObserveStep, RecoverStep, ReplaceStep, PersistTx, FailAttemptTx, VerifySigned, ExpireTx, Alone;
    AloneStep(env, db, net, Requesting(i, h), chs);
    var r := ActorStep(env, db, net, Requesting(i, h), chs[0]);
    AloneStep(env, r.0, r.1, r.2, chs[1..]);
    AloneEnds(env, chs[1..][1..]);
    if r.2.Done? { AloneDone(env, r.0, r.1, chs[1..]); }
    assert i in net.decided ==> net.decided[i := net.decided[i]] == net.decided;
  }

  lemma AloneEnds(env: Env, chs: seq<Choice>)
    requires chs == []
    ensures forall db: Db, net: Net, a: Actor :: Alone(env, db, net, a, chs) == (db, net, a)
  {
    hide ActorStep;
  }

  /** What the signer returned is a well-formed encoding of exactly what the attempt asks for, under its own hash. */
  predicate Genuine(db: Db, i: nat, answer: Answer) {
    && i < |db.attempts| && answer.SignatureOf?
    && answer.tx.eip1559 && answer.tx.parses && Decodes(answer.tx, db.attempts[i].core.request)
    && db.attempts[i].core.request.priority <= db.attempts[i].core.request.maxFee && answer.claimed == Keccak(answer.tx)
  }

  /** The attempt may store these bytes. */
  predicate MayStore(db: Db, i: nat, h: Hooks, tx: SignedTx) {
    && Live(db, i) && (h.Operation? ==> May(db, h.op, M.Signed))
    && forall k: nat | k < |db.attempts| && k != i :: db.attempts[k].bytes != Some(tx)
  }

  /** A refusal is recorded and fails the attempt; bytes that are not exactly what was asked for fail it and are reported
      as an error; genuine bytes are stored, and only then the worker goes on to the check before the send. */
  lemma SettlesExactly(env: Env, db: Db, net: Net, i: nat, h: Hooks, answer: Answer, chs: seq<Choice>)
    requires Inv(env.c, env.base, db) && HooksFit(db, i, h) && |chs| == 2
    ensures
      var r, first := Alone(env, db, net, Settling(i, h, answer), chs), ActorStep(env, db, net, Settling(i, h, answer), chs[0]);
      && r.1 == first.1 == net
      && (answer.Refused? ==>
            && Fails(db, i, h, r.0) && r.0.requests == db.requests[i := Rejected]
            && r.2 == if MayFail(db, i, h) then Done else Thrown(h))
      && (answer.SignatureOf? && !Genuine(db, i, answer) ==> Fails(db, i, h, r.0) && r.0.requests == db.requests && r.2 == Thrown(h))
      && (Genuine(db, i, answer) ==>
            if MayStore(db, i, h, answer.tx) then
              && first.2 == Persisted(i, h, answer.tx) && first.0.requests == db.requests[i := SignatureGiven]
              && Marked(db, first.0, i, Status.Signed, Executor(h), M.Signed) && first.0.attempts[i].bytes == Some(answer.tx)
            else first == (db, net, Thrown(h)))
  {
    hide Inv, AttemptsOk, Marked, Fails, MayFail, FailAttemptTx, PersistTx, VerifySigned, HooksFit, ExpireTx, Alone, ExecuteStep,
         SendStep, ObserveStep, RecoverStep, ReplaceStep;
    AloneStep(env, db, net, Settling(i, h, answer), chs);
    var r := ActorStep(env, db, net, Settling(i, h, answer), chs[0]);
    AloneStep(env, r.0, r.1, r.2, chs[1..]);
    AloneEnds(env, chs[1..][1..]);
    FitsAttempt(db, i, h);
    if answer.Refused? {
      InvWithRequests(env.c, env.base, db, r.0.requests);
      FitsWithRequests(db, i, h, r.0.requests);
      FailingFails(env, r.0, db, net, i, h, false, chs[1]);
    } else {
      VerifyExactly(answer.tx, db.attempts[i].core.request, answer.claimed);
      PersistExactly(env.c, env.base, db, i, answer.tx, h);
      if !Genuine(db, i, answer) { FailingFails(env, db, db, net, i, h, true, chs[1]); } else { StepKeepsNet(env, r, chs[1]); }
    }
  }

  lemma FitsAttempt(db: Db, i: nat, h: Hooks)
    requires HooksFit(db, i, h)
    ensures i < |db.attempts|
  {
  }

  lemma FitsWithRequests(db: Db, i: nat, h: Hooks, requests: map<nat, RequestStatus>)
    requires HooksFit(db, i, h)
    ensures HooksFit(db.(requests := requests), i, h)
  {
  }

  /** Neither the check before a send nor the executor's handler touches the network. */
  lemma StepKeepsNet(env: Env, r: Outcome, ch: Choice)
    requires r.2.Persisted? || r.2.Erring? || r.2.Done?
    ensures ActorStep(env, r.0, r.1, r.2, ch).1 == r.1
  {
    hide FailOperationTx, BroadcastAllowed, SignStep, ObserveStep, RecoverStep, ReplaceStep;
  }

  /** Resuming an outstanding request: one that is no longer PENDING is left alone. A lapsed one is retired before the
      signer is asked and fails its attempt; otherwise the signer is asked for what it decided, nothing is recorded while
      it has not, and a decision is settled. */
  lemma ResumesExactly(env: Env, db: Db, net: Net, i: nat, h: Hooks, chs: seq<Choice>)
    requires Inv(env.c, env.base, db) && HooksFit(db, i, h) && |chs| == 3
    ensures
      var r, answer := Alone(env, db, net, Resuming(i, h), chs), AnswerOf(net, i, chs[2]);
      if !(i in db.requests && db.requests[i].Pending?) then r == (db, net, Done)
      else if chs[1].lapsed then
        && r.1 == net && Fails(db, i, h, r.0) && r.0.requests == db.requests[i := Expired]
        && r.2 == if MayFail(db, i, h) then Done else Thrown(h)
      else if chs[2].fail then r == (db, net, Thrown(h))
      else r == (db, Asked(net, i, answer), if answer.None? then Done else Settling(i, h, answer.value))
  {
    hide Inv, AttemptsOk, Marked, Fails, MayFail, FailAttemptTx, PersistTx, VerifySigned, HooksFit, Alone, ExecuteStep, SendStep,
         ObserveStep, RecoverStep, ReplaceStep;
    AloneStep(env, db, net, Resuming(i, h), chs);
    var r := ActorStep(env, db, net, Resuming(i, h), chs[0]);
    var later := chs[1..];
    if r.2.Done? {
      AloneDone(env, db, net, later);
    } else {
      AloneStep(env, r.0, r.1, r.2, later);
      var q := ActorStep(env, r.0, r.1, r.2, later[0]);
      AloneStep(env, q.0, q.1, q.2, later[1..]);
      AloneEnds(env, later[1..][1..]);
      if q.2.Failing? {
        InvWithRequests(env.c, env.base, db, q.0.requests);
        FitsWithRequests(db, i, h, q.0.requests);
        FailingFails(env, q.0, db, net, i, h, false, chs[2]);
      } else {
        assert i in net.decided ==> net.decided[i := net.decided[i]] == net.decided;
      }
    }
  }

  // ---------- the send ----------

  /** Who goes on once the node has the bytes: the executor and a replacement watch their transaction, a sweep that sends a
      nonce recovery confirms it, and whoever sent again leaves it to the next sweep. */
  function Onward(i: nat, h: Hooks, tx: SignedTx): Actor {
    match h
    case Operation(o, _) => Observing(o, i, tx)
    case Replacement(o) => Observing(o, i, tx)
    case NoHooks(true) => ConfirmingRecovery(i, tx)
    case _ => Done
  }

  /** A node that did not refuse the bytes may have them, and one that took them does. */
  predicate Handed(net: Net, out: Net, tx: SignedTx, ch: Choice) {
    && out.chain == net.chain && out.final == net.final && out.decided == net.decided
    && out.exposed == net.exposed + (if ch.send.DeterministicRejection? then {} else {tx})
    && out.known == net.known + (if ch.send.Accepted? || (ch.send.Ambiguous? && ch.taken) then {tx} else {})
  }

  lemma OutcomeRow(db: Db, i: nat, h: Hooks, r: SendResult)
    requires i < |db.attempts| && OutcomeTx(db, i, h, r).Some?
    ensures var e := OutcomeTx(db, i, h, r).value;
            && e.attempts == db.attempts[i := db.attempts[i].(status := StatusAfter(r))]
            && e.requests == db.requests && e.observations == db.observations
  {
    hide AttemptsOk;
  }

  /** The bytes of a replaced attempt are not sent. Any others go to the node once, and its answer is recorded on the
      attempt and through the hooks; where the operation may no longer take it, nothing is recorded. */
  lemma SendsExactly(env: Env, db: Db, net: Net, i: nat, h: Hooks, tx: SignedTx, chs: seq<Choice>)
    requires Inv(env.c, env.base, db) && HooksFit(db, i, h) && db.attempts[i].bytes == Some(tx) && |chs| == 3
    ensures
      var r, send := Alone(env, db, net, Sending(i, h, tx), chs), chs[1].send;
      if !Live(db, i) then r == (db, net, Done) else
        && Handed(net, r.1, tx, chs[1])
        && if h.Operation? ==> May(db, h.op, StateAfter(send)) then
             && Marked(db, r.0, i, StatusAfter(send), Mover(db, h, send), StateAfter(send))
             && r.0.attempts[i] == db.attempts[i].(status := StatusAfter(send)) && r.0.requests == db.requests
             && r.2 == if send.Accepted? then Onward(i, h, tx) else Done
           else r.0 == db && r.2 == Thrown(h)
  {
    hide Inv, AttemptsOk, Marked, OutcomeTx, HooksFit, BroadcastAllowed, BroadcastingTx, Alone, ExecuteStep, SignStep, ObserveStep,
         RecoverStep, ReplaceStep, Mover, StatusAfter, StateAfter, May;
    AloneStep(env, db, net, Sending(i, h, tx), chs);
    FitsAttempt(db, i, h);
    if !Live(db, i) {
      AloneDone(env, db, net, chs[1..]);
    } else {
      var later := chs[1..];
      AloneStep(env, db, net, Checked(i, h, tx), later);
      var q := ActorStep(env, db, net, Checked(i, h, tx), later[0]);
      AloneStep(env, q.0, q.1, q.2, later[1..]);
      AloneEnds(env, later[1..][1..]);
      OutcomeExactly(env.c, env.base, db, i, h, later[0].send);
      if OutcomeTx(db, i, h, later[0].send).Some? { OutcomeRow(db, i, h, later[0].send); }
    }
  }

  /** The executor's first send: BROADCASTING is committed with the attempt before the node gets the bytes, and the log
      then says BROADCASTING and what the node answered. An operation that may no longer be broadcast sends nothing. */
  lemma FirstSendExactly(env: Env, db: Db, net: Net, i: nat, o: nat, caught: bool, tx: SignedTx, chs: seq<Choice>)
    requires Inv(env.c, env.base, db) && HooksFit(db, i, Operation(o, caught)) && db.attempts[i].bytes == Some(tx) && |chs| == 4
    ensures
      var h := Operation(o, caught);
      var r, send := Alone(env, db, net, Allowed(i, h, tx), chs), chs[2].send;
      if !Live(db, i) || !May(db, o, M.Broadcasting) then ActorStep(env, db, net, Allowed(i, h, tx), chs[0]) == (db, net, Thrown(h)) else
        && Handed(net, r.1, tx, chs[2]) && r.2 == (if send.Accepted? then Observing(o, i, tx) else Done)
        && |r.0.ops| == |db.ops| && |r.0.attempts| == |db.attempts|
        && r.0.ops[o].log == db.ops[o].log + [M.Broadcasting] + [StateAfter(send)] && r.0.ops[o].state == StateAfter(send)
        && r.0.attempts[i].status == StatusAfter(send) && r.0.attempts[i].sends == db.attempts[i].sends + 1
        && (forall q: nat | q < |db.ops| && q != o :: r.0.ops[q] == db.ops[q])
        && (forall k: nat | k < |db.attempts| && k != i :: r.0.attempts[k] == db.attempts[k])
  {
    hide Inv, AttemptsOk, OutcomeTx, HooksFit, BroadcastAllowed, BroadcastingTx, Alone, ExecuteStep, SignStep, ObserveStep,
         RecoverStep, ReplaceStep, Mover, StatusAfter, Handed;
    var h := Operation(o, caught);
    FitsAttempt(db, i, h);
    AloneStep(env, db, net, Allowed(i, h, tx), chs);
    BroadcastingExactly(env.c, env.base, db, i, h);
    if BroadcastingTx(db, i, h).Some? {
      var d := BroadcastingTx(db, i, h).value;
      BroadcastingKeeps(env.c, env.base, db, i, h);
      BroadcastingRow(db, d, i, h);
      SendsExactly(env, d, net, i, h, tx, chs[1..]);
      MayAnswer(d, o, chs[2].send);
      Moves(d, h, chs[2].send);
    }
  }

  lemma BroadcastingRow(db: Db, d: Db, i: nat, h: Hooks)
    requires HooksFit(db, i, h) && BroadcastingTx(db, i, h) == Some(d)
    ensures HooksFit(d, i, h) && d.attempts[i].bytes == db.attempts[i].bytes && Live(d, i)
  {
    hide AttemptsOk;
  }

  lemma MayAnswer(d: Db, o: nat, r: SendResult)
    requires o < |d.ops| && d.ops[o].state.Broadcasting?
    ensures May(d, o, StateAfter(r))
  {
  }

  lemma Moves(d: Db, h: Hooks, r: SendResult)
    requires h.Operation?
    ensures Mover(d, h, r) == Some(h.op)
  {
  }

  // ---------- observeAndFinalize ----------

  /** The attempt with its receipt; one that was settled before keeps what it has. */
  function Receipted(a: Attempt, ok: bool, block: BlockRef): Attempt {
    if a.status.Confirmed? || a.status.Reverted? then a
    else a.(status := if ok then Included else Status.Reverted, block := Some(block))
  }

  /** The operation has gone along `path` and attempt `i` is `a`; every other row is as it was. */
  ghost predicate Concluded(db: Db, d: Db, o: nat, i: nat, path: seq<M.OpState>, a: Attempt) {
    && o < |db.ops| && i < |db.attempts| && d.lane == db.lane && d.requests == db.requests
    && d.attempts == db.attempts[i := a]
    && d.ops == db.ops[o := Op(db.ops[o].kind, if path == [] then db.ops[o].state else path[|path| - 1], db.ops[o].log + path)]
  }

  lemma IncludeConcludes(db: Db, o: nat, i: nat, ok: bool, block: BlockRef)
    requires o < |db.ops| && i < |db.attempts| && IncludeTx(db, o, i, ok, block).Some?
    ensures Concluded(db, IncludeTx(db, o, i, ok, block).value, o, i, if db.ops[o].state.Submitted? then [M.Included] else [],
                      Receipted(db.attempts[i], ok, block))
    ensures IncludeTx(db, o, i, ok, block).value.observations == db.observations
  {
    hide AttemptsOk;
    assert db.ops[o].log + [] == db.ops[o].log;
    assert db.attempts[i := db.attempts[i]] == db.attempts;
  }

  lemma ReorgConcludes(db: Db, o: nat, i: nat)
    requires o < |db.ops| && i < |db.attempts| && ReorgTx(db, o, i).Some?
    ensures Concluded(db, ReorgTx(db, o, i).value, o, i, if db.ops[o].state.Included? then [M.Submitted] else [],
                      db.attempts[i].(status := Submitted, block := None))
  {
    hide AttemptsOk;
    assert db.ops[o].log + [] == db.ops[o].log;
  }

  lemma SettleConcludes(db: Db, d: Db, e: Db, o: nat, i: nat, path: seq<M.OpState>, a: Attempt, to: M.OpState)
    requires Concluded(db, d, o, i, path, a) && SettleTx(d, o, i, to) == Some(e) && d.ops[o].state != to
    ensures Concluded(db, e, o, i, path + [to], a.(status := if to.Succeeded? then Confirmed else Status.Reverted))
  {
    hide AttemptsOk;
    assert db.ops[o].log + path + [to] == db.ops[o].log + (path + [to]);
    var b := a.(status := if to.Succeeded? then Confirmed else Status.Reverted);
    assert db.attempts[i := a][i := b] == db.attempts[i := b];
    assert d.ops[o := e.ops[o]] == db.ops[o := e.ops[o]];
  }

  /** A worker looks at a transaction only while its operation is not settled, and does nothing without a receipt. */
  lemma LooksExactly(env: Env, db: Db, net: Net, o: nat, i: nat, tx: SignedTx, chs: seq<Choice>)
    requires |chs| == 2 && o < |db.ops|
    ensures
      var r := Alone(env, db, net, Observing(o, i, tx), chs);
      && r.0 == db && r.1 == net
      && r.2 == if M.Terminal(db.ops[o].state) || chs[1].fail || !Confirms(env, net, tx, chs[1].seen) then Done else
                  match chs[1].seen
                  case NotSeen => Done
                  case SeenOrphaned => Orphaning(o, i)
                  case SeenIncluded(ok, block) => Including(o, i, tx, ok, block, None)
                  case SeenReverted(block, _) => Including(o, i, tx, false, block, Some(WasReverted))
                  case SeenFinal(block, p) => Including(o, i, tx, true, block, Some(WasFinal(p)))
  {
    hide Confirms, Alone, ExecuteStep, SignStep, SendStep, RecoverStep, ReplaceStep, IncludeTx, ReorgTx, SettleTx, MintEventOk;
    AloneStep(env, db, net, Observing(o, i, tx), chs);
    var r := ActorStep(env, db, net, Observing(o, i, tx), chs[0]);
    if r.2.Done? { AloneDone(env, db, net, chs[1..]); }
    AloneStep(env, r.0, r.1, r.2, chs[1..]);
    AloneEnds(env, chs[1..][1..]);
  }

  /** What an orphaned receipt leads to: the attempt is SUBMITTED again without its block, and so is an INCLUDED operation. */
  lemma OrphansExactly(env: Env, db: Db, net: Net, o: nat, i: nat, ch: Choice)
    requires Inv(env.c, env.base, db) && Tied(db, o, i) && db.attempts[i].bytes.Some?
    ensures var r := ActorStep(env, db, net, Orphaning(o, i), ch);
            && r.1 == net && r.2 == Done
            && if Live(db, i) then
                 Concluded(db, r.0, o, i, if db.ops[o].state.Included? then [M.Submitted] else [],
                           db.attempts[i].(status := Submitted, block := None))
               else r.0 == db
  {
    hide Inv, AttemptsOk, ReorgTx, Concluded, Marked, Confirms, MintEventOk, ExecuteStep, SignStep, SendStep, RecoverStep, ReplaceStep;
    ReorgExactly(env.c, env.base, db, o, i);
    if ReorgTx(db, o, i).Some? { ReorgConcludes(db, o, i); }
  }

  /** The receipt is recorded before any judgement. A revert is settled as REVERTED and a final success as SUCCEEDED once
      the event found is the approved mint, each from INCLUDED only; anything else leaves the operation where it is. */
  lemma ConcludesExactly(env: Env, db: Db, net: Net, o: nat, i: nat, tx: SignedTx, ok: bool, block: BlockRef,
                         next: Option<Verdict>, chs: seq<Choice>)
    requires Inv(env.c, env.base, db) && Tied(db, o, i) && Live(db, i) && db.attempts[i].bytes == Some(tx) && |chs| == 3
    ensures
      var first := ActorStep(env, db, net, Including(o, i, tx, ok, block, next), chs[0]);
      var r := Alone(env, db, net, Including(o, i, tx, ok, block, next), chs);
      var k, was, a := db.ops[o].kind, db.ops[o].state, Receipted(db.attempts[i], ok, block);
      var path := if was.Submitted? then [M.Included] else [];
      && first.1 == net == r.1 && r.2 == Done && Concluded(db, first.0, o, i, path, a)
      && if next.None? || chs[1].fail || !(was.Submitted? || was.Included?) then r.0 == first.0
         else if next.value.WasReverted? then Concluded(db, r.0, o, i, path + [M.Reverted], a.(status := Status.Reverted))
         else if chs[1].consistent && (k.MintOp? ==> MintEventOk(env, tx, k.amount, k.reference, chs[1].rows))
         then Concluded(db, r.0, o, i, path + [M.Succeeded], a.(status := Confirmed))
         else r.0 == first.0
  {
    hide Inv, AttemptsOk, IncludeTx, ReorgTx, SettleTx, Concluded, Marked, Confirms, MintEventOk, Alone, Receipted, ExecuteStep,
         SignStep, SendStep, RecoverStep, ReplaceStep;
    AloneStep(env, db, net, Including(o, i, tx, ok, block, next), chs);
    IncludeExactly(env.c, env.base, db, o, i, ok, block);
    IncludeConcludes(db, o, i, ok, block);
    var d := IncludeTx(db, o, i, ok, block).value;
    if next.None? {
      AloneDone(env, d, net, chs[1..]);
    } else {
      IncludeKeeps(env.c, env.base, db, o, i, ok, block);
      AfterReceipt(db, d, o, i, ok, block);
      ReconcilesExactly(env, d, net, o, i, tx, next.value, chs[1..]);
      if !chs[1].fail { Judges(env, db, d, o, i, ok, block, if next.value.WasReverted? then M.Reverted else M.Succeeded); }
    }
  }

  /** Settled by the verdict, if that is a revert or the event is the approved mint; left alone otherwise. */
  lemma ReconcilesExactly(env: Env, d: Db, net: Net, o: nat, i: nat, tx: SignedTx, v: Verdict, chs: seq<Choice>)
    requires o < |d.ops| && |chs| == 2
    ensures
      var k, to := d.ops[o].kind, if v.WasReverted? then M.Reverted else M.Succeeded;
      var settles := v.WasReverted? || (chs[0].consistent && (k.MintOp? ==> MintEventOk(env, tx, k.amount, k.reference, chs[0].rows)));
      Alone(env, d, net, Reconciling(o, i, tx, v), chs)
        == (if !chs[0].fail && settles && SettleTx(d, o, i, to).Some? then SettleTx(d, o, i, to).value else d, net, Done)
  {
    hide IncludeTx, ReorgTx, SettleTx, Confirms, MintEventOk, Alone, ExecuteStep, SignStep, SendStep, RecoverStep, ReplaceStep;
    AloneStep(env, d, net, Reconciling(o, i, tx, v), chs);
    var q := ActorStep(env, d, net, Reconciling(o, i, tx, v), chs[0]);
    if q.2.Done? { AloneDone(env, q.0, q.1, chs[1..]); }
    AloneStep(env, q.0, q.1, q.2, chs[1..]);
    AloneEnds(env, chs[1..][1..]);
  }

  /** What a call of ours at `p` logged on this contract. */
  function LoggedBy(env: Env, flat: seq<Entry>, p: nat, contract: Address): seq<Token.Event>
    requires p < |flat| && contract in env.contracts
  {
    EventsPrefix(flat[..p + 1], p, contract, env.contracts[contract]);
    assert flat[..p + 1][..p] == flat[..p];
    Replay(flat[..p + 1], contract, env.contracts[contract]).1[|Replay(flat[..p], contract, env.contracts[contract]).1|..]
  }

  /** Reconciliation accepts a successful receipt exactly if it carries one MintExecuted of the operation's contract, with
      the operation's reference and amount and the wallet's address. */
  lemma EventComparedExactly(env: Env, flat: seq<Entry>, p: nat, tx: SignedTx, amount: nat, reference: Text, rows: Rows)
    requires p < |flat| && flat[p].tx == Ours(tx) && tx.signer.Some? && ReceiptOk(env, flat, p, tx)
    ensures MintEventOk(env, tx, amount, reference, rows) <==>
              && Lower(rows.contract) in env.contracts
              && var events := LoggedBy(env, flat, p, Lower(rows.contract));
                 && |events| == 1 && events[0].reference == Lower(reference) && events[0].recipient == Lower(rows.recipient)
                 && events[0].amount == amount
  {
    hide Replay, Token.Exec;
    var contract := Lower(rows.contract);
    if contract in env.contracts {
      var d := env.contracts[contract];
      var one := flat[..p + 1];
      var before := Replay(flat[..p], contract, d);
      assert one[..p] == flat[..p] && one[p] == flat[p];
      ReplayLast(one, contract, d);
      var m := MessageTo(flat[p], contract);
      if m.Some? {
        assert Token.Exec(before.0, m.value.sender, m.value.now, m.value.call).Ok?;
        LogsOnlyMints(before.0, m.value);
      }
    }
  }

  /** A call logs its own mint, or nothing. */
  lemma LogsOnlyMints(t: Token.State, m: Token.Message)
    requires Token.Exec(t, m.sender, m.now, m.call).Ok?
    ensures var events := Token.Exec(t, m.sender, m.now, m.call).value.1;
            if m.call.MintWithReference? then
              |events| == 1 && events[0].reference == m.call.reference && events[0].recipient == m.call.recipient
              && events[0].amount == m.call.amount
            else events == []
  {
    if m.call.MintWithReference? { Token.MintExactly(t, m.sender, m.now, m.call); }
  }

  lemma AfterReceipt(db: Db, d: Db, o: nat, i: nat, ok: bool, block: BlockRef)
    requires o < |db.ops| && Live(db, i)
    requires Concluded(db, d, o, i, if db.ops[o].state.Submitted? then [M.Included] else [], Receipted(db.attempts[i], ok, block))
    ensures o < |d.ops| && Live(d, i) && d.attempts[i].bytes == db.attempts[i].bytes && d.ops[o].kind == db.ops[o].kind
    ensures d.ops[o].state == if db.ops[o].state.Submitted? then M.Included else db.ops[o].state
  {
  }

  lemma Judges(env: Env, db: Db, d: Db, o: nat, i: nat, ok: bool, block: BlockRef, to: M.OpState)
    requires Inv(env.c, env.base, d) && o < |db.ops| && Live(db, i) && db.attempts[i].bytes.Some? && (to.Succeeded? || to.Reverted?)
    requires Concluded(db, d, o, i, if db.ops[o].state.Submitted? then [M.Included] else [], Receipted(db.attempts[i], ok, block))
    ensures var was, path := db.ops[o].state, if db.ops[o].state.Submitted? then [M.Included] else [];
            var a := Receipted(db.attempts[i], ok, block);
            if was.Submitted? || was.Included?
            then SettleTx(d, o, i, to).Some? && Concluded(db, SettleTx(d, o, i, to).value, o, i, path + [to],
                                                          a.(status := if to.Succeeded? then Confirmed else Status.Reverted))
            else SettleTx(d, o, i, to).Some? ==> SettleTx(d, o, i, to).value == d
  {
    hide Inv, SettleTx, Concluded, Marked, Receipted;
    AfterReceipt(db, d, o, i, ok, block);
    SettleExactly(env.c, env.base, d, o, i, to);
    if db.ops[o].state.Submitted? || db.ops[o].state.Included? {
      SettleConcludes(db, d, SettleTx(d, o, i, to).value, o, i, if db.ops[o].state.Submitted? then [M.Included] else [],
                      Receipted(db.attempts[i], ok, block), to);
    }
  }

  // ---------- execute ----------

  /** Only a READY operation is claimed, which takes it to PREPARING; any other delivery of it changes nothing. */
  lemma ClaimsExactly(env: Env, s: State, o: nat)
    ensures Step(env, s, BeginExecute(o)) ==
              if o < |s.db.ops| && s.db.ops[o].state == M.Ready then
                var p := s.db.ops[o];
                State(s.db.(ops := s.db.ops[o := Op(p.kind, M.Preparing, p.log + [M.Preparing])]), s.net, s.actors + [Claimed(o)])
              else s
  {
  }

  /** Two people's decision readies or cancels an operation only while it waits for it. */
  lemma ApprovesExactly(env: Env, s: State, o: nat, approve: bool)
    ensures
      var to := if approve then M.Ready else M.Cancelled;
      Step(env, s, if approve then Approve(o) else Reject(o)) ==
        if o < |s.db.ops| && s.db.ops[o].state == M.PendingApproval then
          var p := s.db.ops[o];
          s.(db := s.db.(ops := s.db.ops[o := Op(p.kind, to, p.log + [to])]))
        else s
  {
  }

  lemma NoNewSync(ops: seq<Op>, p: Op)
    requires SyncsOk(ops) && !p.kind.SyncOp?
    ensures OneLiveSync(ops + [p])
  {
    var out := ops + [p];
    forall i: nat, j: nat | i < j < |out| && SamePair(out[i].kind, out[j].kind)
      ensures M.Terminal(out[i].state) || M.Terminal(out[j].state)
    {
      assert SamePair(ops[i].kind, ops[j].kind);
    }
  }

  /** A mint is created awaiting approval, with the amount its proposal spells; a deployment is READY at once. */
  lemma CreatesExactly(env: Env, s: State, snapshot: Snapshot, amount: nat, asset: Text)
    requires L1(env, s)
    ensures
      var k := MintOp(snapshot.(amount := Decimal(amount)), amount, snapshot.operationReference);
      && Step(env, s, RequestMint(snapshot, amount)) ==
           s.(db := s.db.(ops := s.db.ops + [Op(k, M.PendingApproval, [M.PendingApproval])]))
      && Step(env, s, RequestDeploy(asset)) == s.(db := s.db.(ops := s.db.ops + [Op(DeployOp(asset), M.Ready, [M.Ready])]))
  {
    hide AttemptsOk, RowsOk, LaneOk, TiesOk, IntentsOk, OpsOk, SyncOrder, NetOk, SuccessOk, OneLiveSync, ActorStep;
    NoNewSync(s.db.ops, Op(Mint(snapshot, amount), M.PendingApproval, [M.PendingApproval]));
    NoNewSync(s.db.ops, Op(DeployOp(asset), M.Ready, [M.Ready]));
  }

  // ---------- the world around ----------

  /** Our transactions among these, in their order. */
  function OursAmong(txs: seq<ChainTx>): seq<SignedTx> {
    if txs == [] then [] else
      OursAmong(txs[..|txs| - 1]) + match txs[|txs| - 1] case Ours(tx) => [tx] case Foreign(_, _, _) => []
  }

  lemma {:induction false} OursOfMore(flat: seq<Entry>, time: nat, txs: seq<ChainTx>)
    ensures OursOf(flat + seq(|txs|, i requires 0 <= i < |txs| => Entry(time, txs[i]))) == OursOf(flat) + OursAmong(txs)
    decreases |txs|
  {
    var all := flat + seq(|txs|, i requires 0 <= i < |txs| => Entry(time, txs[i]));
    if txs == [] {
      assert all == flat;
    } else {
      var n := |txs| - 1;
      var early := txs[..n];
      OursOfMore(flat, time, early);
      assert all[..|all| - 1] == flat + seq(|early|, i requires 0 <= i < |early| => Entry(time, early[i]));
    }
  }

  lemma BlockAdds(chain: seq<Block>, block: Block)
    ensures OursOf(Flat(chain + [block])) == OursOf(Flat(chain)) + OursAmong(block.txs)
  {
    hide OursOf, OursAmong;
    var n := |block.txs|;
    var entries := seq(n, i requires 0 <= i < n => Entry(block.time, block.txs[i]));
    assert (chain + [block])[..|chain|] == chain;
    assert Flat(chain + [block]) == Flat(chain) + entries;
    OursOfMore(Flat(chain), block.time, block.txs);
    assert entries == seq(|block.txs|, i requires 0 <= i < |block.txs| => Entry(block.time, block.txs[i]));
  }

  lemma MinesExactly(env: Env, net: Net, block: Block)
    ensures
      var ours := OursAmong(block.txs);
      CanMine(env, net, block) <==>
        forall j: nat | j < |ours| :: ours[j] in net.known && ours[j].nonce == AccountNonce(env, net) + j
  {
    hide OursOf, OursAmong, Flat;
    BlockAdds(net.chain, block);
    var before, ours := OursOf(Flat(net.chain)), OursAmong(block.txs);
    var all := OursOf(Flat(net.chain + [block]));
    if CanMine(env, net, block) {
      forall j: nat | j < |ours| ensures ours[j] in net.known && ours[j].nonce == AccountNonce(env, net) + j {
        assert all[|before| + j] == ours[j];
      }
    }
    if forall j: nat | j < |ours| :: ours[j] in net.known && ours[j].nonce == AccountNonce(env, net) + j {
      forall i: nat | |before| <= i < |all| ensures all[i] in net.known && all[i].nonce == env.base + i {
        assert all[i] == ours[i - |before|];
      }
    }
  }

  /** A block may be mined exactly if each of our transactions in it is one a node has, at the next nonce of the account;
      the blocks not yet finalized, and no others, can be reorganised away; finality only advances; and any worker can
      vanish at any time. Nothing else changes by any of these. */
  lemma WorldExactly(env: Env, s: State, block: Block, keep: nat, k: nat)
    ensures
      var ours := OursAmong(block.txs);
      Step(env, s, Mine(block)) ==
        if forall j: nat | j < |ours| :: ours[j] in s.net.known && ours[j].nonce == AccountNonce(env, s.net) + j
        then State(s.db, s.net.(chain := s.net.chain + [block]), s.actors) else s
    ensures Step(env, s, Reorg(keep)) ==
              if s.net.final <= keep <= |s.net.chain| then State(s.db, s.net.(chain := s.net.chain[..keep]), s.actors) else s
    ensures Step(env, s, Finalize(keep)) ==
              if s.net.final <= keep <= |s.net.chain| then State(s.db, s.net.(final := keep), s.actors) else s
    ensures k < |s.actors| ==> Step(env, s, Crash(k)) == State(s.db, s.net, s.actors[k := Done])
  {
    hide ActorStep, CanMine, AccountNonce;
    MinesExactly(env, s.net, block);
  }

  /** The call an operation stands for, as it is written. */
  function CallOf(k: Kind, ch: Choice): PreparedWrite {
    match k
    case MintOp(s, amount, _) =>
      PreparedWrite(MintTokens, Some(Lower(s.contractAddress)),
                    Invoke(Token.MintWithReference(Lower(s.recipientAddress), amount, Lower(s.operationReference), ch.deadline)))
    case DeployOp(_) => PreparedWrite(DeployToken, None, Create(ch.init))
    case SyncOp(_, _, contract, account, until) =>
      PreparedWrite(SetEligibility, Some(contract), Invoke(Token.SetEligibility(account, until)))
  }

  /** The approved proposal and the one rebuilt from the rows as they are agree up to letter case. */
  predicate Unchanged(k: Kind, rows: Rows) {
    k.MintOp? ==>
      && rows.chainId == k.snapshot.chainId && rows.policyVersion == k.snapshot.policyVersion
      && Lower(rows.contract) == Lower(k.snapshot.contractAddress) && Lower(rows.recipient) == Lower(k.snapshot.recipientAddress)
      && Decimal(k.amount) == k.snapshot.amount && Lower(k.reference) == Lower(k.snapshot.operationReference)
  }

  lemma PreparesWhenUnchanged(k: Kind, ch: Choice)
    ensures Prepare(k, ch) == if Unchanged(k, ch.rows) then Some(CallOf(k, ch)) else None
  {
    if k.MintOp? { ProposalHashInjective(Rebuilt(k.snapshot, k.amount, k.reference, ch.rows), k.snapshot); }
  }

  /** A claimed operation is built exactly while its proposal is what was approved: then the next nonce is reserved for a
      first attempt that asks for the operation's call at the fees read, and the operation is in SIGNING. Otherwise, or
      when it has left PREPARING since, the error goes to the executor's handler and no nonce is used. */
  lemma BuildsExactly(env: Env, db: Db, net: Net, o: nat, chs: seq<Choice>)
    requires Good(env, db, net) && o < |db.ops| && |chs| == 2
    ensures
      var first, r := ActorStep(env, db, net, Claimed(o), chs[0]), Alone(env, db, net, Claimed(o), chs);
      var p, ch := db.ops[o], chs[0];
      if ch.fail || !Unchanged(p.kind, ch.rows) then first == (db, net, Erring(o))
      else if !p.state.Preparing? then r == (db, net, Erring(o))
      else
        var w, f, nonce := CallOf(p.kind, ch), Estimate(ch), if db.lane.Some? then db.lane.value else AccountNonce(env, net);
        var request := Request(env.c.chainId, env.c.signer, w.to, nonce, 0, w.data, ch.gas, f.maxFee, f.priority);
        r == (db.(lane := Some(nonce + 1),
                  attempts := db.attempts + [Attempt(Core(Some(o), w.purpose, request, None, 0), None, Prepared, None, None, 0)],
                  ops := db.ops[o := Op(p.kind, M.Signing, p.log + [M.Signing])]),
              net, Requesting(|db.attempts|, Operation(o, true)))
  {
    hide Inv, NetOk, SuccessOk, AttemptsOk, Prepare, PrepareTx, FailOperationTx, AccountNonce, Unchanged, Alone, SignStep, SendStep,
         ObserveStep, RecoverStep, ReplaceStep, Estimate;
    PreparesWhenUnchanged(db.ops[o].kind, chs[0]);
    LaneCoversChain(env, db, net);
    AloneStep(env, db, net, Claimed(o), chs);
    var q := ActorStep(env, db, net, Claimed(o), chs[0]);
    AloneStep(env, q.0, q.1, q.2, chs[1..]);
    AloneEnds(env, chs[1..][1..]);
    if q.2.Built? {
      var w := CallOf(db.ops[o].kind, chs[0]);
      PreparesAs(env, db, o, w, chs[0].gas, Estimate(chs[0]), AccountNonce(env, net));
    }
  }

  lemma PreparesAs(env: Env, db: Db, o: nat, w: PreparedWrite, gas: nat, f: Fee.Fees, chainNonce: nat)
    requires Inv(env.c, env.base, db) && o < |db.ops| && (w.purpose.DeployToken? <==> w.to.None?)
    requires chainNonce == env.base || (db.lane.Some? && chainNonce <= db.lane.value)
    ensures
      var r, p := PrepareTx(env.c, db, o, w.purpose, w.to, w.data, gas, f, chainNonce), db.ops[o];
      if !p.state.Preparing? then r == None else
        var nonce := if db.lane.Some? then db.lane.value else chainNonce;
        var request := Request(env.c.chainId, env.c.signer, w.to, nonce, 0, w.data, gas, f.maxFee, f.priority);
        r == Some(db.(lane := Some(nonce + 1),
                      attempts := db.attempts + [Attempt(Core(Some(o), w.purpose, request, None, 0), None, Prepared, None, None, 0)],
                      ops := db.ops[o := Op(p.kind, M.Signing, p.log + [M.Signing])]))
  {
    hide Inv, AttemptsOk;
    LaneStarts(env.c, env.base, db);
    PrepareExactly(env.c, env.base, db, o, w.purpose, w.to, w.data, gas, f, chainNonce);
  }

  lemma LaneStarts(c: Config, base: nat, db: Db)
    requires Inv(c, base, db)
    ensures db.lane.Some? ==> base <= db.lane.value
  {
  }
}
