/** Every step of every actor keeps the L1 invariant. */
module LifecycleSteps {
  import opened CanonicalJson
  import opened SignedTransaction
  import opened MintProposal
  import opened Ledger
  import opened Tables
  import opened TableInvariants
  import opened Lifecycle
  import opened LifecycleInvariants
  import Fee = TransactionIntent
  import M = OperationMachine
  import Token

  /** No row got bytes and no operation succeeded. */
  ghost predicate Quiet(d: Db, e: Db) {
    && (forall i: nat | i < |e.attempts| && e.attempts[i].bytes.Some? ::
          i < |d.attempts| && d.attempts[i].bytes == e.attempts[i].bytes)
    && (forall o: nat | o < |e.ops| && e.ops[o].state.Succeeded? :: o < |d.ops| && d.ops[o].state.Succeeded?)
  }

  ghost predicate Good(env: Env, db: Db, net: Net) {
    Inv(env.c, env.base, db) && NetOk(env, db, net) && SuccessOk(env, db, net)
  }

  /** A step's outcome is a good state that takes nothing back, and its worker may rely on what it carries. */
  ghost predicate Kept(env: Env, db: Db, net: Net, r: Outcome) {
    Good(env, r.0, r.1) && Grows(db, r.0) && NetGrows(net, r.1) && ActorOk(env, r.0, r.1, r.2)
  }

  lemma GrowsSame(db: Db)
    ensures Grows(db, db) && Quiet(db, db)
  {
  }

  /** Exposed bytes stay stored. */
  lemma StoredStays(d: Db, e: Db, exposed: set<SignedTx>)
    requires Grows(d, e) && forall tx | tx in exposed :: Stored(d.attempts, tx)
    ensures forall tx | tx in exposed :: Stored(e.attempts, tx)
  {
    forall tx | tx in exposed ensures Stored(e.attempts, tx) {
      assert Stored(d.attempts, tx);
      var i: nat :| i < |d.attempts| && d.attempts[i].bytes == Some(tx);
      assert AttemptKept(d.attempts[i], e.attempts[i]);
    }
  }

  lemma ExposedStays(d: Db, e: Db, exposed: set<SignedTx>)
    requires ExposedOk(d, exposed) && Grows(d, e)
    requires forall i: nat | i < |e.attempts| && e.attempts[i].bytes.Some? ::
               i < |d.attempts| && d.attempts[i].bytes == e.attempts[i].bytes
    ensures ExposedOk(e, exposed)
  {
    StoredStays(d, e, exposed);
    forall i: nat | i < |e.attempts| && e.attempts[i].bytes.Some? && e.attempts[i].bytes.value in exposed
                    && e.attempts[i].core.op.Some?
      ensures Tied(e, e.attempts[i].core.op.value, i)
    {
      assert AttemptKept(d.attempts[i], e.attempts[i]);
      TiedStays(d, e, d.attempts[i].core.op.value, i);
    }
  }

  lemma SuccessStays(env: Env, d: Db, e: Db, n: Net, m: Net)
    requires SuccessOk(env, d, n) && NetGrows(n, m) && Grows(d, e)
    requires forall o: nat | o < |e.ops| && e.ops[o].state.Succeeded? :: o < |d.ops| && d.ops[o].state.Succeeded?
    ensures SuccessOk(env, e, m)
  {
    forall o: nat | o < |e.ops| && e.ops[o].state.Succeeded? ensures Proven(env, m, e.ops[o].kind) {
      assert OpKept(d.ops[o], e.ops[o]);
      ProvenStays(env, n, m, d.ops[o].kind);
    }
  }

  lemma NetGrowsSame(net: Net)
    requires net.final <= |net.chain|
    ensures NetGrows(net, net)
  {
  }

  lemma GoodNet(env: Env, db: Db, net: Net)
    requires Good(env, db, net)
    ensures NetGrows(net, net)
  {
  }

  lemma QuietStays(env: Env, d: Db, e: Db, net: Net)
    requires Good(env, d, net) && Grows(d, e) && Quiet(d, e) && Inv(env.c, env.base, e)
    ensures Good(env, e, net)
  {
    hide Inv, Grows;
    ExposedStays(d, e, net.exposed);
    NetGrowsSame(net);
    SuccessStays(env, d, e, net, net);
  }

  /** A worker's step that only commits `e`, or aborts. */
  lemma CommitKept(env: Env, db: Db, net: Net, r: Option<Db>, committed: Actor, thrown: Actor)
    requires Good(env, db, net)
    requires ActorOk(env, db, net, thrown)
    requires r.Some? ==> Inv(env.c, env.base, r.value) && Grows(db, r.value) && Quiet(db, r.value)
                         && ActorOk(env, r.value, net, committed)
    ensures Kept(env, db, net, Commit(db, net, r, committed, thrown))
  {
    hide Inv, NetOk, SuccessOk, Grows;
    GoodNet(env, db, net);
    GrowsSame(db);
    if r.Some? { QuietStays(env, db, r.value, net); }
  }

  /** A step that only reads. */
  lemma ReadKept(env: Env, db: Db, net: Net, a: Actor)
    requires Good(env, db, net) && ActorOk(env, db, net, a)
    ensures Kept(env, db, net, (db, net, a))
  {
    hide Inv, NetOk, SuccessOk, Grows;
    GoodNet(env, db, net);
    GrowsSame(db);
  }

  lemma RequestKept(env: Env, db: Db, net: Net, i: nat, status: RequestStatus, a: Actor)
    requires Good(env, db, net) && ActorOk(env, db, net, a)
    ensures Kept(env, db, net, (RequestTx(db, i, status), net, a))
  {
    hide Inv, NetOk, SuccessOk;
    GoodNet(env, db, net);
    var e := RequestTx(db, i, status);
    SideTablesKeep(env.c, env.base, db, e.requests, db.observations);
    assert Grows(db, e) && Quiet(db, e);
    QuietStays(env, db, e, net);
    ActorStays(env, db, net, e, net, a);
  }

  lemma AskGrows(env: Env, db: Db, net: Net, i: nat, ch: Choice)
    requires NetOk(env, db, net)
    ensures NetOk(env, db, Ask(net, i, ch).0) && NetGrows(net, Ask(net, i, ch).0)
  {
    hide ExposedOk;
  }

  lemma AskKept(env: Env, db: Db, net: Net, i: nat, ch: Choice)
    requires Good(env, db, net)
    ensures var (n, answer) := Ask(net, i, ch);
            && Good(env, db, n) && NetGrows(net, n)
            && (answer.Some? ==> i in n.decided && n.decided[i] == answer.value)
  {
    hide Inv, SuccessOk, Grows, ChainOk, ExposedOk;
    GrowsSame(db);
    AskGrows(env, db, net, i, ch);
    SuccessStays(env, db, db, net, Ask(net, i, ch).0);
  }

  // ---------- execute ----------

  /** What was approved is what is built: columns and current rows can only differ from the hashed proposal in letter
      case, and the amount sent is the one whose text was hashed. */
  lemma PreparedServes(k: Kind, ch: Choice)
    requires Prepare(k, ch).Some?
    ensures var p := Prepare(k, ch).value; Serves(k, p.purpose, p.to, p.data)
  {
    if k.MintOp? {
      ProposalHashInjective(Rebuilt(k.snapshot, k.amount, k.reference, ch.rows), k.snapshot);
    }
  }

  /** The chain never runs ahead of the lane, so the divergence guard cannot fire on the application's own traffic. */
  lemma LaneCoversChain(env: Env, db: Db, net: Net)
    requires Good(env, db, net)
    ensures AccountNonce(env, net) == env.base || (db.lane.Some? && AccountNonce(env, net) <= db.lane.value)
  {
    var ours := OursOf(Flat(net.chain));
    if ours != [] {
      var k := |ours| - 1;
      assert ours[k] in net.exposed;
      assert Stored(db.attempts, ours[k]);
      var i: nat :| i < |db.attempts| && db.attempts[i].bytes == Some(ours[k]);
      assert ShapeOk(env.c, db.attempts[i]);
    }
  }

  lemma FailQuiet(db: Db, o: nat)
    requires FailOperationTx(db, o).Some?
    ensures Quiet(db, FailOperationTx(db, o).value)
  {
  }

  lemma PrepareQuiet(c: Config, db: Db, o: nat, purpose: Purpose, to: Option<Address>, data: Data, gas: nat,
                     fees: Fee.Fees, chainNonce: nat)
    requires PrepareTx(c, db, o, purpose, to, data, gas, fees, chainNonce).Some?
    ensures Quiet(db, PrepareTx(c, db, o, purpose, to, data, gas, fees, chainNonce).value)
  {
  }

  lemma ExecuteKept(env: Env, db: Db, net: Net, a: Actor, ch: Choice)
    requires Good(env, db, net) && ActorOk(env, db, net, a) && (a.Claimed? || a.Built? || a.Erring?)
    ensures Kept(env, db, net, ExecuteStep(env, db, net, a, ch))
  {
    hide Inv, NetOk, SuccessOk, Grows;
    match a
    case Claimed(o) =>
      var p := Prepare(db.ops[o].kind, ch);
      if !ch.fail && p.Some? {
        PreparedServes(db.ops[o].kind, ch);
        LaneCoversChain(env, db, net);
      }
      ReadKept(env, db, net, ExecuteStep(env, db, net, a, ch).2);
    case Built(o, purpose, to, data, gas, fees, chainNonce) =>
      var r := PrepareTx(env.c, db, o, purpose, to, data, gas, fees, chainNonce);
      if r.Some? {
        PrepareKeeps(env.c, env.base, db, o, purpose, to, data, gas, fees, chainNonce);
        PrepareQuiet(env.c, db, o, purpose, to, data, gas, fees, chainNonce);
      }
      CommitKept(env, db, net, r, Requesting(|db.attempts|, Operation(o, true)), Erring(o));
    case Erring(o) =>
      var r := FailOperationTx(db, o);
      if r.Some? {
        FailOperationKeeps(env.c, env.base, db, o);
        FailQuiet(db, o);
      }
      CommitKept(env, db, net, r, Done, Done);
  }

  // ---------- the chain writer ----------

  lemma FailAttemptQuiet(db: Db, i: nat, h: Hooks)
    requires FailAttemptTx(db, i, h).Some?
    ensures Quiet(db, FailAttemptTx(db, i, h).value)
  {
  }

  lemma FailingKept(env: Env, db: Db, net: Net, i: nat, h: Hooks, rethrow: bool)
    requires Good(env, db, net) && HooksFit(db, i, h)
    ensures Kept(env, db, net, Commit(db, net, FailAttemptTx(db, i, h), if rethrow then Throw(h) else Done, Throw(h)))
  {
    hide Inv, NetOk, SuccessOk, Grows;
    if FailAttemptTx(db, i, h).Some? {
      FailAttemptKeeps(env.c, env.base, db, i, h);
      FailAttemptQuiet(db, i, h);
    }
    CommitKept(env, db, net, FailAttemptTx(db, i, h), if rethrow then Throw(h) else Done, Throw(h));
  }

  lemma PersistRows(db: Db, i: nat, h: Hooks, tx: SignedTx)
    requires i < |db.attempts| && PersistTx(db, i, tx, h).Some?
    ensures var e := PersistTx(db, i, tx, h).value;
            && |e.attempts| == |db.attempts| && e.attempts[i].bytes == Some(tx)
            && (forall k: nat | k < |e.attempts| && k != i :: e.attempts[k] == db.attempts[k])
            && (forall o: nat | o < |e.ops| && e.ops[o].state.Succeeded? :: o < |db.ops| && db.ops[o].state.Succeeded?)
  {
  }

  /** Storing the bytes: they are the signer's settled answer, so stored bytes never change. */
  lemma PersistGood(env: Env, db: Db, net: Net, i: nat, h: Hooks, tx: SignedTx)
    requires Good(env, db, net) && HooksFit(db, i, h) && !h.Recovery? && PersistTx(db, i, tx, h).Some?
    requires i in net.decided && net.decided[i].SignatureOf? && net.decided[i].tx == tx
    requires Decodes(tx, db.attempts[i].core.request)
    ensures var e := PersistTx(db, i, tx, h).value;
            Good(env, e, net) && Grows(db, e) && e.attempts[i].bytes == Some(tx)
  {
    hide Inv, Grows;
    PersistKeeps(env.c, env.base, db, i, tx, h);
    PersistRows(db, i, h, tx);
    var e := PersistTx(db, i, tx, h).value;
    StoredStays(db, e, net.exposed);
    PersistExposed(db, e, net.exposed, i, tx);
    NetGrowsSame(net);
    SuccessStays(env, db, e, net, net);
  }

  lemma SameRow(rows: seq<Attempt>, j: nat, k: nat)
    requires HashUnique(rows) && j < |rows| && k < |rows| && rows[j].bytes.Some? && rows[j].bytes == rows[k].bytes
    ensures j == k
  {
  }

  /** Bytes already exposed are stored on one row only, so storing them again elsewhere would break the hash index. */
  lemma PersistExposed(db: Db, e: Db, exposed: set<SignedTx>, i: nat, tx: SignedTx)
    requires ExposedOk(db, exposed) && Grows(db, e) && AttemptsOk(e.attempts)
    requires |e.attempts| == |db.attempts| && i < |db.attempts| && e.attempts[i].bytes == Some(tx)
    requires forall k: nat | k < |e.attempts| && k != i :: e.attempts[k] == db.attempts[k]
    ensures forall k: nat | k < |e.attempts| && e.attempts[k].bytes.Some? && e.attempts[k].bytes.value in exposed
              && e.attempts[k].core.op.Some? :: Tied(e, e.attempts[k].core.op.value, k)
  {
    forall k: nat | k < |e.attempts| && e.attempts[k].bytes.Some? && e.attempts[k].bytes.value in exposed
                    && e.attempts[k].core.op.Some?
      ensures Tied(e, e.attempts[k].core.op.value, k)
    {
      assert AttemptKept(db.attempts[k], e.attempts[k]);
      assert Stored(db.attempts, e.attempts[k].bytes.value);
      var j: nat :| j < |db.attempts| && db.attempts[j].bytes == e.attempts[k].bytes;
      assert AttemptKept(db.attempts[j], e.attempts[j]);
      SameRow(e.attempts, j, k);
      TiedStays(db, e, db.attempts[k].core.op.value, k);
    }
  }

  lemma VerifiedKept(env: Env, db: Db, net: Net, i: nat, h: Hooks, tx: SignedTx, claimed: Hash)
    requires Good(env, db, net) && ActorOk(env, db, net, Settling(i, h, SignatureOf(tx, claimed)))
    requires VerifySigned(tx, db.attempts[i].core.request, db.attempts[i].core.request.from, claimed).None?
    ensures Kept(env, db, net, Commit(db, net, PersistTx(db, i, tx, h), Persisted(i, h, tx), Throw(h)))
  {
    hide Inv, NetOk, SuccessOk, Grows;
    GoodNet(env, db, net);
    if PersistTx(db, i, tx, h).None? {
      ReadKept(env, db, net, Throw(h));
    } else {
      VerifyExactly(tx, db.attempts[i].core.request, claimed);
      PersistGood(env, db, net, i, h, tx);
      HooksStay(db, PersistTx(db, i, tx, h).value, i, h);
    }
  }

  lemma SettlingKept(env: Env, db: Db, net: Net, i: nat, h: Hooks, answer: Answer, ch: Choice)
    requires Good(env, db, net) && ActorOk(env, db, net, Settling(i, h, answer))
    ensures Kept(env, db, net, SignStep(db, net, Settling(i, h, answer), ch))
  {
    hide Inv, NetOk, SuccessOk, Grows;
    if answer.Refused? {
      RequestKept(env, db, net, i, Rejected, Failing(i, h, false));
    } else if VerifySigned(answer.tx, db.attempts[i].core.request, db.attempts[i].core.request.from, answer.claimed).Some? {
      ReadKept(env, db, net, Failing(i, h, true));
    } else {
      VerifiedKept(env, db, net, i, h, answer.tx, answer.claimed);
    }
  }

  lemma AskingKept(env: Env, db: Db, net: Net, a: Actor, ch: Choice)
    requires Good(env, db, net) && ActorOk(env, db, net, a) && (a.Requesting? || a.Fetching?)
    ensures Kept(env, db, net, SignStep(db, net, a, ch))
  {
    hide Inv, NetOk, SuccessOk, Grows;
    if ch.fail {
      ReadKept(env, db, net, Throw(a.h));
    } else {
      GrowsSame(db);
      AskKept(env, db, net, a.attempt, ch);
    }
  }

  lemma AnsweredKept(env: Env, db: Db, net: Net, i: nat, h: Hooks, decision: Option<Answer>, ch: Choice)
    requires Good(env, db, net) && ActorOk(env, db, net, Answered(i, h, decision))
    ensures Kept(env, db, net, SignStep(db, net, Answered(i, h, decision), ch))
  {
    hide Inv, NetOk, SuccessOk, Grows;
    if decision.None? {
      RequestKept(env, db, net, i, Pending, Done);
    } else {
      RequestKept(env, db, net, i, if decision.value.Refused? then Rejected else SignatureGiven,
                  Settling(i, h, decision.value));
    }
  }

  lemma ResumeKept(env: Env, db: Db, net: Net, a: Actor, ch: Choice)
    requires Good(env, db, net) && ActorOk(env, db, net, a) && (a.Resuming? || a.Expiring?)
    ensures Kept(env, db, net, SignStep(db, net, a, ch))
  {
    hide Inv, NetOk, SuccessOk, Grows;
    if a.Expiring? && ch.lapsed && a.attempt in db.requests && db.requests[a.attempt].Pending? {
      RequestKept(env, db, net, a.attempt, Expired, Failing(a.attempt, a.h, false));
    } else {
      ReadKept(env, db, net, SignStep(db, net, a, ch).2);
    }
  }

  lemma SignKept(env: Env, db: Db, net: Net, a: Actor, ch: Choice)
    requires Good(env, db, net) && ActorOk(env, db, net, a)
    requires a.Requesting? || a.Answered? || a.Settling? || a.Failing? || a.Resuming? || a.Expiring? || a.Fetching?
    ensures Kept(env, db, net, SignStep(db, net, a, ch))
  {
    hide Inv, NetOk, SuccessOk, Grows;
    if a.Requesting? || a.Fetching? { AskingKept(env, db, net, a, ch); }
    else if a.Answered? { AnsweredKept(env, db, net, a.attempt, a.h, a.decision, ch); }
    else if a.Settling? { SettlingKept(env, db, net, a.attempt, a.h, a.answer, ch); }
    else if a.Failing? { FailingKept(env, db, net, a.attempt, a.h, a.rethrow); }
    else { ResumeKept(env, db, net, a, ch); }
  }

  // ---------- the wire ----------

  lemma BroadcastingQuiet(db: Db, i: nat, h: Hooks)
    requires BroadcastingTx(db, i, h).Some?
    ensures Quiet(db, BroadcastingTx(db, i, h).value)
  {
  }

  lemma OutcomeQuiet(db: Db, i: nat, h: Hooks, r: SendResult)
    requires OutcomeTx(db, i, h, r).Some?
    ensures Quiet(db, OutcomeTx(db, i, h, r).value)
  {
    hide AttemptsOk, Quiet;
    var e := OutcomeTx(db, i, h, r).value;
    var status := match r case Accepted => Submitted case DeterministicRejection => Failed case Ambiguous => BroadcastUnknown;
    StatusOnly(db, e, i, status);
  }

  lemma StatusOnly(d: Db, e: Db, i: nat, status: Status)
    requires e.attempts == d.attempts || (i < |d.attempts| && e.attempts == d.attempts[i := d.attempts[i].(status := status)])
    requires |e.ops| == |d.ops| && forall o: nat | o < |e.ops| && e.ops[o].state.Succeeded? :: d.ops[o].state.Succeeded?
    ensures Quiet(d, e)
  {
  }

  lemma SendExposed(env: Env, db: Db, exposed: set<SignedTx>, i: nat, h: Hooks, tx: SignedTx)
    requires Inv(env.c, env.base, db) && ExposedOk(db, exposed) && Armed(db, i, h, tx)
    ensures ExposedOk(db, exposed + {tx})
  {
    assert Stored(db.attempts, tx);
    forall k: nat | k < |db.attempts| && db.attempts[k].bytes.Some? && db.attempts[k].bytes.value in exposed + {tx}
                    && db.attempts[k].core.op.Some?
      ensures Tied(db, db.attempts[k].core.op.value, k)
    {
      if db.attempts[k].bytes == db.attempts[i].bytes { SameRow(db.attempts, i, k); }
    }
  }

  /** Bytes are stored on their attempt before they are handed to a node, under an operation failOperation does not touch. */
  lemma SendGood(env: Env, db: Db, net: Net, i: nat, h: Hooks, tx: SignedTx, ch: Choice)
    requires Good(env, db, net) && Armed(db, i, h, tx)
    ensures var n := SendStep(db, net, Checked(i, h, tx), ch).1; Good(env, db, n) && NetGrows(net, n)
  {
    hide Inv, Grows;
    var n := SendStep(db, net, Checked(i, h, tx), ch).1;
    SendExposed(env, db, net.exposed, i, h, tx);
    GrowsSame(db);
    SuccessStays(env, db, db, net, n);
  }

  lemma AttemptStays(d: Db, e: Db, i: nat)
    requires Grows(d, e) && i < |d.attempts|
    ensures AttemptKept(d.attempts[i], e.attempts[i])
  {
  }

  lemma AllowedKept(env: Env, db: Db, net: Net, i: nat, h: Hooks, tx: SignedTx)
    requires Good(env, db, net) && ActorOk(env, db, net, Allowed(i, h, tx))
    ensures Kept(env, db, net, Commit(db, net, BroadcastingTx(db, i, h), Sending(i, h, tx), Throw(h)))
  {
    hide Inv, NetOk, SuccessOk, Grows, Kept;
    var r := BroadcastingTx(db, i, h);
    if r.Some? {
      BroadcastingKeeps(env.c, env.base, db, i, h);
      BroadcastingQuiet(db, i, h);
      HooksStay(db, r.value, i, h);
      AttemptStays(db, r.value, i);
    }
    CommitKept(env, db, net, r, Sending(i, h, tx), Throw(h));
  }

  lemma ArmedStays(d: Db, e: Db, i: nat, h: Hooks, tx: SignedTx)
    requires Armed(d, i, h, tx) && Grows(d, e)
    ensures Armed(e, i, h, tx)
  {
    HooksStay(d, e, i, h);
    assert AttemptKept(d.attempts[i], e.attempts[i]);
    if d.attempts[i].core.op.Some? { TiedStays(d, e, d.attempts[i].core.op.value, i); }
  }

  lemma SentKept(env: Env, db: Db, net: Net, i: nat, h: Hooks, tx: SignedTx, result: SendResult)
    requires Good(env, db, net) && Armed(db, i, h, tx)
    ensures Kept(env, db, net, Commit(db, net, OutcomeTx(db, i, h, result),
                                      if result.Accepted? then AfterSubmit(i, h, tx) else Done, Throw(h)))
  {
    hide Inv, NetOk, SuccessOk, Grows, Kept, OutcomeTx;
    var r := OutcomeTx(db, i, h, result);
    if r.Some? {
      OutcomeKeeps(env.c, env.base, db, i, h, result);
      OutcomeQuiet(db, i, h, result);
      ArmedStays(db, r.value, i, h, tx);
    }
    CommitKept(env, db, net, r, if result.Accepted? then AfterSubmit(i, h, tx) else Done, Throw(h));
  }

  lemma CheckedKept(env: Env, db: Db, net: Net, i: nat, h: Hooks, tx: SignedTx, ch: Choice)
    requires Good(env, db, net) && Armed(db, i, h, tx)
    ensures Kept(env, db, net, SendStep(db, net, Checked(i, h, tx), ch))
  {
    hide Inv, NetOk, SuccessOk, Grows;
    GrowsSame(db);
    SendGood(env, db, net, i, h, tx, ch);
  }

  lemma GateKept(env: Env, db: Db, net: Net, a: Actor, ch: Choice)
    requires Good(env, db, net) && ActorOk(env, db, net, a) && (a.Persisted? || a.Sending?)
    ensures Kept(env, db, net, SendStep(db, net, a, ch))
  {
    hide Inv, NetOk, SuccessOk, Grows;
    ReadKept(env, db, net, SendStep(db, net, a, ch).2);
  }

  lemma SendKept(env: Env, db: Db, net: Net, a: Actor, ch: Choice)
    requires Good(env, db, net) && ActorOk(env, db, net, a)
    requires a.Persisted? || a.Allowed? || a.Sending? || a.Checked? || a.Sent?
    ensures Kept(env, db, net, SendStep(db, net, a, ch))
  {
    hide Inv, NetOk, SuccessOk, Grows;
    if a.Allowed? { AllowedKept(env, db, net, a.attempt, a.h, a.tx); }
    else if a.Checked? { CheckedKept(env, db, net, a.attempt, a.h, a.tx, ch); }
    else if a.Sent? { SentKept(env, db, net, a.attempt, a.h, a.tx, a.result); }
    else { GateKept(env, db, net, a, ch); }
  }

  // ---------- observing ----------

  /** A receipt was seen for these bytes, so they were sent, so failOperation does not touch their operation. */
  lemma SeenIsTied(env: Env, db: Db, net: Net, o: nat, i: nat, tx: SignedTx)
    requires Good(env, db, net) && Row(db, o, i, tx) && tx in net.known
    ensures Tied(db, o, i)
  {
  }

  lemma IncludeQuiet(db: Db, o: nat, i: nat, ok: bool, block: BlockRef)
    requires IncludeTx(db, o, i, ok, block).Some?
    ensures Quiet(db, IncludeTx(db, o, i, ok, block).value)
  {
  }

  lemma ReorgQuiet(db: Db, o: nat, i: nat)
    requires ReorgTx(db, o, i).Some?
    ensures Quiet(db, ReorgTx(db, o, i).value)
  {
  }

  lemma IncludingKept(env: Env, db: Db, net: Net, a: Actor)
    requires Good(env, db, net) && ActorOk(env, db, net, a) && a.Including?
    ensures Kept(env, db, net, Commit(db, net, IncludeTx(db, a.op, a.attempt, a.ok, a.block),
              if a.next.None? then Done else Reconciling(a.op, a.attempt, a.tx, a.next.value), Done))
  {
    hide Inv, NetOk, SuccessOk, Grows;
    GoodNet(env, db, net);
    var r := IncludeTx(db, a.op, a.attempt, a.ok, a.block);
    if r.Some? {
      IncludeKeeps(env.c, env.base, db, a.op, a.attempt, a.ok, a.block);
      IncludeQuiet(db, a.op, a.attempt, a.ok, a.block);
      ActorStays(env, db, net, r.value, net, a);
    }
    CommitKept(env, db, net, r, if a.next.None? then Done else Reconciling(a.op, a.attempt, a.tx, a.next.value), Done);
  }

  /** What the stored bytes of a mint do is what its operation was approved for. */
  lemma StoredMint(env: Env, db: Db, o: nat, i: nat, tx: SignedTx)
    requires Inv(env.c, env.base, db) && Row(db, o, i, tx)
    ensures o < |db.ops| && tx.signer == Some(env.c.signer)
    ensures Serves(db.ops[o].kind, db.attempts[i].core.purpose, tx.to, tx.data)
  {
    assert ShapeOk(env.c, db.attempts[i]) && TieOk(db.ops, db.attempts[i]);
  }

  lemma FinalMint(env: Env, net: Net, k: Kind, purpose: Purpose, tx: SignedTx, p: nat)
    requires k.MintOp? && Serves(k, purpose, tx.to, tx.data) && tx.signer.Some?
    requires InFinalPrefix(env, net, tx, p) && tx.to.value in env.contracts
    ensures Proven(env, net, k)
  {
    var contract := Lower(k.snapshot.contractAddress);
    var flat := FinalEntries(net);
    var m := Token.Message(tx.signer.value, flat[p].time, tx.data.call);
    assert MessageTo(flat[p], contract) == Some(m);
    var at := MintLoggedOnce(flat, p, contract, env.contracts[contract], m);
    assert MintedAt(FinalLog(env, net, contract), at, Lower(k.snapshot.operationReference),
                    Lower(k.snapshot.recipientAddress), k.amount);
  }

  /** A finalized receipt of the approved mint is the one MintExecuted of its reference. */
  lemma FinalMintProven(env: Env, db: Db, net: Net, o: nat, i: nat, tx: SignedTx, p: nat, ch: Choice)
    requires Inv(env.c, env.base, db) && Row(db, o, i, tx) && o < |db.ops| && InFinalPrefix(env, net, tx, p)
    requires db.ops[o].kind.MintOp?
    requires MintEventOk(env, tx, db.ops[o].kind.amount, db.ops[o].kind.reference, ch.rows)
    ensures Proven(env, net, db.ops[o].kind)
  {
    StoredMint(env, db, o, i, tx);
    FinalMint(env, net, db.ops[o].kind, db.attempts[i].core.purpose, tx, p);
  }

  lemma SettleRows(db: Db, o: nat, i: nat, to: M.OpState)
    requires SettleTx(db, o, i, to).Some?
    ensures var e := SettleTx(db, o, i, to).value;
            && |e.attempts| == |db.attempts| && |e.ops| == |db.ops|
            && (forall k: nat | k < |e.attempts| :: e.attempts[k].bytes == db.attempts[k].bytes)
            && (forall q: nat | q < |e.ops| && q != o :: e.ops[q] == db.ops[q])
            && e.ops[o].state == to
  {
  }

  lemma SettleGood(env: Env, db: Db, net: Net, o: nat, i: nat, to: M.OpState)
    requires Good(env, db, net) && ActorOk(env, db, net, Judged(o, i, to)) && SettleTx(db, o, i, to).Some?
    ensures Good(env, SettleTx(db, o, i, to).value, net) && Grows(db, SettleTx(db, o, i, to).value)
  {
    hide Inv, Grows;
    var e := SettleTx(db, o, i, to).value;
    SettleKeeps(env.c, env.base, db, o, i, to);
    SettleRows(db, o, i, to);
    ExposedStays(db, e, net.exposed);
    forall q: nat | q < |e.ops| && e.ops[q].state.Succeeded? ensures Proven(env, net, e.ops[q].kind) {
      assert OpKept(db.ops[q], e.ops[q]);
    }
  }

  lemma AwaitingKept(env: Env, db: Db, net: Net, o: nat, i: nat, tx: SignedTx, ch: Choice)
    requires Good(env, db, net) && Row(db, o, i, tx)
    ensures Kept(env, db, net, ObserveStep(env, db, net, Awaiting(o, i, tx), ch))
  {
    hide Inv, NetOk, SuccessOk, Grows, Kept;
    if !ch.fail && Confirms(env, net, tx, ch.seen) { SeenIsTied(env, db, net, o, i, tx); }
    ReadKept(env, db, net, ObserveStep(env, db, net, Awaiting(o, i, tx), ch).2);
  }

  lemma OrphaningKept(env: Env, db: Db, net: Net, o: nat, i: nat)
    requires Good(env, db, net) && Tied(db, o, i)
    ensures Kept(env, db, net, Commit(db, net, ReorgTx(db, o, i), Done, Done))
  {
    hide Inv, NetOk, SuccessOk, Grows;
    if ReorgTx(db, o, i).Some? {
      ReorgKeeps(env.c, env.base, db, o, i);
      ReorgQuiet(db, o, i);
    }
    CommitKept(env, db, net, ReorgTx(db, o, i), Done, Done);
  }

  lemma ReconcilingOk(env: Env, db: Db, net: Net, o: nat, i: nat, tx: SignedTx, v: Verdict, ch: Choice)
    requires Inv(env.c, env.base, db) && ActorOk(env, db, net, Reconciling(o, i, tx, v))
    ensures ActorOk(env, db, net, ObserveStep(env, db, net, Reconciling(o, i, tx, v), ch).2)
  {
    hide Inv, MintEventOk, Proven;
    var k := db.ops[o].kind;
    if v.WasFinal? && k.MintOp? && MintEventOk(env, tx, k.amount, k.reference, ch.rows) {
      FinalMintProven(env, db, net, o, i, tx, v.position, ch);
    }
    if !k.MintOp? { OthersProven(env, net, k); }
  }

  lemma OthersProven(env: Env, net: Net, k: Kind)
    requires !k.MintOp?
    ensures Proven(env, net, k)
  {
  }

  lemma ReconcilingKept(env: Env, db: Db, net: Net, o: nat, i: nat, tx: SignedTx, v: Verdict, ch: Choice)
    requires Good(env, db, net) && ActorOk(env, db, net, Reconciling(o, i, tx, v))
    ensures Kept(env, db, net, ObserveStep(env, db, net, Reconciling(o, i, tx, v), ch))
  {
    hide Inv, NetOk, SuccessOk, Grows, Kept, ActorOk, MintEventOk;
    ReconcilingOk(env, db, net, o, i, tx, v, ch);
    ReadKept(env, db, net, ObserveStep(env, db, net, Reconciling(o, i, tx, v), ch).2);
  }

  lemma JudgedKept(env: Env, db: Db, net: Net, o: nat, i: nat, to: M.OpState)
    requires Good(env, db, net) && ActorOk(env, db, net, Judged(o, i, to))
    ensures Kept(env, db, net, Commit(db, net, SettleTx(db, o, i, to), Done, Done))
  {
    hide Inv, NetOk, SuccessOk, Grows;
    GoodNet(env, db, net);
    if SettleTx(db, o, i, to).Some? {
      SettleGood(env, db, net, o, i, to);
    } else {
      ReadKept(env, db, net, Done);
    }
  }

  lemma ObserveKept(env: Env, db: Db, net: Net, a: Actor, ch: Choice)
    requires Good(env, db, net) && ActorOk(env, db, net, a)
    requires a.Observing? || a.Awaiting? || a.Including? || a.Orphaning? || a.Reconciling? || a.Judged?
    ensures Kept(env, db, net, ObserveStep(env, db, net, a, ch))
  {
    hide Good, Kept;
    if a.Observing? { ReadKept(env, db, net, ObserveStep(env, db, net, a, ch).2); }
    else if a.Awaiting? { AwaitingKept(env, db, net, a.op, a.attempt, a.tx, ch); }
    else if a.Including? { IncludingKept(env, db, net, a); }
    else if a.Orphaning? { OrphaningKept(env, db, net, a.op, a.attempt); }
    else if a.Reconciling? { ReconcilingKept(env, db, net, a.op, a.attempt, a.tx, a.verdict, ch); }
    else { JudgedKept(env, db, net, a.op, a.attempt, a.target); }
  }

  // ---------- recovery ----------

  lemma AbandonQuiet(db: Db, o: nat, latest: Option<nat>)
    requires AbandonTx(db, o, latest).Some?
    ensures Quiet(db, AbandonTx(db, o, latest).value)
  {
  }

  lemma AbandoningKept(env: Env, db: Db, net: Net, o: nat, latest: Option<nat>)
    requires Good(env, db, net) && (latest.Some? ==> latest.value < |db.attempts|)
    ensures Kept(env, db, net, Commit(db, net, AbandonTx(db, o, latest), Done, Done))
  {
    hide Inv, NetOk, SuccessOk, Grows;
    var r := AbandonTx(db, o, latest);
    if r.Some? {
      AbandonKeeps(env.c, env.base, db, o, latest);
      AbandonQuiet(db, o, latest);
    }
    CommitKept(env, db, net, r, Done, Done);
  }

  lemma AdvancingKept(env: Env, db: Db, net: Net, o: nat)
    requires Good(env, db, net)
    ensures Kept(env, db, net, Commit(db, net, AdvanceTx(db, o), Finalizing(o), Done))
  {
    hide Inv, NetOk, SuccessOk, Grows;
    var r := AdvanceTx(db, o);
    if r.Some? {
      MoveIfKeeps(env.c, env.base, db, o, {M.BroadcastUnknown, M.Broadcasting}, M.Submitted);
      assert Quiet(db, r.value);
    }
    CommitKept(env, db, net, r, Finalizing(o), Done);
  }

  lemma RebroadcastQuiet(db: Db, o: nat, i: nat)
    requires RebroadcastTx(db, o, i).Some?
    ensures Quiet(db, RebroadcastTx(db, o, i).value)
  {
  }

  lemma RebroadcastingKept(env: Env, db: Db, net: Net, o: nat, i: nat, tx: SignedTx)
    requires Good(env, db, net) && Row(db, o, i, tx)
    ensures Kept(env, db, net, Commit(db, net, RebroadcastTx(db, o, i), Sending(i, Recovery(o), tx), Done))
  {
    hide Inv, NetOk, SuccessOk, Grows;
    var r := RebroadcastTx(db, o, i);
    if r.Some? {
      RebroadcastKeeps(env.c, env.base, db, o, i);
      RebroadcastQuiet(db, o, i);
      AttemptStays(db, r.value, i);
    }
    CommitKept(env, db, net, r, Sending(i, Recovery(o), tx), Done);
  }

  lemma RecoverReadKept(env: Env, db: Db, net: Net, a: Actor, ch: Choice)
    requires Good(env, db, net) && ActorOk(env, db, net, a)
    requires a.RecoverSigning? || a.RecoverRequest? || a.RecoverUnsent?
    ensures Kept(env, db, net, RecoverStep(db, net, a, ch))
  {
    hide Inv, NetOk, SuccessOk, Grows;
    ReadKept(env, db, net, RecoverStep(db, net, a, ch).2);
  }

  lemma ResolveReadKept(env: Env, db: Db, net: Net, a: Actor, ch: Choice)
    requires Good(env, db, net) && ActorOk(env, db, net, a)
    requires a.ResolveInFlight? || a.LookingUp? || a.Finalizing?
    ensures Kept(env, db, net, RecoverStep(db, net, a, ch))
  {
    hide Inv, NetOk, SuccessOk, Grows;
    var next := RecoverStep(db, net, a, ch).2;
    assert ActorOk(env, db, net, next);
    ReadKept(env, db, net, next);
  }

  lemma RecoverKept(env: Env, db: Db, net: Net, a: Actor, ch: Choice)
    requires Good(env, db, net) && ActorOk(env, db, net, a)
    requires a.RecoverSigning? || a.RecoverRequest? || a.RecoverUnsent? || a.Abandoning? || a.ResolveInFlight? ||
             a.LookingUp? || a.Advancing? || a.Finalizing? || a.Rebroadcasting?
    ensures Kept(env, db, net, RecoverStep(db, net, a, ch))
  {
    hide Inv, NetOk, SuccessOk, Grows;
    if a.Abandoning? { AbandoningKept(env, db, net, a.op, a.latest); }
    else if a.Advancing? { AdvancingKept(env, db, net, a.op); }
    else if a.Rebroadcasting? { RebroadcastingKept(env, db, net, a.op, a.attempt, a.tx); }
    else if a.RecoverSigning? || a.RecoverRequest? || a.RecoverUnsent? { RecoverReadKept(env, db, net, a, ch); }
    else { ResolveReadKept(env, db, net, a, ch); }
  }

  // ---------- replacement ----------

  lemma FeeReplacementFits(env: Env, db: Db, i: nat, fees: Fee.Fees)
    requires Inv(env.c, env.base, db) && i < |db.attempts| && Fee.Ordered(fees)
    requires db.attempts[i].core.number < env.c.maxReplacements
    ensures var p := db.attempts[i].core;
            var q := FeeReplacement(i, p, fees);
            ShapeOk(env.c, Fresh(q)) && Follows(env.c, p, q) && SameIntent(p, q)
  {
    assert ShapeOk(env.c, db.attempts[i]);
  }

  lemma CancellationFits(env: Env, db: Db, i: nat, fees: Fee.Fees)
    requires Inv(env.c, env.base, db) && i < |db.attempts| && Fee.Ordered(fees)
    requires !db.attempts[i].core.purpose.NonceRecovery?
    ensures var p := db.attempts[i].core;
            var q := Cancellation(env.c, i, p, fees);
            ShapeOk(env.c, Fresh(q)) && Follows(env.c, p, q)
  {
    assert ShapeOk(env.c, db.attempts[i]);
  }

  lemma ReplaceQuiet(db: Db, i: nat, core: Core)
    requires ReplaceTx(db, i, core).Some?
    ensures Quiet(db, ReplaceTx(db, i, core).value)
  {
  }

  lemma BumpOrdered(env: Env, db: Db, i: nat, ch: Choice)
    requires Inv(env.c, env.base, db) && i < |db.attempts|
    ensures var r := db.attempts[i].core.request;
            Fee.Ordered(Fee.BumpFees(Fee.Fees(r.maxFee, r.priority), Estimate(ch), env.c.bump))
  {
    assert ShapeOk(env.c, db.attempts[i]);
    var r := db.attempts[i].core.request;
    Fee.BumpRises(Fee.Fees(r.maxFee, r.priority), Estimate(ch), env.c.bump);
  }

  lemma ReplacingCommits(env: Env, db: Db, net: Net, i: nat, fees: Fee.Fees)
    requires Good(env, db, net) && StuckOk(db, i) && Fee.Ordered(fees)
    requires db.attempts[i].core.number < env.c.maxReplacements
    ensures var p := db.attempts[i].core;
            Kept(env, db, net,
                 Commit(db, net, ReplaceTx(db, i, FeeReplacement(i, p, fees)),
                        Requesting(|db.attempts|, if p.op.Some? then Replacement(p.op.value) else NoHooks(false)), Done))
  {
    hide Inv, NetOk, SuccessOk, Grows, ReplaceTx, Kept;
    var p := db.attempts[i].core;
    var q := FeeReplacement(i, p, fees);
    FeeReplacementFits(env, db, i, fees);
    if ReplaceTx(db, i, q).Some? {
      ReplaceApplies(db, i, q);
      ReplaceKeeps(env.c, env.base, db, i, q);
      ReplaceQuiet(db, i, q);
    }
    CommitKept(env, db, net, ReplaceTx(db, i, q),
               Requesting(|db.attempts|, if p.op.Some? then Replacement(p.op.value) else NoHooks(false)), Done);
  }

  lemma ReplacingKept(env: Env, db: Db, net: Net, i: nat, ch: Choice)
    requires Good(env, db, net) && ActorOk(env, db, net, Replacing(i))
    ensures Kept(env, db, net, ReplaceStep(env, db, net, Replacing(i), ch))
  {
    hide Inv, NetOk, SuccessOk, Grows, ReplaceTx, Kept;
    if db.attempts[i].core.number >= env.c.maxReplacements {
      ReadKept(env, db, net, Done);
    } else {
      var p := db.attempts[i].core;
      BumpOrdered(env, db, i, ch);
      ReplacingCommits(env, db, net, i, Fee.BumpFees(Fee.Fees(p.request.maxFee, p.request.priority), Estimate(ch), env.c.bump));
    }
  }

  lemma ReplaceApplies(db: Db, i: nat, core: Core)
    requires ReplaceTx(db, i, core).Some?
    ensures i < |db.attempts| && !db.attempts[i].status.Replaced? && ReplaceTx(db, i, core).value.ops == db.ops
  {
  }

  lemma RecoveryRequests(env: Env, d: Db, net: Net, n: nat)
    requires n < |d.attempts| && d.attempts[n].core.op.None?
    ensures ActorOk(env, d, net, Requesting(n, NoHooks(true)))
  {
  }

  lemma AnyoneMayStop(env: Env, db: Db, net: Net)
    ensures ActorOk(env, db, net, Done)
  {
  }

  lemma CancellingCommits(env: Env, db: Db, net: Net, i: nat, fees: Fee.Fees)
    requires Good(env, db, net) && ActorOk(env, db, net, Cancelling(i)) && Fee.Ordered(fees)
    ensures Kept(env, db, net, Commit(db, net, ReplaceTx(db, i, Cancellation(env.c, i, db.attempts[i].core, fees)),
                                      Requesting(|db.attempts|, NoHooks(true)), Done))
  {
    hide Inv, NetOk, SuccessOk, Grows, ReplaceTx, Kept;
    var q := Cancellation(env.c, i, db.attempts[i].core, fees);
    CancellationFits(env, db, i, fees);
    if ReplaceTx(db, i, q).Some? {
      ReplaceApplies(db, i, q);
      ReplaceKeeps(env.c, env.base, db, i, q);
      ReplaceQuiet(db, i, q);
      RecoveryRequests(env, ReplaceTx(db, i, q).value, net, |db.attempts|);
    }
    AnyoneMayStop(env, db, net);
    hide ActorOk;
    CommitKept(env, db, net, ReplaceTx(db, i, q), Requesting(|db.attempts|, NoHooks(true)), Done);
  }

  lemma CancellingKept(env: Env, db: Db, net: Net, i: nat, ch: Choice)
    requires Good(env, db, net) && ActorOk(env, db, net, Cancelling(i))
    ensures Kept(env, db, net, ReplaceStep(env, db, net, Cancelling(i), ch))
  {
    hide Inv, NetOk, SuccessOk, Grows, ReplaceTx, Kept;
    if ch.fail {
      ReadKept(env, db, net, Done);
    } else {
      var p := db.attempts[i].core;
      BumpOrdered(env, db, i, ch);
      CancellingCommits(env, db, net, i, Fee.BumpFees(Fee.Fees(p.request.maxFee, p.request.priority), Estimate(ch), env.c.bump));
    }
  }

  lemma ConfirmingKept(env: Env, db: Db, net: Net, i: nat, ok: bool, block: BlockRef, final: bool)
    requires Good(env, db, net) && i < |db.attempts| && db.attempts[i].core.op.None?
    ensures Kept(env, db, net, Commit(db, net, ConfirmRecoveryTx(db, i, ok, block, final), Done, Done))
  {
    hide Inv, NetOk, SuccessOk, Grows;
    var r := ConfirmRecoveryTx(db, i, ok, block, final);
    if r.Some? {
      ConfirmRecoveryKeeps(env.c, env.base, db, i, ok, block, final);
      assert Quiet(db, r.value);
    }
    CommitKept(env, db, net, r, Done, Done);
  }

  lemma RowShape(env: Env, db: Db, net: Net, i: nat)
    requires Good(env, db, net) && i < |db.attempts|
    ensures ShapeOk(env.c, db.attempts[i])
  {
  }

  lemma LaneAtKept(env: Env, db: Db, net: Net, n: nat, ch: Choice)
    requires Good(env, db, net)
    ensures Kept(env, db, net, ReplaceStep(env, db, net, LaneAt(n), ch))
  {
    hide Inv, NetOk, SuccessOk, Grows;
    var blocking := LiveBelow(db.attempts, n, |db.attempts|);
    if blocking.Some? { RowShape(env, db, net, blocking.value); }
    ReadKept(env, db, net, ReplaceStep(env, db, net, LaneAt(n), ch).2);
  }

  lemma ConfirmKept(env: Env, db: Db, net: Net, i: nat, tx: SignedTx, ch: Choice)
    requires Good(env, db, net) && ActorOk(env, db, net, ConfirmingRecovery(i, tx))
    ensures Kept(env, db, net, ReplaceStep(env, db, net, ConfirmingRecovery(i, tx), ch))
  {
    hide Inv, NetOk, SuccessOk, Grows;
    if ch.fail || !Confirms(env, net, tx, ch.seen) || ch.seen.SeenOrphaned? {
      ReadKept(env, db, net, Done);
    } else {
      match ch.seen
      case SeenIncluded(ok, block) => ConfirmingKept(env, db, net, i, ok, block, false);
      case SeenReverted(block, _) => ConfirmingKept(env, db, net, i, false, block, false);
      case SeenFinal(block, _) => ConfirmingKept(env, db, net, i, true, block, true);
    }
  }

  lemma StuckKept(env: Env, db: Db, net: Net, a: Actor, ch: Choice)
    requires Good(env, db, net) && ActorOk(env, db, net, a) && (a.Stuck? || a.StuckOperation? || a.LaneRead?)
    ensures Kept(env, db, net, ReplaceStep(env, db, net, a, ch))
  {
    hide Good, Kept;
    ReadKept(env, db, net, ReplaceStep(env, db, net, a, ch).2);
  }

  lemma ReplaceKept(env: Env, db: Db, net: Net, a: Actor, ch: Choice)
    requires Good(env, db, net) && ActorOk(env, db, net, a)
    requires a.Stuck? || a.StuckOperation? || a.Replacing? || a.LaneRead? || a.LaneAt? || a.Cancelling? ||
             a.ConfirmingRecovery?
    ensures Kept(env, db, net, ReplaceStep(env, db, net, a, ch))
  {
    hide Good, Kept, ReplaceStep, ActorOk;
    if a.Replacing? { ReplacingKept(env, db, net, a.attempt, ch); }
    else if a.Cancelling? { CancellingKept(env, db, net, a.attempt, ch); }
    else if a.LaneAt? { LaneAtKept(env, db, net, a.nonce, ch); }
    else if a.ConfirmingRecovery? { ConfirmKept(env, db, net, a.attempt, a.tx, ch); }
    else { StuckKept(env, db, net, a, ch); }
  }

  lemma ActorKept(env: Env, db: Db, net: Net, a: Actor, ch: Choice)
    requires Good(env, db, net) && ActorOk(env, db, net, a)
    ensures Kept(env, db, net, ActorStep(env, db, net, a, ch))
  {
    hide Kept, Good, ActorOk, ExecuteStep, SignStep, SendStep, ObserveStep, ReplaceStep, RecoverStep;
    if a.Done? { ReadKept(env, db, net, Done); }
    else if a.Claimed? || a.Built? || a.Erring? { ExecuteKept(env, db, net, a, ch); }
    else if a.Requesting? || a.Answered? || a.Settling? || a.Failing? || a.Resuming? || a.Expiring? || a.Fetching? {
      SignKept(env, db, net, a, ch);
    }
    else if a.Persisted? || a.Allowed? || a.Sending? || a.Checked? || a.Sent? { SendKept(env, db, net, a, ch); }
    else if a.Observing? || a.Awaiting? || a.Including? || a.Orphaning? || a.Reconciling? || a.Judged? {
      ObserveKept(env, db, net, a, ch);
    }
    else if a.Stuck? || a.StuckOperation? || a.Replacing? || a.LaneRead? || a.LaneAt? || a.Cancelling? ||
            a.ConfirmingRecovery? {
      ReplaceKept(env, db, net, a, ch);
    }
    else { RecoverKept(env, db, net, a, ch); }
  }
}
