/** Two claims that hold only with one driver per operation (level L2), refuted for unrestricted interleavings (L1) by
    one run: two recovery workers resume the same signature. One lets it lapse; the other, already past that check,
    stores the signed bytes, which a third sends after the first has failed the operation. */
module Counterexamples {
  import opened CanonicalJson
  import opened SignedTransaction
  import opened Ledger
  import opened Tables
  import opened Lifecycle
  import opened LifecycleRuns
  import opened SingleDriver
  import opened BlockedLane
  import Fee = TransactionIntent
  import M = OperationMachine

  function World(): Env { Env(Config(1, [1], 1, 10), 0, map[]) }

  /** Nothing goes wrong; the signer has not decided. */
  function Calm(): Choice {
    Choice(false, Rows([], 1, 0, []), 0, [], 21_000, Some(2), Some(1), None, false, true, Accepted, true, false, NotSeen, true)
  }

  function Unsigned(): Request { Request(1, [1], None, 0, 0, Create([]), 21_000, 2, 1) }
  function Bytes(): SignedTx { Honest(Unsigned(), 0) }
  function Given(): Answer { SignatureOf(Bytes(), Keccak(Bytes())) }
  function Sole(status: Status, bytes: Option<SignedTx>, sends: nat): Attempt {
    Attempt(Core(Some(0), DeployToken, Unsigned(), None, 0), bytes, status, None, None, sends)
  }
  function Holding(log: seq<M.OpState>, row: Attempt, request: RequestStatus): Db
    requires log != []
  {
    Db([Op(DeployOp([]), log[|log| - 1], log)], [row], Some(1), map[0 := request], [])
  }
  function Quiet(): Net { Net([], 0, {}, {}, map[]) }
  function Decided(): Net { Net([], 0, {}, {}, map[0 := Given()]) }
  function Hook(): Hooks { Operation(0, false) }

  function LogSigning(): seq<M.OpState> { [M.Ready, M.Preparing, M.Signing] }
  function LogSigned(): seq<M.OpState> { LogSigning() + [M.Signed] }
  function LogFailed(): seq<M.OpState> { LogSigned() + [M.Failed] }

  lemma Then(labels: seq<Label>, s: State, l: Label, t: State)
    requires Run(World(), labels) == s && Step(World(), s, l) == t
    ensures Run(World(), labels + [l]) == t
  {
    RunNext(World(), labels, l);
  }

  function Deploy(log: seq<M.OpState>): Op
    requires log != []
  {
    Op(DeployOp([]), log[|log| - 1], log)
  }

  /** A worker has picked the operation up and knows what to send. */
  lemma Builds() returns (labels: seq<Label>)
    ensures Run(World(), labels) ==
            State(Db([Deploy([M.Ready, M.Preparing])], [], None, map[], []), Quiet(),
                  [Built(0, DeployToken, None, Create([]), 21_000, Estimate(Calm()), 0)])
  {
    hide Run;
    var ready := Db([Deploy([M.Ready])], [], None, map[], []);
    var preparing := Db([Deploy([M.Ready, M.Preparing])], [], None, map[], []);
    labels := [];
    assert Run(World(), []) == Init() by { Starts(); }
    Then(labels, Init(), RequestDeploy([]), State(ready, Quiet(), []));
    labels := labels + [RequestDeploy([])];
    assert [M.Ready] + [M.Preparing] == [M.Ready, M.Preparing];
    assert ready.ops[0 := Deploy([M.Ready, M.Preparing])] == preparing.ops;
    Then(labels, State(ready, Quiet(), []), BeginExecute(0), State(preparing, Quiet(), [Claimed(0)]));
    labels := labels + [BeginExecute(0)];
    Then(labels, State(preparing, Quiet(), [Claimed(0)]), Act(0, Calm()),
         State(preparing, Quiet(), [Built(0, DeployToken, None, Create([]), 21_000, Estimate(Calm()), 0)]));
    labels := labels + [Act(0, Calm())];
  }

  lemma Starts()
    ensures Run(World(), []) == Init()
  {
  }

  lemma Prepares()
    ensures PrepareTx(World().c, Db([Deploy([M.Ready, M.Preparing])], [], None, map[], []), 0, DeployToken, None, Create([]), 21_000,
                      Estimate(Calm()), 0) == Some(Db([Deploy(LogSigning())], [Sole(Prepared, None, 0)], Some(1), map[], []))
  {
    assert [M.Ready, M.Preparing] + [M.Signing] == LogSigning();
    assert [Deploy([M.Ready, M.Preparing])][0 := Deploy(LogSigning())] == [Deploy(LogSigning())];
    assert [] + [Fresh(Core(Some(0), DeployToken, Unsigned(), None, 0))] == [Sole(Prepared, None, 0)];
  }

  /** Its signature is pending when the worker ends. */
  lemma Pends() returns (labels: seq<Label>)
    ensures Run(World(), labels) == State(Holding(LogSigning(), Sole(Prepared, None, 0), Pending), Quiet(), [Done])
  {
    hide Run, PrepareTx;
    var preparing := Db([Deploy([M.Ready, M.Preparing])], [], None, map[], []);
    var db := Db([Deploy(LogSigning())], [Sole(Prepared, None, 0)], Some(1), map[], []);
    var built: Actor := Built(0, DeployToken, None, Create([]), 21_000, Estimate(Calm()), 0);
    var h := Operation(0, true);
    labels := Builds();
    Prepares();
    Then(labels, State(preparing, Quiet(), [built]), Act(0, Calm()), State(db, Quiet(), [Requesting(0, h)]));
    labels := labels + [Act(0, Calm())];
    Then(labels, State(db, Quiet(), [Requesting(0, h)]), Act(0, Calm()), State(db, Quiet(), [Answered(0, h, None)]));
    labels := labels + [Act(0, Calm())];
    Then(labels, State(db, Quiet(), [Answered(0, h, None)]), Act(0, Calm()),
         State(Holding(LogSigning(), Sole(Prepared, None, 0), Pending), Quiet(), [Done]));
    labels := labels + [Act(0, Calm())];
  }

  /** A step of the last worker that only changes itself. */
  lemma LastActs(labels: seq<Label>, db: Db, net: Net, before: seq<Actor>, a: Actor, b: Actor)
    requires Run(World(), labels) == State(db, net, before + [a]) && ActorStep(World(), db, net, a, Calm()) == (db, net, b)
    ensures Run(World(), labels + [Act(|before|, Calm())]) == State(db, net, before + [b])
  {
    hide Run, ActorStep;
    assert (before + [a])[|before| := b] == before + [b];
    Then(labels, State(db, net, before + [a]), Act(|before|, Calm()), State(db, net, before + [b]));
  }

  /** One more recovery worker is about to ask whether the pending signature has lapsed. */
  lemma Resumes(labels: seq<Label>, before: seq<Actor>) returns (r: seq<Label>)
    requires Run(World(), labels) == State(Holding(LogSigning(), Sole(Prepared, None, 0), Pending), Quiet(), before)
    ensures Run(World(), r) ==
            State(Holding(LogSigning(), Sole(Prepared, None, 0), Pending), Quiet(), before + [Expiring(0, Hook())])
  {
    hide Run;
    var db, n, act := Holding(LogSigning(), Sole(Prepared, None, 0), Pending), Quiet(), Act(|before|, Calm());
    Then(labels, State(db, n, before), BeginRecovery(0, M.Signing), State(db, n, before + [RecoverSigning(0)]));
    r := labels + [BeginRecovery(0, M.Signing)];
    LastActs(r, db, n, before, RecoverSigning(0), RecoverRequest(0, 0));
    r := r + [act];
    LastActs(r, db, n, before, RecoverRequest(0, 0), Resuming(0, Hook()));
    r := r + [act];
    LastActs(r, db, n, before, Resuming(0, Hook()), Expiring(0, Hook()));
    r := r + [act];
  }

  /** One of two workers has found the request undecided and fetches; the other lets it lapse. */
  lemma Lapses() returns (labels: seq<Label>)
    ensures Run(World(), labels) ==
            State(Holding(LogSigning(), Sole(Prepared, None, 0), Expired), Quiet(),
                  [Done, Failing(0, Hook(), false), Fetching(0, Hook())])
  {
    hide Run;
    var db, n := Holding(LogSigning(), Sole(Prepared, None, 0), Pending), Quiet();
    labels := Pends();
    labels := Resumes(labels, [Done]);
    labels := Resumes(labels, [Done, Expiring(0, Hook())]);
    var a: Actor := Expiring(0, Hook());
    assert [Done] + [a] == [Done, a] && [Done, a] + [a] == [Done, a, a];
    Then(labels, State(db, n, [Done, a, a]), Act(2, Calm()), State(db, n, [Done, a, Fetching(0, Hook())]));
    labels := labels + [Act(2, Calm())];
    Then(labels, State(db, n, [Done, a, Fetching(0, Hook())]), Act(1, Calm().(lapsed := true)),
         State(Holding(LogSigning(), Sole(Prepared, None, 0), Expired), n, [Done, Failing(0, Hook(), false), Fetching(0, Hook())]));
    labels := labels + [Act(1, Calm().(lapsed := true))];
  }

  /** The first will fail the operation; the second stores the signature it fetched. */
  lemma Races() returns (labels: seq<Label>)
    ensures Run(World(), labels) ==
            State(Holding(LogSigned(), Sole(Status.Signed, Some(Bytes()), 0), SignatureGiven), Decided(),
                  [Done, Failing(0, Hook(), false), Persisted(0, Hook(), Bytes())])
  {
    hide Run;
    var lapsed := Holding(LogSigning(), Sole(Prepared, None, 0), Expired);
    var f, sign := Failing(0, Hook(), false), Calm().(answer := Some(Given()));
    labels := Lapses();
    Then(labels, State(lapsed, Quiet(), [Done, f, Fetching(0, Hook())]), Act(2, sign),
         State(lapsed, Decided(), [Done, f, Settling(0, Hook(), Given())]));
    labels := labels + [Act(2, sign)];
    HonestAccepted(Unsigned(), 0);
    Then(labels, State(lapsed, Decided(), [Done, f, Settling(0, Hook(), Given())]), Act(2, Calm()),
         State(Holding(LogSigned(), Sole(Status.Signed, Some(Bytes()), 0), SignatureGiven), Decided(),
               [Done, f, Persisted(0, Hook(), Bytes())]));
    labels := labels + [Act(2, Calm())];
  }

  /** Recovery reads SIGNED and is about to send again when the first worker fails the operation. */
  lemma FailsBetween() returns (labels: seq<Label>)
    ensures Run(World(), labels) ==
            State(Holding(LogFailed(), Sole(Status.Failed, Some(Bytes()), 0), SignatureGiven), Decided(),
                  [Done, Done, Persisted(0, Hook(), Bytes()), Rebroadcasting(0, 0, Bytes())])
  {
    hide Run;
    var db, n := Holding(LogSigned(), Sole(Status.Signed, Some(Bytes()), 0), SignatureGiven), Decided();
    var f, p: Actor := Failing(0, Hook(), false), Persisted(0, Hook(), Bytes());
    labels := Races();
    Then(labels, State(db, n, [Done, f, p]), BeginRecovery(0, M.Signed), State(db, n, [Done, f, p, ResolveInFlight(0)]));
    labels := labels + [BeginRecovery(0, M.Signed)];
    Then(labels, State(db, n, [Done, f, p, ResolveInFlight(0)]), Act(3, Calm()), State(db, n, [Done, f, p, LookingUp(0, 0, Bytes())]));
    labels := labels + [Act(3, Calm())];
    Then(labels, State(db, n, [Done, f, p, LookingUp(0, 0, Bytes())]), Act(3, Calm()),
         State(db, n, [Done, f, p, Rebroadcasting(0, 0, Bytes())]));
    labels := labels + [Act(3, Calm())];
    Then(labels, State(db, n, [Done, f, p, Rebroadcasting(0, 0, Bytes())]), Act(1, Calm()),
         State(Holding(LogFailed(), Sole(Status.Failed, Some(Bytes()), 0), SignatureGiven), n,
               [Done, Done, p, Rebroadcasting(0, 0, Bytes())]));
    labels := labels + [Act(1, Calm())];
  }

  function Resent(): Db { Holding(LogFailed(), Sole(Status.Broadcasting, Some(Bytes()), 1), SignatureGiven) }

  /** It sends all the same: the attempt, not the operation, is asked whether it may. */
  lemma ResumesSending() returns (labels: seq<Label>)
    ensures Run(World(), labels) ==
            State(Resent(), Decided(), [Done, Done, Persisted(0, Hook(), Bytes()), Checked(0, Recovery(0), Bytes())])
  {
    hide Run;
    var db, n := Holding(LogFailed(), Sole(Status.Failed, Some(Bytes()), 0), SignatureGiven), Decided();
    var p: Actor := Persisted(0, Hook(), Bytes());
    labels := FailsBetween();
    Then(labels, State(db, n, [Done, Done, p, Rebroadcasting(0, 0, Bytes())]), Act(3, Calm()),
         State(Resent(), n, [Done, Done, p, Sending(0, Recovery(0), Bytes())]));
    labels := labels + [Act(3, Calm())];
    Then(labels, State(Resent(), n, [Done, Done, p, Sending(0, Recovery(0), Bytes())]), Act(3, Calm()),
         State(Resent(), n, [Done, Done, p, Checked(0, Recovery(0), Bytes())]));
    labels := labels + [Act(3, Calm())];
  }

  /** At L1 a FAILED operation can have its bytes out, and its log need not have BROADCASTING when they go out. */
  lemma StrandedAtL1() returns (labels: seq<Label>)
    ensures
      var s := Run(World(), labels);
      && |s.db.ops| == 1 && s.db.ops[0].state.Failed? && M.Broadcasting !in s.db.ops[0].log
      && Out(s.db, s.net, 0) && !NoneStranded(s)
  {
    hide Run;
    var p: Actor := Persisted(0, Hook(), Bytes());
    var out := Decided().(known := {Bytes()}, exposed := {Bytes()});
    labels := ResumesSending();
    Then(labels, State(Resent(), Decided(), [Done, Done, p, Checked(0, Recovery(0), Bytes())]), Act(3, Calm()),
         State(Resent(), out, [Done, Done, p, Sent(0, Recovery(0), Bytes(), Accepted)]));
    labels := labels + [Act(3, Calm())];
    assert Resent().attempts[0].bytes.value in out.exposed;
  }

  // ---------- a blocked lane ----------

  /** A signature request lapses, and nothing can take the nonce of its attempt any more. */
  lemma BlocksLane(fees: Fee.Fees) returns (labels: seq<Label>)
    ensures
      var s := Run(World(), labels);
      && Blocked(s.db, 0)
      && ReplaceTx(s.db, 0, Cancellation(World().c, 0, s.db.attempts[0].core, fees)).None?
  {
    hide Run;
    var db := Holding(LogSigning(), Sole(Prepared, None, 0), Pending);
    var lapsed := Holding(LogSigning(), Sole(Prepared, None, 0), Expired);
    var failed := Holding(LogSigning() + [M.Failed], Sole(Status.Failed, None, 0), Expired);
    var f := Failing(0, Hook(), false);
    labels := Pends();
    labels := Resumes(labels, [Done]);
    assert [Done] + [Expiring(0, Hook())] == [Done, Expiring(0, Hook())];
    Then(labels, State(db, Quiet(), [Done, Expiring(0, Hook())]), Act(1, Calm().(lapsed := true)), State(lapsed, Quiet(), [Done, f]));
    labels := labels + [Act(1, Calm().(lapsed := true))];
    Then(labels, State(lapsed, Quiet(), [Done, f]), Act(1, Calm()), State(failed, Quiet(), [Done, Done]));
    labels := labels + [Act(1, Calm())];
    CancellationExactly(World(), labels, 0, fees);
  }
}
