/** An undisturbed delivery: one worker takes a READY operation to SUBMITTED and waits for its confirmation. Used
    to show that the states other results speak of are reached. */
module Delivery {
  import opened CanonicalJson
  import opened MintProposal
  import opened SignedTransaction
  import opened Ledger
  import opened Tables
  import opened Lifecycle
  import opened LifecycleRuns
  import M = OperationMachine
  import Token

  /** What is delivered: `past` is the log that led to READY, `rows` what the handler finds. */
  datatype Job = Job(
    contracts: map<Address, Contract>, kind: Kind, past: seq<M.OpState>, rows: Rows, purpose: Purpose, to: Address,
    call: Token.Call)

  function World(j: Job): Env { Env(Config(1, [1], 1, 10), 0, j.contracts) }

  /** Nothing goes wrong, and the signer signs at once. */
  function Calm(j: Job): Choice {
    Choice(false, j.rows, 100, [], 21_000, Some(2), Some(1), Some(Given(j)), false, true, Accepted, true, false, NotSeen, true)
  }

  function Unsigned(j: Job): Request { Request(1, [1], Some(j.to), 0, 0, Invoke(j.call), 21_000, 2, 1) }
  function Bytes(j: Job): SignedTx { Honest(Unsigned(j), 0) }
  function Given(j: Job): Answer { SignatureOf(Bytes(j), Keccak(Bytes(j))) }
  function Hook(): Hooks { Operation(0, true) }

  /** The handler builds this call from what it finds. */
  ghost predicate Deliverable(j: Job) {
    && j.past != [] && j.past[|j.past| - 1].Ready? && !j.purpose.DeployToken?
    && Prepare(j.kind, Calm(j)) == Some(PreparedWrite(j.purpose, Some(j.to), Invoke(j.call)))
  }

  function TheOp(j: Job, log: seq<M.OpState>): Op
    requires log != []
  {
    Op(j.kind, log[|log| - 1], log)
  }

  function Holding(j: Job, log: seq<M.OpState>, bytes: Option<SignedTx>, status: Status, block: Option<BlockRef>, sends: nat): Db
    requires log != []
  {
    Db([TheOp(j, log)], [Attempt(Core(Some(0), j.purpose, Unsigned(j), None, 0), bytes, status, block, None, sends)], Some(1),
       map[0 := SignatureGiven], [])
  }

  function Unreached(): Net { Net([], 0, {}, {}, map[]) }
  function Decided(j: Job): Net { Unreached().(decided := map[0 := Given(j)]) }
  function Reached(j: Job, chain: seq<Block>, final: nat): Net { Net(chain, final, {Bytes(j)}, {Bytes(j)}, map[0 := Given(j)]) }

  function WaitingDb(j: Job): Db
    requires j.past != []
  {
    Db([TheOp(j, j.past)], [], None, map[], [])
  }

  function ToPreparing(j: Job): seq<M.OpState> { j.past + [M.Preparing] }
  function ToSigning(j: Job): seq<M.OpState> { ToPreparing(j) + [M.Signing] }
  function ToSigned(j: Job): seq<M.OpState> { ToSigning(j) + [M.Signed] }
  function ToBroadcasting(j: Job): seq<M.OpState> { ToSigned(j) + [M.Broadcasting] }
  function ToSubmitted(j: Job): seq<M.OpState> { ToBroadcasting(j) + [M.Submitted] }
  function ToIncluded(j: Job): seq<M.OpState> { ToSubmitted(j) + [M.Included] }

  function PreparedDb(j: Job): Db {
    Db([TheOp(j, ToSigning(j))], [Fresh(Core(Some(0), j.purpose, Unsigned(j), None, 0))], Some(1), map[], [])
  }
  function AnsweredDb(j: Job): Db { PreparedDb(j).(requests := map[0 := SignatureGiven]) }
  function StoredDb(j: Job): Db { Holding(j, ToSigned(j), Some(Bytes(j)), Status.Signed, None, 0) }
  function SendingDb(j: Job): Db { Holding(j, ToBroadcasting(j), Some(Bytes(j)), Broadcasting, None, 1) }
  function SentDb(j: Job): Db { Holding(j, ToSubmitted(j), Some(Bytes(j)), Submitted, None, 1) }

  function Builder(j: Job): Actor { Built(0, j.purpose, Some(j.to), Invoke(j.call), 21_000, Estimate(Calm(j)), 0) }

  lemma Then(j: Job, labels: seq<Label>, s: State, l: Label, t: State)
    requires Run(World(j), labels) == s && Step(World(j), s, l) == t
    ensures Run(World(j), labels + [l]) == t
  {
    RunNext(World(j), labels, l);
  }

  lemma Claims(j: Job)
    requires Deliverable(j)
    ensures Move(WaitingDb(j), 0, M.Preparing) == Some(WaitingDb(j).(ops := [TheOp(j, ToPreparing(j))]))
    ensures PrepareTx(World(j).c, WaitingDb(j).(ops := [TheOp(j, ToPreparing(j))]), 0, j.purpose, Some(j.to), Invoke(j.call), 21_000,
                      Estimate(Calm(j)), 0) == Some(PreparedDb(j))
  {
    hide Prepare;
    assert WaitingDb(j).ops[0 := TheOp(j, ToPreparing(j))] == [TheOp(j, ToPreparing(j))];
    assert [TheOp(j, ToPreparing(j))][0 := TheOp(j, ToSigning(j))] == [TheOp(j, ToSigning(j))];
    assert [] + [Fresh(Core(Some(0), j.purpose, Unsigned(j), None, 0))] == PreparedDb(j).attempts;
  }

  lemma Builds(j: Job, labels: seq<Label>) returns (r: seq<Label>)
    requires Deliverable(j) && Run(World(j), labels) == State(WaitingDb(j), Unreached(), [])
    ensures Run(World(j), r) == State(PreparedDb(j), Unreached(), [Requesting(0, Hook())])
  {
    hide Run, Prepare, PrepareTx, Move;
    Claims(j);
    var claimed := WaitingDb(j).(ops := [TheOp(j, ToPreparing(j))]);
    Then(j, labels, State(WaitingDb(j), Unreached(), []), BeginExecute(0), State(claimed, Unreached(), [Claimed(0)]));
    r := labels + [BeginExecute(0)];
    assert OursOf(Flat([])) == [];
    Then(j, r, State(claimed, Unreached(), [Claimed(0)]), Act(0, Calm(j)), State(claimed, Unreached(), [Builder(j)]));
    r := r + [Act(0, Calm(j))];
    Then(j, r, State(claimed, Unreached(), [Builder(j)]), Act(0, Calm(j)), State(PreparedDb(j), Unreached(), [Requesting(0, Hook())]));
    r := r + [Act(0, Calm(j))];
  }

  lemma Persists(j: Job)
    requires !j.purpose.DeployToken?
    ensures PersistTx(AnsweredDb(j), 0, Bytes(j), Hook()) == Some(StoredDb(j))
  {
    assert AnsweredDb(j).attempts[0 := StoredDb(j).attempts[0]] == StoredDb(j).attempts;
    assert AnsweredDb(j).requests[0 := SignatureGiven] == AnsweredDb(j).requests;
    assert AnsweredDb(j).ops[0 := StoredDb(j).ops[0]] == StoredDb(j).ops;
    assert AttemptsOk(StoredDb(j).attempts);
  }

  lemma Signs(j: Job, labels: seq<Label>) returns (r: seq<Label>)
    requires !j.purpose.DeployToken?
    requires Run(World(j), labels) == State(PreparedDb(j), Unreached(), [Requesting(0, Hook())])
    ensures Run(World(j), r) == State(StoredDb(j), Decided(j), [Persisted(0, Hook(), Bytes(j))])
  {
    hide Run, PersistTx;
    Persists(j);
    HonestAccepted(Unsigned(j), 0);
    Then(j, labels, State(PreparedDb(j), Unreached(), [Requesting(0, Hook())]), Act(0, Calm(j)),
         State(PreparedDb(j), Decided(j), [Answered(0, Hook(), Some(Given(j)))]));
    r := labels + [Act(0, Calm(j))];
    Then(j, r, State(PreparedDb(j), Decided(j), [Answered(0, Hook(), Some(Given(j)))]), Act(0, Calm(j)),
         State(AnsweredDb(j), Decided(j), [Settling(0, Hook(), Given(j))]));
    r := r + [Act(0, Calm(j))];
    Then(j, r, State(AnsweredDb(j), Decided(j), [Settling(0, Hook(), Given(j))]), Act(0, Calm(j)),
         State(StoredDb(j), Decided(j), [Persisted(0, Hook(), Bytes(j))]));
    r := r + [Act(0, Calm(j))];
  }

  lemma Broadcasts(j: Job)
    requires !j.purpose.DeployToken?
    ensures BroadcastingTx(StoredDb(j), 0, Hook()) == Some(SendingDb(j))
    ensures OutcomeTx(SendingDb(j), 0, Hook(), Accepted) == Some(SentDb(j))
  {
    assert StoredDb(j).ops[0 := SendingDb(j).ops[0]] == SendingDb(j).ops;
    assert StoredDb(j).attempts[0 := SendingDb(j).attempts[0]] == SendingDb(j).attempts;
    assert SendingDb(j).ops[0 := SentDb(j).ops[0]] == SentDb(j).ops;
    assert SendingDb(j).attempts[0 := SentDb(j).attempts[0]] == SentDb(j).attempts;
  }

  lemma Passes(j: Job, labels: seq<Label>) returns (r: seq<Label>)
    requires !j.purpose.DeployToken?
    requires Run(World(j), labels) == State(StoredDb(j), Decided(j), [Persisted(0, Hook(), Bytes(j))])
    ensures Run(World(j), r) == State(SendingDb(j), Decided(j), [Checked(0, Hook(), Bytes(j))])
  {
    hide Run, BroadcastingTx;
    Broadcasts(j);
    Then(j, labels, State(StoredDb(j), Decided(j), [Persisted(0, Hook(), Bytes(j))]), Act(0, Calm(j)),
         State(StoredDb(j), Decided(j), [Allowed(0, Hook(), Bytes(j))]));
    r := labels + [Act(0, Calm(j))];
    Then(j, r, State(StoredDb(j), Decided(j), [Allowed(0, Hook(), Bytes(j))]), Act(0, Calm(j)),
         State(SendingDb(j), Decided(j), [Sending(0, Hook(), Bytes(j))]));
    r := r + [Act(0, Calm(j))];
    Then(j, r, State(SendingDb(j), Decided(j), [Sending(0, Hook(), Bytes(j))]), Act(0, Calm(j)),
         State(SendingDb(j), Decided(j), [Checked(0, Hook(), Bytes(j))]));
    r := r + [Act(0, Calm(j))];
  }

  lemma Submits(j: Job, labels: seq<Label>) returns (r: seq<Label>)
    requires !j.purpose.DeployToken?
    requires Run(World(j), labels) == State(SendingDb(j), Decided(j), [Checked(0, Hook(), Bytes(j))])
    ensures Run(World(j), r) == State(SentDb(j), Reached(j, [], 0), [Awaiting(0, 0, Bytes(j))])
  {
    hide Run, OutcomeTx;
    Broadcasts(j);
    Then(j, labels, State(SendingDb(j), Decided(j), [Checked(0, Hook(), Bytes(j))]), Act(0, Calm(j)),
         State(SendingDb(j), Reached(j, [], 0), [Sent(0, Hook(), Bytes(j), Accepted)]));
    r := labels + [Act(0, Calm(j))];
    Then(j, r, State(SendingDb(j), Reached(j, [], 0), [Sent(0, Hook(), Bytes(j), Accepted)]), Act(0, Calm(j)),
         State(SentDb(j), Reached(j, [], 0), [Observing(0, 0, Bytes(j))]));
    r := r + [Act(0, Calm(j))];
    Then(j, r, State(SentDb(j), Reached(j, [], 0), [Observing(0, 0, Bytes(j))]), Act(0, Calm(j)),
         State(SentDb(j), Reached(j, [], 0), [Awaiting(0, 0, Bytes(j))]));
    r := r + [Act(0, Calm(j))];
  }

  /** From READY to SUBMITTED, with the bytes at a node and the worker waiting. */
  lemma Delivers(j: Job, labels: seq<Label>) returns (r: seq<Label>)
    requires Deliverable(j) && Run(World(j), labels) == State(WaitingDb(j), Unreached(), [])
    ensures Run(World(j), r) == State(SentDb(j), Reached(j, [], 0), [Awaiting(0, 0, Bytes(j))])
  {
    hide Run, Prepare;
    r := Builds(j, labels);
    r := Signs(j, r);
    r := Passes(j, r);
    r := Submits(j, r);
  }

  // ---------- settling ----------

  /** The receipt's part of what the worker does next: INCLUDED, and then its verdict. */
  function IncludedDb(j: Job, ok: bool): Db {
    Holding(j, ToIncluded(j), Some(Bytes(j)), if ok then Status.Included else Status.Reverted, Some(BlockRef(0, 1)), 1)
  }

  function SettledDb(j: Job, ok: bool): Db {
    Holding(j, ToIncluded(j) + [if ok then M.Succeeded else M.Reverted], Some(Bytes(j)),
            if ok then Confirmed else Status.Reverted, Some(BlockRef(0, 1)), 1)
  }

  function Finds(ok: bool): Verdict { if ok then WasFinal(1) else WasReverted }

  lemma Settles(j: Job, ok: bool)
    requires !j.purpose.DeployToken?
    ensures IncludeTx(SentDb(j), 0, 0, ok, BlockRef(0, 1)) == Some(IncludedDb(j, ok))
    ensures SettleTx(IncludedDb(j, ok), 0, 0, if ok then M.Succeeded else M.Reverted) == Some(SettledDb(j, ok))
  {
    assert SentDb(j).ops[0 := IncludedDb(j, ok).ops[0]] == IncludedDb(j, ok).ops;
    assert SentDb(j).attempts[0 := IncludedDb(j, ok).attempts[0]] == IncludedDb(j, ok).attempts;
    assert IncludedDb(j, ok).ops[0 := SettledDb(j, ok).ops[0]] == SettledDb(j, ok).ops;
    assert IncludedDb(j, ok).attempts[0 := SettledDb(j, ok).attempts[0]] == SettledDb(j, ok).attempts;
  }

  /** What the handler compares when the worker has found a final receipt. */
  predicate Reconciles(j: Job) {
    j.kind.MintOp? ==> MintEventOk(World(j), Bytes(j), j.kind.amount, j.kind.reference, j.rows)
  }

  lemma Includes(j: Job, labels: seq<Label>, net: Net, ok: bool) returns (r: seq<Label>)
    requires !j.purpose.DeployToken?
    requires Run(World(j), labels) == State(SentDb(j), net, [Including(0, 0, Bytes(j), ok, BlockRef(0, 1), Some(Finds(ok)))])
    ensures Run(World(j), r) == State(IncludedDb(j, ok), net, [Reconciling(0, 0, Bytes(j), Finds(ok))])
  {
    hide Run, IncludeTx, SettleTx;
    Settles(j, ok);
    Then(j, labels, State(SentDb(j), net, [Including(0, 0, Bytes(j), ok, BlockRef(0, 1), Some(Finds(ok)))]), Act(0, Calm(j)),
         State(IncludedDb(j, ok), net, [Reconciling(0, 0, Bytes(j), Finds(ok))]));
    r := labels + [Act(0, Calm(j))];
  }

  lemma Concludes(j: Job, labels: seq<Label>, net: Net, ok: bool) returns (r: seq<Label>)
    requires !j.purpose.DeployToken? && (ok ==> Reconciles(j))
    requires Run(World(j), labels) == State(SentDb(j), net, [Including(0, 0, Bytes(j), ok, BlockRef(0, 1), Some(Finds(ok)))])
    ensures Run(World(j), r) == State(SettledDb(j, ok), net, [Done])
  {
    hide Run, IncludeTx, SettleTx, MintEventOk;
    Settles(j, ok);
    var judged := Judged(0, 0, if ok then M.Succeeded else M.Reverted);
    r := Includes(j, labels, net, ok);
    Then(j, r, State(IncludedDb(j, ok), net, [Reconciling(0, 0, Bytes(j), Finds(ok))]), Act(0, Calm(j)),
         State(IncludedDb(j, ok), net, [judged]));
    r := r + [Act(0, Calm(j))];
    Then(j, r, State(IncludedDb(j, ok), net, [judged]), Act(0, Calm(j)), State(SettledDb(j, ok), net, [Done]));
    r := r + [Act(0, Calm(j))];
  }
}
