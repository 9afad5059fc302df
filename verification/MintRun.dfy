/** A mint from its request to SUCCEEDED: the run that shows the results about success to speak of something. */
module MintRun {
  import opened CanonicalJson
  import opened MintProposal
  import opened SignedTransaction
  import opened Ledger
  import opened Tables
  import opened Lifecycle
  import opened LifecycleRuns
  import opened LifecycleInvariants
  import opened Delivery
  import L = LifecycleTheorems
  import M = OperationMachine
  import Token

  function Asset(): Address { [2] }
  function Officer(): Address { [3] }
  function Wallet(): Address { [4] }

  function Proposal(): Snapshot { Snapshot([5], 1, Asset(), [6], Wallet(), Decimal(7), [8], 0, 2) }

  /** Seven units, by a signer that holds the minter role, to a wallet the officer makes eligible in the same block. */
  function Issue(): Job {
    Job(map[Asset() := Contract(100, map[Token.Minter := {[1]}, Token.Compliance := {Officer()}])],
        Mint(Proposal(), 7), [M.PendingApproval, M.Ready], Rows(Asset(), 1, 0, Wallet()), MintTokens, Asset(),
        Token.MintWithReference(Wallet(), 7, [8], 100))
  }

  function Only(): Block {
    Block(1, 0, [Foreign(Officer(), Asset(), Token.SetEligibility(Wallet(), 10)), Ours(Bytes(Issue()))])
  }

  function Entries(): seq<Entry> {
    [Entry(0, Foreign(Officer(), Asset(), Token.SetEligibility(Wallet(), 10))), Entry(0, Ours(Bytes(Issue())))]
  }

  lemma Fits()
    ensures Deliverable(Issue()) && Reconciles(Issue())
  {
    var rows := Issue().rows;
    assert Lower(Asset()) == Asset() && Lower(Wallet()) == Wallet() && Lower([8]) == [8];
    assert Rebuilt(Issue().kind.snapshot, 7, [8], rows) == Issue().kind.snapshot;
    ProposalHashInjective(Rebuilt(Issue().kind.snapshot, 7, [8], rows), Issue().kind.snapshot);
  }

  lemma RunsEmpty()
    ensures Run(World(Issue()), []) == Init()
  {
  }

  lemma Starts() returns (labels: seq<Label>)
    ensures Run(World(Issue()), labels) == State(WaitingDb(Issue()), Unreached(), [])
  {
    var j := Issue();
    var open := Db([Op(j.kind, M.PendingApproval, [M.PendingApproval])], [], None, map[], []);
    assert Run(World(j), []) == Init() by { RunsEmpty(); }
    hide Run;
    Then(j, [], Init(), RequestMint(Proposal(), 7), State(open, Unreached(), []));
    labels := [] + [RequestMint(Proposal(), 7)];
    assert [M.PendingApproval] + [M.Ready] == j.past;
    assert open.ops[0 := TheOp(j, j.past)] == WaitingDb(j).ops;
    Then(j, labels, State(open, Unreached(), []), Approve(0), State(WaitingDb(j), Unreached(), []));
    labels := labels + [Approve(0)];
  }

  lemma Chains()
    ensures Flat([]) == [] && Flat([Only()]) == Entries()
    ensures OursOf([]) == [] && OursOf(Entries()) == [Bytes(Issue())]
  {
    assert [Only()][..0] == [];
    assert Entries()[..1][..0] == [];
  }

  /** The token once the officer has made the wallet eligible. */
  function Ready(): Token.State {
    var c := World(Issue()).contracts[Asset()];
    Token.Deployed(Asset(), c.cap, c.members).(eligibleUntil := map[Wallet() := 10])
  }

  lemma NotZero(a: Address)
    requires |a| == 1
    ensures a != Token.ZERO && a != Token.NoReference()
  {
    assert |Ascii("0x") + Token.Zeros(64)| >= 2;
  }

  lemma Allows()
    ensures Replay(Entries()[..1], Asset(), World(Issue()).contracts[Asset()]).0 == Ready()
  {
    var c := World(Issue()).contracts[Asset()];
    assert Entries()[..1][..0] == [];
    assert Messages([], Asset()) == [];
    ReplayLast(Entries()[..1], Asset(), c);
    NotZero(Wallet());
    assert Token.HasRole(Token.Deployed(Asset(), c.cap, c.members), Token.Compliance, Officer());
  }

  lemma Mints()
    ensures ReceiptOk(World(Issue()), Entries(), 1, Bytes(Issue()))
  {
    hide Replay, Token.NoReference, Token.Mint;
    Allows();
    NotZero(Wallet());
    NotZero([8]);
    assert Token.HasRole(Ready(), Token.Minter, [1]);
    Token.MintExactly(Ready(), [1], 0, Issue().call);
  }

  function Wait(): Actor { Awaiting(0, 0, Bytes(Issue())) }
  function Found(): Actor { Including(0, 0, Bytes(Issue()), true, BlockRef(0, 1), Some(Finds(true))) }

  lemma IsMined() returns (labels: seq<Label>)
    ensures Run(World(Issue()), labels) == State(SentDb(Issue()), Reached(Issue(), [Only()], 1), [Wait()])
  {
    hide Run, Deliverable, Reconciles;
    var j := Issue();
    Fits();
    labels := Starts();
    labels := Delivers(j, labels);
    Chains();
    assert [] + [Only()] == [Only()];
    Then(j, labels, State(SentDb(j), Reached(j, [], 0), [Wait()]), Mine(Only()), State(SentDb(j), Reached(j, [Only()], 0), [Wait()]));
    labels := labels + [Mine(Only())];
    Then(j, labels, State(SentDb(j), Reached(j, [Only()], 0), [Wait()]), Finalize(1),
         State(SentDb(j), Reached(j, [Only()], 1), [Wait()]));
    labels := labels + [Finalize(1)];
  }

  lemma Confirmed()
    ensures Confirms(World(Issue()), Reached(Issue(), [Only()], 1), Bytes(Issue()), SeenFinal(BlockRef(0, 1), 1))
  {
    hide ReceiptOk;
    Chains();
    Mints();
    assert [Only()][..1] == [Only()];
  }

  lemma SeesFinal() returns (labels: seq<Label>)
    ensures Run(World(Issue()), labels) == State(SentDb(Issue()), Reached(Issue(), [Only()], 1), [Found()])
  {
    hide Run, Confirms;
    var j := Issue();
    var seen := Calm(j).(seen := SeenFinal(BlockRef(0, 1), 1));
    Confirmed();
    labels := IsMined();
    Then(j, labels, State(SentDb(j), Reached(j, [Only()], 1), [Wait()]), Act(0, seen),
         State(SentDb(j), Reached(j, [Only()], 1), [Found()]));
    labels := labels + [Act(0, seen)];
  }

  /** A mint is requested, approved, sent, mined, finalized and SUCCEEDED, for the amount whose text was approved. */
  lemma ReachesSuccess() returns (labels: seq<Label>)
    ensures
      var s := Run(World(Issue()), labels);
      && |s.db.ops| == 1 && s.db.ops[0].state.Succeeded? && s.db.ops[0].kind == Mint(Proposal(), 7)
      && s.net.final == 1 == |s.net.chain| && MintedFinally(World(Issue()), s.net, Proposal(), 7)
  {
    hide Run;
    Fits();
    labels := SeesFinal();
    labels := Concludes(Issue(), labels, Reached(Issue(), [Only()], 1), true);
    assert labels[..|labels|] == labels;
    L.SuccessIsOneMint(World(Issue()), labels, |labels|, 0);
  }
}
