/** REVERTED is settled from a canonical block that need not be final. A run with a single worker and no crash in which
    the chain is then reorganised and the very transaction succeeds: the operation stays REVERTED, its effect happens. */
module RevertedRun {
  import opened CanonicalJson
  import opened MintProposal
  import opened SignedTransaction
  import opened Ledger
  import opened Tables
  import opened Lifecycle
  import opened LifecycleRuns
  import opened Delivery
  import M = OperationMachine
  import Token

  function Asset(): Address { [2] }
  function Owner(): Address { [3] }
  function Wallet(): Address { [4] }

  /** An eligibility write by a signer that does not hold the compliance role when the token is deployed. */
  function Sync(): Job {
    Job(map[Asset() := Contract(100, map[Token.Admin := {Owner()}])], SyncOp([5], [6], Asset(), Wallet(), 10), [M.Ready],
        Rows([], 1, 0, []), SetEligibility, Asset(), Token.SetEligibility(Wallet(), 10))
  }

  function First(): Block { Block(1, 0, [Ours(Bytes(Sync()))]) }
  function Second(): Block {
    Block(2, 0, [Foreign(Owner(), Asset(), Token.GrantRole(Token.Compliance, [1])), Ours(Bytes(Sync()))])
  }

  function Alone(): seq<Entry> { [Entry(0, Ours(Bytes(Sync())))] }
  function Granted(): seq<Entry> {
    [Entry(0, Foreign(Owner(), Asset(), Token.GrantRole(Token.Compliance, [1]))), Entry(0, Ours(Bytes(Sync())))]
  }

  lemma Starts() returns (labels: seq<Label>)
    ensures Run(World(Sync()), labels) == State(WaitingDb(Sync()), Unreached(), [])
  {
    var enqueue := EnqueueSync([5], [6], Asset(), Wallet(), 10);
    assert Run(World(Sync()), []) == Init();
    hide Run;
    Then(Sync(), [], Init(), enqueue, State(WaitingDb(Sync()), Unreached(), []));
    labels := [] + [enqueue];
  }

  lemma Chains()
    ensures Flat([]) == [] && Flat([First()]) == Alone() && Flat([Second()]) == Granted()
    ensures OursOf([]) == [] && OursOf(Alone()) == [Bytes(Sync())] && OursOf(Granted()) == [Bytes(Sync())]
  {
    assert [First()][..0] == [] && [Second()][..0] == [];
    assert Alone()[..0] == [] && Granted()[..1][..0] == [];
  }

  lemma FailsFirst()
    ensures !ReceiptOk(World(Sync()), Alone(), 0, Bytes(Sync()))
  {
    var c := World(Sync()).contracts[Asset()];
    assert Alone()[..0] == [];
    assert Messages([], Asset()) == [];
    assert !Token.HasRole(Token.Deployed(Asset(), c.cap, c.members), Token.Compliance, [1]);
  }

  /** The token once the owner has granted the role. */
  function Able(): Token.State {
    var c := World(Sync()).contracts[Asset()];
    Token.Deployed(Asset(), c.cap, c.members).(members := c.members[Token.Compliance := {[1]}])
  }

  lemma Grants()
    ensures Replay(Granted()[..1], Asset(), World(Sync()).contracts[Asset()]).0 == Able()
  {
    var c := World(Sync()).contracts[Asset()];
    var t := Token.Deployed(Asset(), c.cap, c.members);
    assert Granted()[..1][..0] == [];
    assert Messages([], Asset()) == [];
    ReplayLast(Granted()[..1], Asset(), c);
    assert Token.HasRole(t, Token.Admin, Owner());
    assert {} + {[1]} == {[1]};
  }

  lemma NotZero(a: Address)
    requires |a| == 1
    ensures a != Token.ZERO
  {
  }

  lemma SucceedsLater()
    ensures ReceiptOk(World(Sync()), Granted(), 1, Bytes(Sync()))
  {
    Grants();
    NotZero(Wallet());
    hide Replay;
    assert Token.HasRole(Able(), Token.Compliance, [1]);
    assert Token.Exec(Able(), [1], 0, Sync().call).Ok?;
  }

  lemma Mines(db: Db, actors: seq<Actor>, block: Block)
    requires block == First() || block == Second()
    ensures Step(World(Sync()), State(db, Reached(Sync(), [], 0), actors), Mine(block)) ==
            State(db, Reached(Sync(), [block], 0), actors)
  {
    Chains();
    assert [] + [block] == [block];
  }

  lemma SeesRevert() returns (labels: seq<Label>)
    ensures Run(World(Sync()), labels) ==
            State(SentDb(Sync()), Reached(Sync(), [First()], 0),
                  [Including(0, 0, Bytes(Sync()), false, BlockRef(0, 1), Some(Finds(false)))])
  {
    hide Run, ReceiptOk;
    var j, wait := Sync(), Awaiting(0, 0, Bytes(Sync()));
    var seen := Calm(j).(seen := SeenReverted(BlockRef(0, 1), 0));
    labels := Starts();
    labels := Delivers(j, labels);
    Mines(SentDb(j), [wait], First());
    Then(j, labels, State(SentDb(j), Reached(j, [], 0), [wait]), Mine(First()), State(SentDb(j), Reached(j, [First()], 0), [wait]));
    labels := labels + [Mine(First())];
    Chains();
    FailsFirst();
    Then(j, labels, State(SentDb(j), Reached(j, [First()], 0), [wait]), Act(0, seen),
         State(SentDb(j), Reached(j, [First()], 0), [Including(0, 0, Bytes(j), false, BlockRef(0, 1), Some(Finds(false)))]));
    labels := labels + [Act(0, seen)];
  }

  /** The operation is REVERTED for good while its own transaction has succeeded in the finalized chain. */
  lemma RevertedIsNotFinal() returns (labels: seq<Label>)
    ensures
      var s := Run(World(Sync()), labels);
      && |s.db.ops| == 1 && s.db.ops[0].state.Reverted?
      && |s.db.attempts| == 1 && s.db.attempts[0].core.op == Some(0) && s.db.attempts[0].bytes.Some?
      && s.net.final == 1 && |s.net.chain| == 1
      && InFinalPrefix(World(Sync()), s.net, s.db.attempts[0].bytes.value, 1)
  {
    hide Run, ReceiptOk, CanMine;
    var j := Sync();
    var done := SettledDb(j, false);
    labels := SeesRevert();
    labels := Concludes(j, labels, Reached(j, [First()], 0), false);
    Then(j, labels, State(done, Reached(j, [First()], 0), [Done]), Reorg(0), State(done, Reached(j, [], 0), [Done]));
    labels := labels + [Reorg(0)];
    Mines(done, [Done], Second());
    Then(j, labels, State(done, Reached(j, [], 0), [Done]), Mine(Second()), State(done, Reached(j, [Second()], 0), [Done]));
    labels := labels + [Mine(Second())];
    Then(j, labels, State(done, Reached(j, [Second()], 0), [Done]), Finalize(1), State(done, Reached(j, [Second()], 1), [Done]));
    labels := labels + [Finalize(1)];
    Chains();
    SucceedsLater();
    assert [Second()][..1] == [Second()];
  }
}
