/** The L1 invariant over whole runs: any interleaving of any number of workers, sweeps, crashes, requests,
    duplicate deliveries, blocks and reorganisations. */
module LifecycleRuns {
  import opened CanonicalJson
  import opened SignedTransaction
  import opened MintProposal
  import opened Ledger
  import opened Tables
  import opened TableInvariants
  import opened Lifecycle
  import opened LifecycleInvariants
  import opened LifecycleSteps
  import Fee = TransactionIntent
  import M = OperationMachine
  import Token

  lemma OthersStay(env: Env, s: State, t: State)
    requires L1(env, s) && Good(env, t.db, t.net) && Grows(s.db, t.db) && NetGrows(s.net, t.net)
    requires |t.actors| >= |s.actors|
    requires forall k: nat | k < |s.actors| && t.actors[k] != s.actors[k] :: ActorOk(env, t.db, t.net, t.actors[k])
    requires forall k: nat | |s.actors| <= k < |t.actors| :: ActorOk(env, t.db, t.net, t.actors[k])
    ensures L1(env, t)
  {
    hide Inv, NetOk, SuccessOk, Grows, NetGrows, ActorOk;
    forall k: nat | k < |t.actors| ensures ActorOk(env, t.db, t.net, t.actors[k]) {
      if k < |s.actors| && t.actors[k] == s.actors[k] {
        ActorStays(env, s.db, s.net, t.db, t.net, s.actors[k]);
      }
    }
  }

  /** A request that commits `r`, or nothing. */
  lemma ApplyKeeps(env: Env, s: State, r: Option<Db>)
    requires L1(env, s)
    requires r.Some? ==> Inv(env.c, env.base, r.value) && Grows(s.db, r.value) && Quiet(s.db, r.value)
    ensures L1(env, Apply(s, r)) && Grows(s.db, Apply(s, r).db) && Good(env, Apply(s, r).db, s.net)
  {
    hide Inv, NetOk, SuccessOk, Grows, ActorOk;
    GrowsSame(s.db);
    GoodNet(env, s.db, s.net);
    if r.Some? {
      QuietStays(env, s.db, r.value, s.net);
      OthersStay(env, s, Apply(s, r));
    }
  }

  lemma SpawnKeeps(env: Env, s: State, a: Actor)
    requires L1(env, s) && ActorOk(env, s.db, s.net, a)
    ensures L1(env, Spawn(s, a))
  {
    hide Inv, NetOk, SuccessOk, Grows, ActorOk;
    GrowsSame(s.db);
    GoodNet(env, s.db, s.net);
    OthersStay(env, s, Spawn(s, a));
  }

  lemma RequestKeeps(env: Env, s: State, kind: Kind, state: M.OpState)
    requires L1(env, s) && KindOk(kind) && !kind.SyncOp? && (state.PendingApproval? || state.Ready?)
    ensures L1(env, Apply(s, InsertOp(s.db, kind, state))) && Grows(s.db, Apply(s, InsertOp(s.db, kind, state)).db)
  {
    var r := InsertOp(s.db, kind, state);
    if r.Some? {
      InsertOpKeeps(env.c, env.base, s.db, kind, state);
      InsertQuiet(s.db, kind, state);
    }
    ApplyKeeps(env, s, r);
  }

  lemma InsertQuiet(db: Db, kind: Kind, state: M.OpState)
    requires (state.PendingApproval? || state.Ready?) && InsertOp(db, kind, state).Some?
    ensures Quiet(db, InsertOp(db, kind, state).value)
  {
  }

  lemma EnqueueKeeps(env: Env, s: State, kind: Kind)
    requires L1(env, s) && kind.SyncOp?
    ensures L1(env, Apply(s, EnqueueSyncTx(s.db, kind))) && Grows(s.db, Apply(s, EnqueueSyncTx(s.db, kind)).db)
  {
    var r := EnqueueSyncTx(s.db, kind);
    if r.Some? {
      EnqueueSyncKeeps(env.c, env.base, s.db, kind);
      EnqueueQuiet(s.db, kind);
    }
    ApplyKeeps(env, s, r);
  }

  lemma EnqueueQuiet(db: Db, kind: Kind)
    requires kind.SyncOp? && EnqueueSyncTx(db, kind).Some?
    ensures Quiet(db, EnqueueSyncTx(db, kind).value)
  {
  }

  lemma MoveIfQuiet(db: Db, o: nat, from: set<M.OpState>, to: M.OpState)
    requires !to.Succeeded? && MoveIf(db, o, from, to).Some?
    ensures Quiet(db, MoveIf(db, o, from, to).value)
  {
  }

  lemma MoveIfApplies(env: Env, s: State, o: nat, from: set<M.OpState>, to: M.OpState)
    requires L1(env, s) && !to.Succeeded?
    ensures L1(env, Apply(s, MoveIf(s.db, o, from, to))) && Grows(s.db, Apply(s, MoveIf(s.db, o, from, to)).db)
  {
    hide Inv, NetOk, SuccessOk, Grows, MoveIf, Quiet;
    var r := MoveIf(s.db, o, from, to);
    if r.Some? {
      MoveIfKeeps(env.c, env.base, s.db, o, from, to);
      MoveIfQuiet(s.db, o, from, to);
    }
    ApplyKeeps(env, s, r);
  }

  // ---------- the chain moves ----------

  lemma ChainKeeps(env: Env, s: State, net: Net)
    requires L1(env, s) && NetGrows(s.net, net) && ChainOk(env.base, net)
    requires net.known == s.net.known && net.exposed == s.net.exposed && net.decided == s.net.decided
    ensures L1(env, s.(net := net))
  {
    GrowsSame(s.db);
    SuccessStays(env, s.db, s.db, s.net, net);
    OthersStay(env, s, s.(net := net));
  }

  lemma MineKeeps(env: Env, s: State, block: Block)
    requires L1(env, s) && CanMine(env, s.net, block)
    ensures var t := s.(net := s.net.(chain := s.net.chain + [block])); L1(env, t) && NetGrows(s.net, t.net)
  {
    var longer := s.net.chain + [block];
    assert longer[..|s.net.chain|] == s.net.chain;
    FlatPrefix(longer, |s.net.chain|);
    OursPrefix(Flat(longer), |Flat(s.net.chain)|);
    assert Flat(longer)[..|Flat(s.net.chain)|] == Flat(s.net.chain);
    ChainKeeps(env, s, s.net.(chain := longer));
  }

  lemma ReorgStepKeeps(env: Env, s: State, keep: nat)
    requires L1(env, s) && s.net.final <= keep <= |s.net.chain|
    ensures var t := s.(net := s.net.(chain := s.net.chain[..keep])); L1(env, t) && NetGrows(s.net, t.net)
  {
    FlatPrefix(s.net.chain, keep);
    OursPrefix(Flat(s.net.chain), |Flat(s.net.chain[..keep])|);
    assert Flat(s.net.chain)[..|Flat(s.net.chain[..keep])|] == Flat(s.net.chain[..keep]);
    assert s.net.chain[..keep][..s.net.final] == s.net.chain[..s.net.final];
    ChainKeeps(env, s, s.net.(chain := s.net.chain[..keep]));
  }

  lemma FinalizeKeeps(env: Env, s: State, count: nat)
    requires L1(env, s) && s.net.final <= count <= |s.net.chain|
    ensures var t := s.(net := s.net.(final := count)); L1(env, t) && NetGrows(s.net, t.net)
  {
    ChainKeeps(env, s, s.net.(final := count));
  }

  // ---------- every step, every run ----------

  lemma ExecuteBegins(env: Env, s: State, o: nat)
    requires L1(env, s) && o < |s.db.ops| && s.db.ops[o].state.Ready?
    ensures var t := Step(env, s, BeginExecute(o)); L1(env, t) && Grows(s.db, t.db) && t.net == s.net
  {
    hide Inv, NetOk, SuccessOk, Grows, Quiet;
    var r := Move(s.db, o, M.Preparing);
    TransitionKeeps(env.c, env.base, s.db, o, M.Ready, M.Preparing);
    MoveIfQuiet(s.db, o, {M.Ready}, M.Preparing);
    ApplyKeeps(env, s, r);
    SpawnKeeps(env, Apply(s, r), Claimed(o));
  }

  /** A transaction that was sent belongs to an operation that is out of failOperation's reach. */
  lemma StuckTied(env: Env, db: Db, i: nat)
    requires Inv(env.c, env.base, db) && i < |db.attempts| && IsStuck(env, db.attempts[i])
    ensures StuckOk(db, i)
  {
    hide AttemptsOk, RowsOk, LaneOk, IntentsOk, OpsOk, SyncsOk, SyncOrder;
    assert TieOk(db.ops, db.attempts[i]);
  }

  lemma StuckBegins(env: Env, s: State, i: nat)
    requires L1(env, s) && i < |s.db.attempts| && IsStuck(env, s.db.attempts[i])
    ensures L1(env, Spawn(s, Stuck(i)))
  {
    hide Inv, NetOk, SuccessOk, IsStuck, Spawn;
    StuckTied(env, s.db, i);
    SpawnKeeps(env, s, Stuck(i));
  }

  lemma ActKeeps(env: Env, s: State, k: nat, ch: Choice)
    requires L1(env, s) && k < |s.actors|
    ensures var t := Step(env, s, Act(k, ch)); L1(env, t) && Grows(s.db, t.db) && NetGrows(s.net, t.net)
  {
    hide Inv, NetOk, SuccessOk, Grows, ActorOk, NetGrows, ActorStep;
    ActorKept(env, s.db, s.net, s.actors[k], ch);
    OthersStay(env, s, Step(env, s, Act(k, ch)));
  }

  /** Every step keeps the invariant and takes nothing back. */
  lemma StepKeeps(env: Env, s: State, l: Label)
    requires L1(env, s)
    ensures L1(env, Step(env, s, l)) && Grows(s.db, Step(env, s, l).db) && NetGrows(s.net, Step(env, s, l).net)
  {
    hide Inv, NetOk, SuccessOk, Grows, ActorOk, NetGrows, ActorStep, L1, CanMine;
    Reflexive(env, s);
    match l
    case BeginExecute(o) => if o < |s.db.ops| && s.db.ops[o].state.Ready? { ExecuteBegins(env, s, o); }
    case BeginRecovery(o, read) => RecoveryBegins(env, s, o, read);
    case BeginReplacement(i) =>
      if i < |s.db.attempts| && IsStuck(env, s.db.attempts[i]) { StuckBegins(env, s, i); }
    case BeginLane => if s.db.lane.Some? { LaneBegins(env, s); }
    case Act(k, ch) => if k < |s.actors| { ActKeeps(env, s, k, ch); }
    case Crash(k) => if k < |s.actors| { CrashKeeps(env, s, k); }
    case RequestMint(snapshot, amount) => RequestKeeps(env, s, Mint(snapshot, amount), M.PendingApproval);
    case RequestDeploy(asset) => RequestKeeps(env, s, DeployOp(asset), M.Ready);
    case Approve(o) => MoveIfApplies(env, s, o, {M.PendingApproval}, M.Ready);
    case Reject(o) => MoveIfApplies(env, s, o, {M.PendingApproval}, M.Cancelled);
    case EnqueueSync(asset, wallet, contract, account, until) =>
      EnqueueKeeps(env, s, SyncOp(asset, wallet, contract, account, until));
    case Mine(block) => if CanMine(env, s.net, block) { MineKeeps(env, s, block); }
    case Reorg(keep) => if s.net.final <= keep <= |s.net.chain| { ReorgStepKeeps(env, s, keep); }
    case Finalize(count) => if s.net.final <= count <= |s.net.chain| { FinalizeKeeps(env, s, count); }
  }

  lemma Reflexive(env: Env, s: State)
    requires L1(env, s)
    ensures Grows(s.db, s.db) && NetGrows(s.net, s.net)
  {
    GrowsSame(s.db);
    GoodNet(env, s.db, s.net);
  }

  lemma RecoveryBegins(env: Env, s: State, o: nat, read: M.OpState)
    requires L1(env, s)
    ensures L1(env, Spawn(s, RecoveryEntry(o, read)))
  {
    SpawnKeeps(env, s, RecoveryEntry(o, read));
  }

  lemma LaneBegins(env: Env, s: State)
    requires L1(env, s) && s.db.lane.Some?
    ensures L1(env, Spawn(s, LaneRead(s.db.lane.value)))
  {
    SpawnKeeps(env, s, LaneRead(s.db.lane.value));
  }

  lemma CrashKeeps(env: Env, s: State, k: nat)
    requires L1(env, s) && k < |s.actors|
    ensures L1(env, s.(actors := s.actors[k := Done]))
  {
  }

  /** Every reachable state satisfies the invariant. */
  lemma {:induction false} RunKeeps(env: Env, labels: seq<Label>)
    ensures L1(env, Run(env, labels))
  {
    if labels == [] {
      assert Flat([]) == [];
    } else {
      hide L1, Step;
      RunKeeps(env, labels[..|labels| - 1]);
      StepKeeps(env, Run(env, labels[..|labels| - 1]), labels[|labels| - 1]);
    }
  }

  lemma NetGrowsTransitive(n: Net, m: Net, k: Net)
    requires NetGrows(n, m) && NetGrows(m, k)
    ensures NetGrows(n, k)
  {
    assert k.chain[..n.final] == k.chain[..m.final][..n.final] == m.chain[..m.final][..n.final] == m.chain[..n.final];
  }

  /** Nothing recorded at any point of a run is ever taken back later in it. */
  lemma {:induction false} RunGrows(env: Env, labels: seq<Label>, n: nat)
    requires n <= |labels|
    ensures Grows(Run(env, labels[..n]).db, Run(env, labels).db)
    ensures NetGrows(Run(env, labels[..n]).net, Run(env, labels).net)
    decreases |labels|
  {
    hide L1, Step, Grows, NetGrows;
    RunKeeps(env, labels[..n]);
    if n == |labels| {
      assert labels[..n] == labels;
      Reflexive(env, Run(env, labels));
    } else {
      var k := |labels| - 1;
      RunKeeps(env, labels[..k]);
      StepKeeps(env, Run(env, labels[..k]), labels[k]);
      assert labels[..k][..n] == labels[..n];
      RunGrows(env, labels[..k], n);
      GrowsTransitive(Run(env, labels[..n]).db, Run(env, labels[..k]).db, Run(env, labels).db);
      NetGrowsTransitive(Run(env, labels[..n]).net, Run(env, labels[..k]).net, Run(env, labels).net);
    }
  }

  lemma RunUnfolds(env: Env, labels: seq<Label>)
    ensures labels == [] ==> Run(env, labels) == Init()
    ensures labels != [] ==> Run(env, labels) == Step(env, Run(env, labels[..|labels| - 1]), labels[|labels| - 1])
  {
    hide Step;
  }

  lemma RunNext(env: Env, labels: seq<Label>, l: Label)
    ensures Run(env, labels + [l]) == Step(env, Run(env, labels), l)
  {
    assert (labels + [l])[..|labels|] == labels;
  }
}
