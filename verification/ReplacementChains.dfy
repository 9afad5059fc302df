/** Replacement along one nonce (level L1): one linear chain of attempts, bounded in length, whose fees compound. */
module ReplacementChains {
  import opened CanonicalJson
  import opened SignedTransaction
  import opened Ledger
  import opened Tables
  import opened TableInvariants
  import opened Lifecycle
  import opened LifecycleInvariants
  import opened LifecycleSteps
  import opened LifecycleRuns
  import opened LifecycleTheorems
  import Fee = TransactionIntent
  import M = OperationMachine

  // ---------- the shape of a chain ----------

  /** Following the replacement links from a row ends at the live row of its nonce, which is numbered higher unless
      it is the row itself. */
  ghost function Tail(c: Config, rows: seq<Attempt>, i: nat): (t: nat)
    requires RowsOk(c, rows) && i < |rows|
    ensures Holds(rows, t, rows[i].core.request.nonce)
    ensures if rows[i].status.Replaced? then rows[t].core.number > rows[i].core.number else t == i
    decreases |rows| - i
  {
    assert LinkOk(c, rows, i);
    if rows[i].status.Replaced? then
      var j := rows[i].replacedBy.value;
      assert LinkOk(c, rows, j);
      Tail(c, rows, j)
    else i
  }

  /** A retired row's successor points back to it, at the same nonce and the next number. */
  lemma Successor(c: Config, rows: seq<Attempt>, i: nat) returns (x: nat)
    requires RowsOk(c, rows) && i < |rows| && rows[i].status.Replaced?
    ensures i < x < |rows| && rows[i].replacedBy == Some(x) && rows[x].core.supersedes == Some(i)
    ensures rows[x].core.request.nonce == rows[i].core.request.nonce && rows[x].core.number == rows[i].core.number + 1
  {
    hide ShapeOk;
    x := rows[i].replacedBy.value;
    assert LinkOk(c, rows, i) && LinkOk(c, rows, x);
  }

  /** Within a nonce a number names one attempt: numbers rise by one along a single chain. */
  lemma {:induction false} NumbersDistinct(c: Config, rows: seq<Attempt>, i: nat, j: nat)
    requires RowsOk(c, rows) && LiveUnique(rows) && i < |rows| && j < |rows|
    requires rows[i].core.request.nonce == rows[j].core.request.nonce && rows[i].core.number == rows[j].core.number
    ensures i == j
    decreases |rows| - i
  {
    hide RowsOk, LiveUnique;
    OneLive(rows, Tail(c, rows, i), Tail(c, rows, j), rows[i].core.request.nonce);
    if rows[i].status.Replaced? {
      var x := Successor(c, rows, i);
      var y := Successor(c, rows, j);
      NumbersDistinct(c, rows, x, y);
    }
  }

  /** Every number up to a row's own is taken at its nonce, down to the attempt that reserved it. */
  lemma {:induction false} NumbersContiguous(c: Config, rows: seq<Attempt>, i: nat, k: nat) returns (j: nat)
    requires RowsOk(c, rows) && i < |rows| && k <= rows[i].core.number
    requires forall r: nat | r < |rows| :: RowChecks(rows, r)
    ensures At(rows, j, rows[i].core.request.nonce) && rows[j].core.number == k
    decreases i
  {
    if k == rows[i].core.number {
      j := i;
    } else {
      assert LinkOk(c, rows, i) && RowChecks(rows, i);
      j := NumbersContiguous(c, rows, rows[i].core.supersedes.value, k);
    }
  }

  /** The attempts at a nonce. */
  ghost function Chain(rows: seq<Attempt>, nonce: nat): set<nat> {
    set i: nat | i < |rows| && At(rows, i, nonce)
  }

  ghost function Numbers(rows: seq<Attempt>, s: set<nat>): set<nat>
    requires forall i: nat | i in s :: i < |rows|
  {
    set i: nat | i in s :: rows[i].core.number
  }

  lemma {:induction false} SameSize(c: Config, rows: seq<Attempt>, s: set<nat>, nonce: nat)
    requires RowsOk(c, rows) && LiveUnique(rows) && forall i: nat | i in s :: At(rows, i, nonce)
    ensures forall i: nat | i in s :: i < |rows|
    ensures |Numbers(rows, s)| == |s|
    decreases s
  {
    if s != {} {
      var i :| i in s;
      SameSize(c, rows, s - {i}, nonce);
      var n := rows[i].core.number;
      if n in Numbers(rows, s - {i}) {
        var j :| j in s - {i} && rows[j].core.number == n;
        NumbersDistinct(c, rows, i, j);
      }
      assert Numbers(rows, s) == Numbers(rows, s - {i}) + {n};
    }
  }

  ghost function Upto(n: nat): (s: set<nat>)
    ensures |s| == n + 1 && forall k: nat :: k in s <==> k <= n
  {
    if n == 0 then {0} else Upto(n - 1) + {n}
  }

  /** The attempts of a nonce are numbered 0, 1, ... up to its live one, each number once; so over any run a nonce
      carries at most maxReplacements + 2 attempts, and every link leads to the same live one. */
  lemma ChainIsLinear(env: Env, labels: seq<Label>, i: nat, t: nat)
    requires
      var rows := Run(env, labels).db.attempts;
      i < |rows| && Holds(rows, t, rows[i].core.request.nonce)
    ensures
      var rows := Run(env, labels).db.attempts;
      && RowsOk(env.c, rows) && Tail(env.c, rows, i) == t
      && Numbers(rows, Chain(rows, rows[i].core.request.nonce)) == Upto(rows[t].core.number)
      && |Chain(rows, rows[i].core.request.nonce)| == rows[t].core.number + 1 <= env.c.maxReplacements + 2
  {
    hide Run, LaneOk, TiesOk, IntentsOk, OpsOk, SyncsOk, SyncOrder, NetOk, SuccessOk, HashUnique;
    RunKeeps(env, labels);
    var rows := Run(env, labels).db.attempts;
    var nonce := rows[i].core.request.nonce;
    var chain := Chain(rows, nonce);
    OneLive(rows, Tail(env.c, rows, i), t, nonce);
    SameSize(env.c, rows, chain, nonce);
    assert ShapeOk(env.c, rows[t]);
    NumbersUpto(env.c, rows, t);
  }

  lemma NumbersUpto(c: Config, rows: seq<Attempt>, t: nat)
    requires RowsOk(c, rows) && LiveUnique(rows) && t < |rows| && !rows[t].status.Replaced?
    requires forall r: nat | r < |rows| :: RowChecks(rows, r)
    ensures Numbers(rows, Chain(rows, rows[t].core.request.nonce)) == Upto(rows[t].core.number)
  {
    var nonce := rows[t].core.request.nonce;
    var chain := Chain(rows, nonce);
    forall k: nat | k in Numbers(rows, chain) ensures k in Upto(rows[t].core.number) {
      var j :| j in chain && rows[j].core.number == k;
      OneLive(rows, Tail(c, rows, j), t, nonce);
    }
    forall k: nat | k in Upto(rows[t].core.number) ensures k in Numbers(rows, chain) {
      var j := NumbersContiguous(c, rows, t, k);
      assert j in chain;
    }
  }

  // ---------- cancellations ----------

  /** The row that empties a nonce: a recovery that replaces something else. */
  predicate Cancels(rows: seq<Attempt>, i: nat) {
    && i < |rows| && rows[i].core.purpose.NonceRecovery? && rows[i].core.supersedes.Some?
    && rows[i].core.supersedes.value < |rows| && !rows[rows[i].core.supersedes.value].core.purpose.NonceRecovery?
  }

  /** After a cancellation every further attempt of the nonce is a recovery. */
  lemma {:induction false} RecoveryStays(c: Config, rows: seq<Attempt>, i: nat, j: nat)
    requires RowsOk(c, rows) && LiveUnique(rows) && i < |rows| && j < |rows|
    requires forall r: nat | r < |rows| :: RowChecks(rows, r)
    requires rows[i].core.request.nonce == rows[j].core.request.nonce && rows[i].core.number <= rows[j].core.number
    requires rows[i].core.purpose.NonceRecovery?
    ensures rows[j].core.purpose.NonceRecovery?
    decreases j
  {
    if rows[i].core.number == rows[j].core.number {
      NumbersDistinct(c, rows, i, j);
    } else {
      assert LinkOk(c, rows, j) && RowChecks(rows, j);
      RecoveryStays(c, rows, i, rows[j].core.supersedes.value);
    }
  }

  lemma CancelsOnce(c: Config, rows: seq<Attempt>, i: nat, j: nat)
    requires RowsOk(c, rows) && LiveUnique(rows) && Cancels(rows, i) && Cancels(rows, j)
    requires forall r: nat | r < |rows| :: RowChecks(rows, r)
    requires rows[i].core.request.nonce == rows[j].core.request.nonce
    ensures i == j
  {
    assert LinkOk(c, rows, i) && LinkOk(c, rows, j);
    if rows[i].core.number < rows[j].core.number { RecoveryStays(c, rows, i, rows[j].core.supersedes.value); }
    if rows[j].core.number < rows[i].core.number { RecoveryStays(c, rows, j, rows[i].core.supersedes.value); }
    if rows[i].core.number == rows[j].core.number { NumbersDistinct(c, rows, i, j); }
  }

  /** A nonce is cancelled at most once, however many sweeps find its lane blocked. */
  lemma CancelledAtMostOnce(env: Env, labels: seq<Label>, i: nat, j: nat)
    requires
      var rows := Run(env, labels).db.attempts;
      Cancels(rows, i) && Cancels(rows, j) && rows[i].core.request.nonce == rows[j].core.request.nonce
    ensures i == j
  {
    hide Run, RowsOk, LaneOk, TiesOk, IntentsOk, OpsOk, SyncsOk, SyncOrder, NetOk, SuccessOk, HashUnique, LiveUnique, RowChecks;
    RunKeeps(env, labels);
    CancelsOnce(env.c, Run(env, labels).db.attempts, i, j);
  }

  // ---------- fees ----------

  /** Both fees are raised by at least the bump, and strictly. */
  predicate Raised(bump: nat, p: Request, q: Request) {
    && q.maxFee > p.maxFee && q.priority > p.priority
    && 100 * q.maxFee >= p.maxFee * (100 + bump) && 100 * q.priority >= p.priority * (100 + bump)
  }

  predicate RowRaised(bump: nat, rows: seq<Attempt>, core: Core) {
    core.supersedes.Some? ==>
      core.supersedes.value < |rows| && Raised(bump, rows[core.supersedes.value].core.request, core.request)
  }

  /** Both fields are at least the market's, and no more than the market's or the bump needs. */
  predicate RowPriced(bump: nat, rows: seq<Attempt>, core: Core, market: Fee.Fees) {
    core.supersedes.Some? ==>
      && core.supersedes.value < |rows|
      && var p, q := rows[core.supersedes.value].core.request, core.request;
         Fee.Priced(q.maxFee, p.maxFee, market.maxFee, bump) && Fee.Priced(q.priority, p.priority, market.priority, bump)
  }

  ghost predicate FeesOk(c: Config, rows: seq<Attempt>) {
    forall i: nat | i < |rows| :: RowRaised(c.bump, rows, rows[i].core)
  }

  /** Rows a step adds that replace another replace the one its worker is about, and raise its fees to the market. */
  ghost predicate NewRowsRaised(c: Config, d: Db, e: Db, market: Fee.Fees, who: Option<nat>) {
    forall i: nat | |d.attempts| <= i < |e.attempts| ::
      && RowRaised(c.bump, d.attempts, e.attempts[i].core) && RowPriced(c.bump, d.attempts, e.attempts[i].core, market)
      && (e.attempts[i].core.supersedes.Some? ==> e.attempts[i].core.supersedes == who)
  }

  /** The attempt a replacing worker is about. */
  function Retiring(a: Actor): Option<nat> { if a.Replacing? || a.Cancelling? then Some(a.attempt) else None }

  lemma PrepareAdds(c: Config, db: Db, o: nat, purpose: Purpose, to: Option<Address>, data: Data, gas: nat,
                    fees: Fee.Fees, chainNonce: nat, market: Fee.Fees)
    requires PrepareTx(c, db, o, purpose, to, data, gas, fees, chainNonce).Some?
    ensures NewRowsRaised(c, db, PrepareTx(c, db, o, purpose, to, data, gas, fees, chainNonce).value, market, None)
  {
    hide AttemptsOk;
  }

  lemma ReplaceAdds(c: Config, db: Db, i: nat, core: Core, market: Fee.Fees)
    requires ReplaceTx(db, i, core).Some? && RowRaised(c.bump, db.attempts, core) && core.supersedes == Some(i)
    requires RowPriced(c.bump, db.attempts, core, market)
    ensures NewRowsRaised(c, db, ReplaceTx(db, i, core).value, market, Some(i))
  {
    hide AttemptsOk, Fee.Priced, Raised;
  }

  lemma ExecuteRaises(env: Env, db: Db, net: Net, a: Actor, ch: Choice)
    requires a.Claimed? || a.Built? || a.Erring?
    ensures NewRowsRaised(env.c, db, ExecuteStep(env, db, net, a, ch).0, Estimate(ch), Retiring(a))
  {
    hide AttemptsOk, PrepareTx;
    if a.Built? && PrepareTx(env.c, db, a.op, a.purpose, a.to, a.data, a.gas, a.fees, a.chainNonce).Some? {
      PrepareAdds(env.c, db, a.op, a.purpose, a.to, a.data, a.gas, a.fees, a.chainNonce, Estimate(ch));
    }
  }

  lemma SignAddsNone(db: Db, net: Net, a: Actor, ch: Choice)
    requires a.Requesting? || a.Answered? || a.Settling? || a.Failing? || a.Resuming? || a.Expiring? || a.Fetching?
    ensures |SignStep(db, net, a, ch).0.attempts| == |db.attempts|
  {
    hide AttemptsOk, VerifySigned;
  }

  lemma SendAddsNone(db: Db, net: Net, a: Actor, ch: Choice)
    requires a.Persisted? || a.Allowed? || a.Sending? || a.Checked? || a.Sent?
    ensures |SendStep(db, net, a, ch).0.attempts| == |db.attempts|
  {
    hide AttemptsOk;
  }

  lemma ObserveAddsNone(env: Env, db: Db, net: Net, a: Actor, ch: Choice)
    requires a.Observing? || a.Awaiting? || a.Including? || a.Orphaning? || a.Reconciling? || a.Judged?
    ensures |ObserveStep(env, db, net, a, ch).0.attempts| == |db.attempts|
  {
    hide AttemptsOk, Confirms, MintEventOk;
  }

  lemma RecoverAddsNone(db: Db, net: Net, a: Actor, ch: Choice)
    requires a.RecoverSigning? || a.RecoverRequest? || a.RecoverUnsent? || a.Abandoning? || a.ResolveInFlight? ||
             a.LookingUp? || a.Advancing? || a.Finalizing? || a.Rebroadcasting?
    ensures |RecoverStep(db, net, a, ch).0.attempts| == |db.attempts|
  {
    hide AttemptsOk;
  }

  lemma ReplaceRaises(env: Env, db: Db, net: Net, a: Actor, ch: Choice)
    requires a.Stuck? || a.StuckOperation? || a.Replacing? || a.LaneRead? || a.LaneAt? || a.Cancelling? ||
             a.ConfirmingRecovery?
    ensures NewRowsRaised(env.c, db, ReplaceStep(env, db, net, a, ch).0, Estimate(ch), Retiring(a))
  {
    hide AttemptsOk, Confirms, ReplaceTx, Fee.BumpFees, NewRowsRaised, LiveBelow;
    if (a.Replacing? || a.Cancelling?) && a.attempt < |db.attempts| {
      var i := a.attempt;
      var fees := BumpedFees(env, db, i, ch);
      var q := if a.Replacing? then FeeReplacement(i, db.attempts[i].core, fees)
               else Cancellation(env.c, i, db.attempts[i].core, fees);
      RaisesFees(env, db, i, ch, q);
      AddsNone(env.c, db, db, Estimate(ch), Retiring(a));
      if ReplaceTx(db, i, q).Some? { ReplaceAdds(env.c, db, i, q, Estimate(ch)); }
    } else {
      OthersAddNone(env, db, net, a, ch);
    }
  }

  function BumpedFees(env: Env, db: Db, i: nat, ch: Choice): Fee.Fees
    requires i < |db.attempts|
  {
    var r := db.attempts[i].core.request;
    Fee.BumpFees(Fee.Fees(r.maxFee, r.priority), Estimate(ch), env.c.bump)
  }

  lemma RaisesFees(env: Env, db: Db, i: nat, ch: Choice, q: Core)
    requires i < |db.attempts| && q.supersedes == Some(i)
    requires Fee.Fees(q.request.maxFee, q.request.priority) == BumpedFees(env, db, i, ch)
    ensures RowRaised(env.c.bump, db.attempts, q) && RowPriced(env.c.bump, db.attempts, q, Estimate(ch))
  {
    hide Fee.Priced, Fee.BumpFees;
    var r := db.attempts[i].core.request;
    Fee.BumpRises(Fee.Fees(r.maxFee, r.priority), Estimate(ch), env.c.bump);
  }

  lemma OthersAddNone(env: Env, db: Db, net: Net, a: Actor, ch: Choice)
    requires a.Stuck? || a.StuckOperation? || a.Replacing? || a.LaneRead? || a.LaneAt? || a.Cancelling? ||
             a.ConfirmingRecovery?
    requires a.Replacing? || a.Cancelling? ==> a.attempt >= |db.attempts|
    ensures NewRowsRaised(env.c, db, ReplaceStep(env, db, net, a, ch).0, Estimate(ch), Retiring(a))
  {
    hide AttemptsOk, Confirms, LiveBelow, RowRaised, RowPriced;
  }

  lemma AddsNone(c: Config, d: Db, e: Db, market: Fee.Fees, who: Option<nat>)
    requires |e.attempts| <= |d.attempts|
    ensures NewRowsRaised(c, d, e, market, who)
  {
  }

  lemma ActorRaises(env: Env, db: Db, net: Net, a: Actor, ch: Choice)
    ensures NewRowsRaised(env.c, db, ActorStep(env, db, net, a, ch).0, Estimate(ch), Retiring(a))
  {
    hide ExecuteStep, SignStep, SendStep, ObserveStep, RecoverStep, ReplaceStep, NewRowsRaised, Retiring, Estimate;
    if a.Claimed? || a.Built? || a.Erring? {
      ExecuteRaises(env, db, net, a, ch);
    } else if a.Stuck? || a.StuckOperation? || a.Replacing? || a.LaneRead? || a.LaneAt? || a.Cancelling? || a.ConfirmingRecovery? {
      ReplaceRaises(env, db, net, a, ch);
    } else {
      WorkersAddNone(env, db, net, a, ch);
      AddsNone(env.c, db, ActorStep(env, db, net, a, ch).0, Estimate(ch), Retiring(a));
    }
  }

  lemma WorkersAddNone(env: Env, db: Db, net: Net, a: Actor, ch: Choice)
    requires !(a.Claimed? || a.Built? || a.Erring? || a.Stuck? || a.StuckOperation? || a.Replacing? || a.LaneRead? || a.LaneAt? ||
               a.Cancelling? || a.ConfirmingRecovery?)
    ensures |ActorStep(env, db, net, a, ch).0.attempts| == |db.attempts|
  {
    hide ExecuteStep, SignStep, SendStep, ObserveStep, RecoverStep, ReplaceStep;
    if a.Done? {}
    else if a.Requesting? || a.Answered? || a.Settling? || a.Failing? || a.Resuming? || a.Expiring? || a.Fetching? {
      SignAddsNone(db, net, a, ch);
    }
    else if a.Persisted? || a.Allowed? || a.Sending? || a.Checked? || a.Sent? { SendAddsNone(db, net, a, ch); }
    else if a.Observing? || a.Awaiting? || a.Including? || a.Orphaning? || a.Reconciling? || a.Judged? {
      ObserveAddsNone(env, db, net, a, ch);
    }
    else { RecoverAddsNone(db, net, a, ch); }
  }

  /** The market a step reads, and the attempt its worker is about to replace. */
  function MarketOf(l: Label): Fee.Fees { if l.Act? then Estimate(l.ch) else Fee.Fees(0, 0) }
  function Retires(s: State, l: Label): Option<nat> {
    if l.Act? && l.actor < |s.actors| then Retiring(s.actors[l.actor]) else None
  }

  lemma StepRaises(env: Env, s: State, l: Label)
    ensures NewRowsRaised(env.c, s.db, Step(env, s, l).db, MarketOf(l), Retires(s, l))
  {
    hide ActorStep, OneLiveSync, Estimate;
    if l.Act? && l.actor < |s.actors| { ActorRaises(env, s.db, s.net, s.actors[l.actor], l.ch); }
  }

  lemma {:induction false} RunRaises(env: Env, labels: seq<Label>)
    ensures FeesOk(env.c, Run(env, labels).db.attempts)
  {
    if labels != [] {
      hide Step, L1, RowPriced;
      var n := |labels| - 1;
      RunRaises(env, labels[..n]);
      RunKeeps(env, labels[..n]);
      StepKeeps(env, Run(env, labels[..n]), labels[n]);
      StepRaises(env, Run(env, labels[..n]), labels[n]);
      FeesStay(env.c, Run(env, labels[..n]).db, Run(env, labels).db, MarketOf(labels[n]), Retires(Run(env, labels[..n]), labels[n]));
    }
  }

  lemma FeesStay(c: Config, d: Db, e: Db, market: Fee.Fees, who: Option<nat>)
    requires FeesOk(c, d.attempts) && Grows(d, e) && NewRowsRaised(c, d, e, market, who)
    ensures FeesOk(c, e.attempts)
  {
    hide Raised, RowPriced;
    forall i: nat | i < |d.attempts| ensures e.attempts[i].core == d.attempts[i].core {
      assert AttemptKept(d.attempts[i], e.attempts[i]);
    }
    forall i: nat | i < |e.attempts| ensures RowRaised(c.bump, e.attempts, e.attempts[i].core) {
      if i < |d.attempts| { assert RowRaised(c.bump, d.attempts, d.attempts[i].core); }
    }
  }

  /** Step `l` of a worker that was replacing attempt `p` read the market that row `i` pays. */
  ghost predicate BoughtAt(bump: nat, rows: seq<Attempt>, i: nat, s: State, l: Label) {
    && l.Act? && l.actor < |s.actors| && i < |rows| && rows[i].core.supersedes.Some?
    && var p := rows[i].core.supersedes.value;
       && (s.actors[l.actor] == Replacing(p) || s.actors[l.actor] == Cancelling(p)) && p < |rows|
       && Fee.Priced(rows[i].core.request.maxFee, rows[p].core.request.maxFee, Estimate(l.ch).maxFee, bump)
       && Fee.Priced(rows[i].core.request.priority, rows[p].core.request.priority, Estimate(l.ch).priority, bump)
       && (l.ch.maxFee.Some? ==> rows[i].core.request.maxFee >= l.ch.maxFee.value)
       && (l.ch.priority.Some? ==> rows[i].core.request.priority >= l.ch.priority.value)
  }

  lemma NewRowBought(env: Env, s: State, l: Label, i: nat)
    requires Grows(s.db, Step(env, s, l).db) && |s.db.attempts| <= i < |Step(env, s, l).db.attempts|
    requires Step(env, s, l).db.attempts[i].core.supersedes.Some?
    ensures BoughtAt(env.c.bump, Step(env, s, l).db.attempts, i, s, l)
  {
    hide Step, RowRaised, Grows;
    CoresStay(s.db, Step(env, s, l).db);
    StepRaises(env, s, l);
  }

  lemma BoughtStays(bump: nat, d: Db, e: Db, i: nat, s: State, l: Label)
    requires Grows(d, e) && BoughtAt(bump, d.attempts, i, s, l)
    ensures BoughtAt(bump, e.attempts, i, s, l)
  {
    hide Grows, Fee.Priced;
    CoresStay(d, e);
  }

  /** Every replacement of any run was made by a sweep's worker for the attempt it retires, in a step that read the
      market: both fees are at least what the node then reported, and rise no further than that or the bump needs. */
  lemma {:induction false} PaysTheMarket(env: Env, labels: seq<Label>, i: nat) returns (n: nat)
    requires i < |Run(env, labels).db.attempts| && Run(env, labels).db.attempts[i].core.supersedes.Some?
    ensures n < |labels|
    ensures BoughtAt(env.c.bump, Run(env, labels).db.attempts, i, Run(env, labels[..n]), labels[n])
    decreases |labels|
  {
    hide Run, Step, L1, BoughtAt, Grows;
    RunUnfolds(env, labels);
    var k := |labels| - 1;
    var s, t := Run(env, labels[..k]), Run(env, labels);
    RunKeeps(env, labels[..k]);
    StepKeeps(env, s, labels[k]);
    CoresStay(s.db, t.db);
    if i < |s.db.attempts| {
      n := PaysTheMarket(env, labels[..k], i);
      assert labels[..k][..n] == labels[..n];
      BoughtStays(env.c.bump, s.db, t.db, i, Run(env, labels[..n]), labels[n]);
    } else {
      n := k;
      NewRowBought(env, s, labels[k], i);
    }
  }

  lemma CoresStay(d: Db, e: Db)
    requires Grows(d, e)
    ensures |d.attempts| <= |e.attempts| && forall i: nat | i < |d.attempts| :: e.attempts[i].core == d.attempts[i].core
  {
    forall i: nat | i < |d.attempts| ensures e.attempts[i].core == d.attempts[i].core {
      assert AttemptKept(d.attempts[i], e.attempts[i]);
    }
  }

  lemma Predecessor(c: Config, rows: seq<Attempt>, i: nat) returns (p: nat)
    requires RowsOk(c, rows) && FeesOk(c, rows) && i < |rows| && RowChecks(rows, i) && rows[i].core.number > 0
    ensures p < i && rows[p].core.request.nonce == rows[i].core.request.nonce
    ensures rows[i].core.number == rows[p].core.number + 1
    ensures Raised(c.bump, rows[p].core.request, rows[i].core.request)
  {
    assert LinkOk(c, rows, i) && RowRaised(c.bump, rows, rows[i].core);
    p := rows[i].core.supersedes.value;
  }

  lemma {:induction false} ChainFees(c: Config, rows: seq<Attempt>, i: nat, first: nat)
    requires RowsOk(c, rows) && LiveUnique(rows) && FeesOk(c, rows)
    requires forall r: nat | r < |rows| :: RowChecks(rows, r)
    requires i < |rows| && At(rows, first, rows[i].core.request.nonce) && rows[first].core.number == 0
    ensures
      var r, f, k := rows[i].core.request, rows[first].core.request, rows[i].core.number;
      && Fee.Pow(100, k) * r.maxFee >= Fee.Pow(100 + c.bump, k) * f.maxFee
      && Fee.Pow(100, k) * r.priority >= Fee.Pow(100 + c.bump, k) * f.priority
    decreases i
  {
    hide RowsOk, LiveUnique, FeesOk, RowChecks;
    var k := rows[i].core.number;
    if k == 0 {
      NumbersDistinct(c, rows, i, first);
    } else {
      var p := Predecessor(c, rows, i);
      ChainFees(c, rows, p, first);
      var q, r, f := rows[p].core.request, rows[i].core.request, rows[first].core.request;
      var b := 100 + c.bump;
      Fee.Compound(Fee.Pow(100, k - 1), Fee.Pow(b, k - 1), q.maxFee, r.maxFee, f.maxFee, b);
      Fee.Compound(Fee.Pow(100, k - 1), Fee.Pow(b, k - 1), q.priority, r.priority, f.priority, b);
    }
  }

  /** Along a whole replacement chain: the attempt numbered k pays, in both fields, at least what the first attempt of
      its nonce paid raised by the bump k times over, and its fees are in the order the signature check demands. */
  lemma FeesCompound(env: Env, labels: seq<Label>, i: nat, first: nat)
    requires
      var rows := Run(env, labels).db.attempts;
      && i < |rows| && At(rows, first, rows[i].core.request.nonce) && rows[first].core.number == 0
    ensures
      var rows := Run(env, labels).db.attempts;
      var r, f, k := rows[i].core.request, rows[first].core.request, rows[i].core.number;
      && Fee.Pow(100, k) * r.maxFee >= Fee.Pow(100 + env.c.bump, k) * f.maxFee
      && Fee.Pow(100, k) * r.priority >= Fee.Pow(100 + env.c.bump, k) * f.priority
      && r.priority <= r.maxFee
  {
    hide Run, LaneOk, TiesOk, IntentsOk, OpsOk, SyncsOk, SyncOrder, NetOk, SuccessOk, HashUnique;
    RunKeeps(env, labels);
    RunRaises(env, labels);
    var rows := Run(env, labels).db.attempts;
    assert ShapeOk(env.c, rows[i]);
    ChainFees(env.c, rows, i, first);
  }
}
