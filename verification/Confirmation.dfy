/** The bounded confirmation wait (src/modules/transactions/confirmation.ts): two polling loops over a chain that may
    change between any two reads, and what an outcome proves. */
module Confirmation {
  import opened CanonicalJson
  import opened SignedTransaction
  import opened Ledger
  import opened Lifecycle
  import opened LifecycleInvariants
  import opened LifecycleTheorems
  import T = Tables

  datatype Receipt = Receipt(ok: bool, number: nat, hash: nat)

  /** What the clock and the node say at one moment: the transaction's receipt, the canonical block hashes, the
      finalized and the latest height. */
  datatype View = View(now: nat, receipt: Option<Receipt>, hashes: seq<nat>, finalized: Option<nat>, latest: nat)

  datatype Policy = Policy(confirmations: nat, tagged: bool, timeout: nat)

  datatype Result =
    | Pending
    | Orphaned(receipt: Receipt)
    | IncludedAt(receipt: Receipt)
    | RevertedAt(receipt: Receipt)
    | Finalized(receipt: Receipt)

  predicate Canonical(v: View, r: Receipt) { r.number < |v.hashes| && v.hashes[r.number] == r.hash }

  /** The finality tag decides when the node reports one; otherwise depth does. */
  predicate IsFinal(v: View, number: nat, p: Policy) {
    if p.tagged && v.finalized.Some? then v.finalized.value >= number
    else v.latest as int - number as int + 1 >= p.confirmations
  }

  /** A reported finalized height alone decides, unless the policy does not ask for it; without one, a block is final
      exactly when the configured number of blocks, itself included, stand from it to the latest. */
  lemma IsFinalExactly(v: View, number: nat, p: Policy)
    ensures p.tagged && v.finalized.Some? ==> (IsFinal(v, number, p) <==> number <= v.finalized.value)
    ensures !p.tagged || v.finalized.None? ==>
              (IsFinal(v, number, p) <==> number + p.confirmations <= v.latest + 1)
  {
  }

  // ---------- the loops as functions ----------

  /** Every await lets time and the chain move on; the last view stands for everything after the deadline. */
  function Next(views: seq<View>, k: nat): nat { if k + 1 < |views| then k + 1 else k }

  predicate Timely(views: seq<View>, deadline: nat) { views != [] && views[|views| - 1].now >= deadline }

  /** The second loop: receipt, block hash and finality are read one after the other in each round. */
  function Watch(p: Policy, views: seq<View>, k: nat, deadline: nat, observed: Receipt): (r: Result)
    requires Timely(views, deadline) && k < |views|
    ensures !r.Pending?
    decreases |views| - k
  {
    if views[k].now >= deadline then IncludedAt(observed) else
      var i := Next(views, k);
      if views[i].receipt.None? then Orphaned(observed) else
        var current := views[i].receipt.value;
        var j := Next(views, i);
        if !Canonical(views[j], current) then Orphaned(current)
        else if !current.ok then RevertedAt(current)
        else
          var l := Next(views, j);
          if IsFinal(views[l], current.number, p) then Finalized(current) else Watch(p, views, Next(views, l), deadline, current)
  }

  /** The first loop: wait for any receipt. */
  function Look(p: Policy, views: seq<View>, k: nat, deadline: nat): Result
    requires Timely(views, deadline) && k < |views|
    decreases |views| - k
  {
    if views[k].now >= deadline then Pending else
      var i := Next(views, k);
      if views[i].receipt.Some? then Watch(p, views, i, deadline, views[i].receipt.value)
      else Look(p, views, Next(views, i), deadline)
  }

  method AwaitConfirmation(p: Policy, views: seq<View>) returns (r: Result)
    requires views != [] && Timely(views, views[0].now + p.timeout)
    ensures r == Look(p, views, 0, views[0].now + p.timeout)
  {
    var deadline := views[0].now + p.timeout;
    var k := 0;
    var receipt: Option<Receipt> := None;
    while views[k].now < deadline
      invariant k < |views| && receipt.None?
      invariant Look(p, views, 0, deadline) == Look(p, views, k, deadline)
      decreases |views| - k
    {
      k := Next(views, k);
      receipt := views[k].receipt;
      if receipt.Some? { break; }
      k := Next(views, k);
    }
    if receipt.None? { return Pending; }

    var observed := receipt.value;
    while views[k].now < deadline
      invariant k < |views|
      invariant Look(p, views, 0, deadline) == Watch(p, views, k, deadline, observed)
      decreases |views| - k
    {
      k := Next(views, k);
      if views[k].receipt.None? { return Orphaned(observed); }
      observed := views[k].receipt.value;
      k := Next(views, k);
      if !Canonical(views[k], observed) { return Orphaned(observed); }
      if !observed.ok { return RevertedAt(observed); }
      k := Next(views, k);
      if IsFinal(views[k], observed.number, p) { return Finalized(observed); }
      k := Next(views, k);
    }
    return IncludedAt(observed);
  }

  // ---------- what an outcome proves ----------

  predicate Read(views: seq<View>, i: nat, r: Receipt) { i < |views| && views[i].receipt == Some(r) }

  /** The successive reads that justify an outcome. PENDING is justified by PendingIsUnseen; INCLUDED needs no canonical
      block, REVERTED no final one. */
  ghost predicate Justified(p: Policy, views: seq<View>, r: Result) {
    match r
    case Pending => true
    case Orphaned(receipt) =>
      exists i: nat, j: nat :: Read(views, i, receipt) && i <= j < |views|
                               && (views[j].receipt.None? || !Canonical(views[j], receipt))
    case IncludedAt(receipt) => exists i: nat :: Read(views, i, receipt)
    case RevertedAt(receipt) =>
      exists i: nat :: Read(views, i, receipt) && Canonical(views[Next(views, i)], receipt) && !receipt.ok
    case Finalized(receipt) =>
      exists i: nat :: Read(views, i, receipt) && Canonical(views[Next(views, i)], receipt) && receipt.ok
                       && IsFinal(views[Next(views, Next(views, i))], receipt.number, p)
  }

  lemma {:induction false} WatchJustified(p: Policy, views: seq<View>, k: nat, deadline: nat, observed: Receipt, seen: nat)
    requires Timely(views, deadline) && k < |views| && Read(views, seen, observed) && seen <= k
    ensures Justified(p, views, Watch(p, views, k, deadline, observed))
    decreases |views| - k
  {
    if views[k].now < deadline {
      var i := Next(views, k);
      if views[i].receipt.None? {
        assert Read(views, seen, observed) && seen <= i;
      } else {
        var current := views[i].receipt.value;
        assert Read(views, i, current);
        var l := Next(views, Next(views, i));
        if Canonical(views[Next(views, i)], current) && current.ok && !IsFinal(views[l], current.number, p) {
          WatchJustified(p, views, Next(views, l), deadline, current, i);
        }
      }
    }
  }

  lemma {:induction false} LookJustified(p: Policy, views: seq<View>, k: nat, deadline: nat)
    requires Timely(views, deadline) && k < |views|
    ensures Justified(p, views, Look(p, views, k, deadline))
    decreases |views| - k
  {
    if views[k].now < deadline {
      var i := Next(views, k);
      if views[i].receipt.Some? {
        WatchJustified(p, views, i, deadline, views[i].receipt.value, i);
      } else {
        LookJustified(p, views, Next(views, i), deadline);
      }
    }
  }

  /** PENDING means that every poll made before the deadline found no receipt. */
  lemma {:induction false} PendingIsUnseen(p: Policy, views: seq<View>, k: nat, deadline: nat, m: nat)
    requires Timely(views, deadline) && k + 2 * m + 1 < |views| && Look(p, views, k, deadline).Pending?
    requires forall i: nat | k <= i <= k + 2 * m :: views[i].now < deadline
    ensures views[k + 2 * m + 1].receipt.None?
    decreases m
  {
    if m > 0 {
      PendingIsUnseen(p, views, k + 2, deadline, m - 1);
    }
  }

  /** On a chain that stands still the outcome is exactly what that chain says. */
  ghost predicate Steady(views: seq<View>) {
    forall i: nat | 0 < i < |views| :: views[i].(now := views[0].now) == views[0]
  }

  function Verdict(p: Policy, v: View): Result {
    if v.receipt.None? then Pending
    else if !Canonical(v, v.receipt.value) then Orphaned(v.receipt.value)
    else if !v.receipt.value.ok then RevertedAt(v.receipt.value)
    else if IsFinal(v, v.receipt.value.number, p) then Finalized(v.receipt.value)
    else IncludedAt(v.receipt.value)
  }

  lemma {:induction false} SteadyWatch(p: Policy, views: seq<View>, k: nat, deadline: nat)
    requires Timely(views, deadline) && k < |views| && Steady(views) && views[0].receipt.Some?
    ensures var r := Watch(p, views, k, deadline, views[0].receipt.value);
            r == Verdict(p, views[0]) || (views[k].now >= deadline && r == IncludedAt(views[0].receipt.value))
    decreases |views| - k
  {
    if views[k].now < deadline {
      var i := Next(views, k);
      var j := Next(views, i);
      var l := Next(views, j);
      assert views[i].(now := views[0].now) == views[0] && views[j].(now := views[0].now) == views[0];
      assert views[l].(now := views[0].now) == views[0];
      if Verdict(p, views[0]).IncludedAt? { SteadyWatch(p, views, Next(views, l), deadline); }
    }
  }

  lemma {:induction false} SteadyLook(p: Policy, views: seq<View>, k: nat, deadline: nat)
    requires Timely(views, deadline) && k < |views| && Steady(views) && views[0].receipt.None?
    ensures Look(p, views, k, deadline) == Pending
    decreases |views| - k
  {
    if views[k].now < deadline {
      assert views[Next(views, k)].(now := views[0].now) == views[0];
      SteadyLook(p, views, Next(views, Next(views, k)), deadline);
    }
  }

  /** Given time for one round, the wait reports what a chain that stands still says; INCLUDED is its answer only for
      a canonical block that is not final yet. Without time for a round, INCLUDED says no more than that a receipt
      was read. */
  lemma SteadyOutcome(p: Policy, views: seq<View>)
    requires views != [] && Timely(views, views[0].now + p.timeout) && Steady(views) && p.timeout > 0
    ensures var r := Look(p, views, 0, views[0].now + p.timeout);
            if views[Next(views, 0)].now < views[0].now + p.timeout || views[0].receipt.None? then r == Verdict(p, views[0])
            else r == IncludedAt(views[0].receipt.value)
  {
    var deadline := views[0].now + p.timeout;
    var i := Next(views, 0);
    assert views[i].(now := views[0].now) == views[0];
    if views[0].receipt.Some? { SteadyWatch(p, views, i, deadline); } else { SteadyLook(p, views, 0, deadline); }
  }

  // ---------- the chain of the lifecycle ----------

  /** The receipt a node reports for `tx` while its chain is `net.chain`, at transaction `j` of its block. */
  ghost predicate ReceiptFrom(env: Env, net: Net, tx: SignedTx, r: Receipt, j: nat) {
    && r.number < |net.chain| && j < |net.chain[r.number].txs| && net.chain[r.number].txs[j] == Ours(tx)
    && r.hash == net.chain[r.number].id
    && var p := |Flat(net.chain[..r.number])| + j;
       p < |Flat(net.chain)| && (r.ok <==> ReceiptOk(env, Flat(net.chain), p, tx))
  }

  /** The view of a node whose chain is `net.chain`; where it reports no finalized height, the configured depth is one
      the chain is never reorganised below. */
  ghost predicate ViewOf(v: View, net: Net, p: Policy) {
    && v.hashes == seq(|net.chain|, h requires 0 <= h < |net.chain| => net.chain[h].id)
    && (v.finalized.Some? ==> v.finalized.value < net.final)
    && forall h: nat | v.latest as int - h as int + 1 >= p.confirmations :: InFinal(h, net)
  }

  predicate InFinal(h: nat, net: Net) { h < net.final }

  lemma {:induction false} FlatAt(chain: seq<Block>, b: nat, j: nat)
    requires b < |chain| && j < |chain[b].txs|
    ensures |Flat(chain[..b])| + j < |Flat(chain)|
    ensures Flat(chain)[|Flat(chain[..b])| + j] == Entry(chain[b].time, chain[b].txs[j])
    decreases |chain|
  {
    var n := |chain| - 1;
    if b < n {
      assert chain[..n][..b] == chain[..b];
      FlatAt(chain[..n], b, j);
    }
  }

  /** A FINALIZED outcome whose round read one state of the chain confirms the transaction in the lifecycle's sense:
      it is in the prefix that is never reorganised, and did not revert. */
  lemma FinalizedConfirms(env: Env, net: Net, tx: SignedTx, p: Policy, v: View, r: Receipt, j: nat)
    requires ChainOk(env.base, net) && ViewOf(v, net, p) && ReceiptFrom(env, net, tx, r, j)
    requires Canonical(v, r) && r.ok && IsFinal(v, r.number, p)
    ensures InFinalPrefix(env, net, tx, |Flat(net.chain[..r.number])| + j)
  {
    var b, at := r.number, |Flat(net.chain[..r.number])| + j;
    assert InFinal(b, net);
    FlatAt(net.chain, b, j);
    var early := net.chain[..net.final];
    assert early[..b] == net.chain[..b];
    FlatAt(early, b, j);
    FlatPrefix(net.chain, net.final);
    assert Flat(early)[..at] == Flat(net.chain)[..at];
    SameStatus(env, Flat(early), Flat(net.chain), at, tx);
  }

  /** Over one chain state a block is canonical exactly if the chain has it at its height; a receipt from a block that has
      left the chain is what the lifecycle sees as orphaned, as soon as a node ever took the bytes. */
  lemma CanonicalExactly(env: Env, net: Net, tx: SignedTx, p: Policy, v: View, r: Receipt)
    requires ViewOf(v, net, p)
    ensures Canonical(v, r) <==> r.number < |net.chain| && net.chain[r.number].id == r.hash
    ensures Confirms(env, net, tx, SeenOrphaned) <==> tx in net.known
  {
  }

  /** A REVERTED outcome proves the same of the chain as it stands, final or not. */
  lemma RevertedConfirms(env: Env, net: Net, tx: SignedTx, r: Receipt, j: nat, block: T.BlockRef)
    requires ChainOk(env.base, net) && ReceiptFrom(env, net, tx, r, j) && !r.ok
    ensures Confirms(env, net, tx, SeenReverted(block, |Flat(net.chain[..r.number])| + j))
  {
    FlatAt(net.chain, r.number, j);
    NonceAt(env.base, net, |Flat(net.chain[..r.number])| + j);
  }
}
