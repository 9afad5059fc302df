/** The chain: blocks of transactions, replayed against the token contracts they address. */
module Ledger {
  import opened CanonicalJson
  import opened SignedTransaction
  import Token

  /** `Ours` is a transaction of the application's signer; anything else anybody sends is `Foreign`. */
  datatype ChainTx = Ours(tx: SignedTx) | Foreign(sender: Address, to: Address, call: Token.Call)
  datatype Block = Block(id: nat, time: nat, txs: seq<ChainTx>)
  datatype Entry = Entry(time: nat, tx: ChainTx)

  /** Every transaction of the chain with its block's timestamp, in execution order. */
  function Flat(chain: seq<Block>): seq<Entry> {
    if chain == [] then [] else
      var n := |chain| - 1;
      Flat(chain[..n]) + seq(|chain[n].txs|, i requires 0 <= i < |chain[n].txs| => Entry(chain[n].time, chain[n].txs[i]))
  }

  function OursOf(flat: seq<Entry>): seq<SignedTx> {
    if flat == [] then [] else
      var n := |flat| - 1;
      OursOf(flat[..n]) + if flat[n].tx.Ours? then [flat[n].tx.tx] else []
  }

  /** The call an entry makes on `contract`, if it addresses it. */
  function MessageTo(e: Entry, contract: Address): Option<Token.Message> {
    match e.tx
    case Ours(tx) =>
      if tx.to == Some(contract) && tx.data.Invoke? && tx.signer.Some?
      then Some(Token.Message(tx.signer.value, e.time, tx.data.call)) else None
    case Foreign(sender, to, call) => if to == contract then Some(Token.Message(sender, e.time, call)) else None
  }

  function Messages(flat: seq<Entry>, contract: Address): seq<Token.Message> {
    if flat == [] then [] else
      var n := |flat| - 1;
      Messages(flat[..n], contract) +
      match MessageTo(flat[n], contract) case Some(m) => [m] case None => []
  }

  /** The contract at an address as it was deployed. */
  datatype Contract = Contract(cap: nat, members: map<Token.Role, set<Address>>)

  function Replay(flat: seq<Entry>, contract: Address, d: Contract): (Token.State, seq<Token.Event>) {
    Token.Run(Token.Deployed(contract, d.cap, d.members), Messages(flat, contract))
  }

  /** The receipt status of the entry at `p`: whether its call on the contract did not revert. */
  predicate Succeeds(flat: seq<Entry>, p: nat, contract: Address, d: Contract)
    requires p < |flat|
  {
    var m := MessageTo(flat[p], contract);
    m.Some? ==> Token.Exec(Replay(flat[..p], contract, d).0, m.value.sender, m.value.now, m.value.call).Ok?
  }

  lemma {:induction false} FlatPrefix(chain: seq<Block>, n: nat)
    requires n <= |chain|
    ensures Flat(chain[..n]) <= Flat(chain)
    decreases |chain|
  {
    if n == |chain| {
      assert chain[..n] == chain;
    } else {
      var k := |chain| - 1;
      FlatPrefix(chain[..k], n);
      assert chain[..k][..n] == chain[..n];
    }
  }

  lemma {:induction false} OursPrefix(flat: seq<Entry>, n: nat)
    requires n <= |flat|
    ensures OursOf(flat[..n]) <= OursOf(flat)
    decreases |flat|
  {
    if n == |flat| {
      assert flat[..n] == flat;
    } else {
      var k := |flat| - 1;
      OursPrefix(flat[..k], n);
      assert flat[..k][..n] == flat[..n];
    }
  }

  lemma {:induction false} EventsPrefix(flat: seq<Entry>, n: nat, contract: Address, d: Contract)
    requires n <= |flat|
    ensures Replay(flat[..n], contract, d).1 <= Replay(flat, contract, d).1
    decreases |flat|
  {
    if n == |flat| {
      assert flat[..n] == flat;
    } else {
      var k := |flat| - 1;
      EventsPrefix(flat[..k], n, contract, d);
      assert flat[..k][..n] == flat[..n];
      ReplayLast(flat, contract, d);
    }
  }

  /** One more entry extends the log by what its call logs, if it addresses the contract and does not revert. */
  lemma ReplayLast(flat: seq<Entry>, contract: Address, d: Contract)
    requires flat != []
    ensures
      var k := |flat| - 1;
      var before := Replay(flat[..k], contract, d);
      var m := MessageTo(flat[k], contract);
      Replay(flat, contract, d) ==
        if m.None? then before else
          match Token.Exec(before.0, m.value.sender, m.value.now, m.value.call)
          case Ok(r) => (r.0, before.1 + r.1)
          case Revert(_) => before
  {
    var k := |flat| - 1;
    var m := MessageTo(flat[k], contract);
    if m.None? {
      assert Messages(flat, contract) == Messages(flat[..k], contract);
    } else {
      assert Messages(flat, contract)[..|Messages(flat, contract)| - 1] == Messages(flat[..k], contract);
    }
  }

  ghost predicate MintedAt(log: seq<Token.Event>, i: nat, reference: Text, recipient: Address, amount: nat) {
    && i < |log| && log[i].reference == reference && log[i].recipient == recipient && log[i].amount == amount
    && forall j :: 0 <= j < |log| && log[j].reference == reference ==> j == i
  }

  /** A successful mint in the chain is in the contract's log, and no other mint has its reference. */
  lemma MintLoggedOnce(flat: seq<Entry>, p: nat, contract: Address, d: Contract, m: Token.Message) returns (i: nat)
    requires p < |flat| && MessageTo(flat[p], contract) == Some(m) && m.call.MintWithReference?
    requires Succeeds(flat, p, contract, d)
    ensures MintedAt(Replay(flat, contract, d).1, i, m.call.reference, m.call.recipient, m.call.amount)
  {
    var before := Replay(flat[..p], contract, d);
    i := |before.1|;
    assert flat[..p + 1][..p] == flat[..p];
    ReplayLast(flat[..p + 1], contract, d);
    Token.MintExactly(before.0, m.sender, m.now, m.call);
    EventsPrefix(flat, p + 1, contract, d);
    Token.RunConserves(contract, d.cap, d.members, Messages(flat, contract));
    var log := Replay(flat, contract, d).1;
    assert log[i] == Replay(flat[..p + 1], contract, d).1[i];
    forall j | 0 <= j < |log| && log[j].reference == m.call.reference ensures j == i {
      assert Token.Once(log);
    }
  }
}
