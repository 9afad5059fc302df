/** What a transaction is authorised to do, and fee-only replacement (src/modules/transactions/transaction-intent.ts). */
module TransactionIntent {
  import opened CanonicalJson
  import opened MintProposal

  datatype Intent = Intent(
    chainId: nat, from: Text, to: Option<Text>, data: Text, value: Text, purpose: Text, operationId: Option<Text>)

  function LowerOption(t: Option<Text>): Option<Text> { if t.None? then None else Some(Lower(t.value)) }

  function Lowered(i: Intent): Intent {
    i.(from := Lower(i.from), to := LowerOption(i.to), data := Lower(i.data))
  }

  function OptionJson(t: Option<Text>): Json { if t.None? then JNull else JStr(t.value) }

  function IntentNames(): seq<Text> {
    [Ascii("chainId"), Ascii("from"), Ascii("to"), Ascii("data"), Ascii("value"), Ascii("purpose"), Ascii("operationId")]
  }

  function IntentValues(i: Intent): seq<Json> {
    [JNum(i.chainId), JStr(Lower(i.from)), OptionJson(LowerOption(i.to)), JStr(Lower(i.data)), JStr(i.value),
     JStr(i.purpose), OptionJson(i.operationId)]
  }

  ghost function IntentFingerprint(i: Intent): Digest {
    CanonicalHash(JObj(Members(IntentNames(), IntentValues(i))))
  }

  lemma IntentNamesDistinct()
    ensures Distinct(IntentNames())
  {
    var n := IntentNames();
    assert |n[0]| == 7 && |n[1]| == 4 && |n[2]| == 2 && |n[3]| == 4 && |n[4]| == 5 && |n[5]| == 7 && |n[6]| == 11;
    assert n[0][0] != n[5][0] && n[1][0] != n[3][0];
  }

  /** Attempts sharing a fingerprint carry the same intent, and only those. */
  lemma FingerprintInjective(a: Intent, b: Intent)
    ensures IntentFingerprint(a) == IntentFingerprint(b) <==> Lowered(a) == Lowered(b)
  {
    var m, n := Members(IntentNames(), IntentValues(a)), Members(IntentNames(), IntentValues(b));
    CanonicalHashInjective(JObj(m), JObj(n));
    if m == n {
      IntentNamesDistinct();
      forall k: nat | k < 7 ensures IntentValues(a)[k] == IntentValues(b)[k] {
        MembersAt(IntentNames(), IntentValues(a), k);
        MembersAt(IntentNames(), IntentValues(b), k);
      }
      var v, w := IntentValues(a), IntentValues(b);
      assert v[0] == w[0] && v[1] == w[1] && v[2] == w[2] && v[3] == w[3] && v[4] == w[4] && v[5] == w[5] && v[6] == w[6];
    }
  }

  /** The columns of a stored attempt that replacement reads. */
  datatype Stored = Stored(nonce: nat, intent: Intent, fingerprint: Option<Digest>)

  datatype Field = Nonce | ChainId | Signer | Destination | Calldata | Value | Purpose | Operation | Fingerprint

  /** assertFeeOnlyReplacement: the first field a replacement would change. */
  ghost function FeeOnlyMismatch(previous: Stored, nonce: nat, next: Intent): Option<Field> {
    var p := previous.intent;
    if nonce != previous.nonce then Some(Nonce)
    else if next.chainId != p.chainId then Some(ChainId)
    else if Lower(next.from) != Lower(p.from) then Some(Signer)
    else if LowerOption(next.to) != p.to then Some(Destination)
    else if Lower(next.data) != p.data then Some(Calldata)
    else if next.value != p.value then Some(Value)
    else if next.purpose != p.purpose then Some(Purpose)
    else if next.operationId != p.operationId then Some(Operation)
    else if IntentFingerprint(next) != IntentFingerprint(p)
         || (previous.fingerprint.Some? && previous.fingerprint.value != IntentFingerprint(p)) then Some(Fingerprint)
    else None
  }

  /** The row is in the letter case insertPreparedAttempt stores. */
  predicate StoredLower(p: Intent) { LowerOption(p.to) == p.to && Lower(p.data) == p.data }

  /** A replacement is let through exactly when nonce and intent are those of the stored row and the recorded
      fingerprint, if any, was not tampered with: nothing but fees can differ. */
  lemma FeeOnlyExactly(previous: Stored, nonce: nat, next: Intent)
    requires StoredLower(previous.intent)
    ensures FeeOnlyMismatch(previous, nonce, next).None? <==>
      && nonce == previous.nonce
      && IntentFingerprint(next) == IntentFingerprint(previous.intent)
      && (previous.fingerprint.Some? ==> previous.fingerprint.value == IntentFingerprint(previous.intent))
  {
    FingerprintInjective(next, previous.intent);
  }

  // ---------- fees ----------

  datatype Fees = Fees(maxFee: nat, priority: nat)

  predicate Ordered(f: Fees) { f.priority <= f.maxFee }

  function Max(a: nat, b: nat): nat { if a > b then a else b }

  /** getFeeEstimate on what the node reported (src/adapters/evm/viem-evm-gateway.ts): never less than it reported, and
      no more than that and the order of the two need. */
  function FeeEstimate(maxFee: Option<nat>, priority: Option<nat>): (f: Fees)
    ensures Ordered(f)
    ensures f.priority == match priority case Some(p) => p case None => 1_000_000_000
    ensures match maxFee
            case Some(m) => f.maxFee >= m && (f.maxFee == m || f.maxFee == f.priority)
            case None => f.maxFee == 2 * f.priority
  {
    var p := if priority.Some? then priority.value else 1_000_000_000;
    var m := if maxFee.Some? then maxFee.value else 2 * p;
    Fees(if m > p then m else p, p)
  }

  function Scale(value: nat, bump: nat): nat { value * (100 + bump) / 100 + 1 }

  function BumpFees(previous: Fees, current: Fees, bump: nat): Fees {
    Fees(Max(Scale(previous.maxFee, bump), current.maxFee), Max(Scale(previous.priority, bump), current.priority))
  }

  lemma ScaleRises(value: nat, bump: nat)
    ensures 100 * Scale(value, bump) > value * (100 + bump) >= 100 * value
    ensures 100 * (Scale(value, bump) - 1) <= value * (100 + bump)
  {
    assert value * (100 + bump) == 100 * value + value * bump;
  }

  /** A fee is at least the market's, and no more than the market's or the bump demands. */
  predicate Priced(fee: nat, previous: nat, market: nat, bump: nat) {
    fee >= market && (fee == market || 100 * (fee - 1) <= previous * (100 + bump))
  }

  lemma ScaleMonotone(a: nat, b: nat, bump: nat)
    requires a <= b
    ensures Scale(a, bump) <= Scale(b, bump)
  {
    assert a * (100 + bump) <= b * (100 + bump);
  }

  /** replaceFees refuses a replacement that does not raise both fields; the sweep's always does. Both fields are at least
      the market's and rise no further than that or the bump needs, and they stay in the order the signed-transaction
      check demands. */
  lemma BumpRises(previous: Fees, current: Fees, bump: nat)
    ensures var f := BumpFees(previous, current, bump);
            && f.maxFee > previous.maxFee && f.priority > previous.priority
            && 100 * f.maxFee >= previous.maxFee * (100 + bump) && 100 * f.priority >= previous.priority * (100 + bump)
            && Priced(f.maxFee, previous.maxFee, current.maxFee, bump)
            && Priced(f.priority, previous.priority, current.priority, bump)
            && (Ordered(previous) && Ordered(current) ==> Ordered(f))
  {
    ScaleRises(previous.maxFee, bump);
    ScaleRises(previous.priority, bump);
    if Ordered(previous) { ScaleMonotone(previous.priority, previous.maxFee, bump); }
  }

  /** Fees after replacing once per market estimate. */
  function FeesAfter(first: Fees, estimates: seq<Fees>, bump: nat): Fees {
    if estimates == [] then first
    else BumpFees(FeesAfter(first, estimates[..|estimates| - 1], bump), estimates[|estimates| - 1], bump)
  }

  function Pow(b: nat, e: nat): nat { if e == 0 then 1 else b * Pow(b, e - 1) }

  lemma Compound(p: nat, q: nat, f: nat, g: nat, first: nat, b: nat)
    requires p * f >= q * first && 100 * g >= f * b
    ensures 100 * p * g >= b * q * first
  {
    calc {
      100 * p * g;
      p * (100 * g);
    >= { assert p * (100 * g) >= p * (f * b); }
      p * (f * b);
      (p * f) * b;
    >= { assert (p * f) * b >= (q * first) * b; }
      (q * first) * b;
      b * q * first;
    }
  }

  /** Along a whole chain of k replacements both fees have grown by at least (100 + bump) percent k times over. */
  lemma {:induction false} CompoundFees(first: Fees, estimates: seq<Fees>, bump: nat)
    ensures var f := FeesAfter(first, estimates, bump);
            var k := |estimates|;
            && Pow(100, k) * f.maxFee >= Pow(100 + bump, k) * first.maxFee
            && Pow(100, k) * f.priority >= Pow(100 + bump, k) * first.priority
            && (Ordered(first) && (forall i :: 0 <= i < k ==> Ordered(estimates[i])) ==> Ordered(f))
  {
    var k := |estimates|;
    if k > 0 {
      var before := estimates[..k - 1];
      CompoundFees(first, before, bump);
      var f := FeesAfter(first, before, bump);
      var g := FeesAfter(first, estimates, bump);
      BumpRises(f, estimates[k - 1], bump);
      Compound(Pow(100, k - 1), Pow(100 + bump, k - 1), f.maxFee, g.maxFee, first.maxFee, 100 + bump);
      Compound(Pow(100, k - 1), Pow(100 + bump, k - 1), f.priority, g.priority, first.priority, 100 + bump);
    }
  }
}
