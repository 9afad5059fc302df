/** The financial intent approvers consent to and its digest (src/domain/mint-proposal.ts). */
module MintProposal {
  import opened CanonicalJson

  /** ASCII text as code units. */
  function Ascii(s: string): (t: Text)
    requires forall i :: 0 <= i < |s| ==> s[i] < 128 as char
    ensures |t| == |s| && forall i :: 0 <= i < |s| ==> t[i] == s[i] as int
  {
    seq<Unit>(|s|, i requires 0 <= i < |s| => s[i] as int)
  }

  /** toLowerCase on the ASCII letters hexadecimal text is made of. */
  function LowerUnit(u: Unit): Unit { if 65 <= u < 91 then u + 32 else u }
  function Lower(t: Text): (r: Text) { seq(|t|, i requires 0 <= i < |t| => LowerUnit(t[i])) }

  predicate IsLower(t: Text) { Lower(t) == t }

  lemma LowerTwice(t: Text)
    ensures IsLower(Lower(t))
  {
  }

  /** Two texts agree in lower case exactly when they agree up to the case of letters. */
  lemma LowerExactly(t: Text, u: Text)
    ensures Lower(t) == Lower(u) <==> |t| == |u| && forall i: nat | i < |t| ::
              t[i] == u[i] || (65 <= t[i] < 91 && u[i] == t[i] + 32) || (65 <= u[i] < 91 && t[i] == u[i] + 32)
  {
    if |t| == |u| {
      forall i: nat | i < |t|
        ensures LowerUnit(t[i]) == LowerUnit(u[i]) <==>
                t[i] == u[i] || (65 <= t[i] < 91 && u[i] == t[i] + 32) || (65 <= u[i] < 91 && t[i] == u[i] + 32)
      {
      }
      if Lower(t) == Lower(u) {
        forall i: nat | i < |t| ensures LowerUnit(t[i]) == LowerUnit(u[i]) { assert Lower(t)[i] == Lower(u)[i]; }
      }
    } else {
      assert |Lower(t)| != |Lower(u)|;
    }
  }

  datatype Snapshot = Snapshot(
    assetId: Text, chainId: nat, contractAddress: Text, walletId: Text, recipientAddress: Text,
    amount: Text, operationReference: Text, policyVersion: nat, requiredApprovals: nat)

  /** The part of a snapshot its digest sees: addresses and reference without their letter case. */
  function Lowered(s: Snapshot): Snapshot {
    s.(contractAddress := Lower(s.contractAddress), recipientAddress := Lower(s.recipientAddress),
       operationReference := Lower(s.operationReference))
  }

  /** An object literal: names and values in the order the source writes them. */
  function Members(names: seq<Text>, values: seq<Json>): map<Text, Json>
    requires |names| == |values|
  {
    if names == [] then map[]
    else Members(names[..|names| - 1], values[..|names| - 1])[names[|names| - 1] := values[|names| - 1]]
  }

  ghost predicate Distinct(names: seq<Text>) {
    forall i, j :: 0 <= i < j < |names| ==> names[i] != names[j]
  }

  lemma {:induction false} MembersAt(names: seq<Text>, values: seq<Json>, k: nat)
    requires |names| == |values| && Distinct(names) && k < |names|
    ensures names[k] in Members(names, values) && Members(names, values)[names[k]] == values[k]
  {
    var n := |names| - 1;
    if k < n { MembersAt(names[..n], values[..n], k); }
  }

  function SnapshotNames(): seq<Text> {
    [Ascii("kind"), Ascii("assetId"), Ascii("chainId"), Ascii("contractAddress"), Ascii("walletId"),
     Ascii("recipientAddress"), Ascii("amount"), Ascii("operationReference"), Ascii("policyVersion"),
     Ascii("requiredApprovals")]
  }

  function SnapshotValues(s: Snapshot): seq<Json> {
    [JStr(Ascii("MINT")), JStr(s.assetId), JNum(s.chainId), JStr(Lower(s.contractAddress)), JStr(s.walletId),
     JStr(Lower(s.recipientAddress)), JStr(s.amount), JStr(Lower(s.operationReference)), JNum(s.policyVersion),
     JNum(s.requiredApprovals)]
  }

  function SnapshotJson(s: Snapshot): Json { JObj(Members(SnapshotNames(), SnapshotValues(s))) }

  ghost function HashMintProposal(s: Snapshot): Digest { CanonicalHash(SnapshotJson(s)) }

  /** The ten member names are pairwise different: only two share a length, and those differ in their first letter. */
  lemma SnapshotNamesDistinct()
    ensures Distinct(SnapshotNames())
  {
    var n := SnapshotNames();
    assert |n[0]| == 4 && |n[1]| == 7 && |n[2]| == 7 && |n[3]| == 15 && |n[4]| == 8;
    assert |n[5]| == 16 && |n[6]| == 6 && |n[7]| == 18 && |n[8]| == 13 && |n[9]| == 17;
    assert n[1][0] != n[2][0];
  }

  /** Proposal digests separate distinct intents, up to the lower-cased fields and no further. */
  lemma ProposalHashInjective(a: Snapshot, b: Snapshot)
    ensures HashMintProposal(a) == HashMintProposal(b) <==> Lowered(a) == Lowered(b)
  {
    CanonicalHashInjective(SnapshotJson(a), SnapshotJson(b));
    if SnapshotJson(a) == SnapshotJson(b) {
      SnapshotNamesDistinct();
      forall k: nat | k < 10 ensures SnapshotValues(a)[k] == SnapshotValues(b)[k] {
        MembersAt(SnapshotNames(), SnapshotValues(a), k);
        MembersAt(SnapshotNames(), SnapshotValues(b), k);
      }
      SameValues(a, b);
    }
  }

  lemma SameValues(a: Snapshot, b: Snapshot)
    requires forall k: nat :: k < 10 ==> SnapshotValues(a)[k] == SnapshotValues(b)[k]
    ensures Lowered(a) == Lowered(b)
  {
    var v, w := SnapshotValues(a), SnapshotValues(b);
    assert v[1] == w[1] && v[2] == w[2] && v[3] == w[3] && v[4] == w[4] && v[5] == w[5];
    assert v[6] == w[6] && v[7] == w[7] && v[8] == w[8] && v[9] == w[9];
  }

  ghost function DeriveOperationReference(operationId: Text): Digest {
    Sha256(Ascii("ito:mint:") + operationId)
  }

  /** Two operations never share a single-use reference. */
  lemma ReferenceInjective(a: Text, b: Text)
    ensures DeriveOperationReference(a) == DeriveOperationReference(b) <==> a == b
  {
    var p := Ascii("ito:mint:");
    assert (p + a)[|p|..] == a && (p + b)[|p|..] == b;
  }
}
