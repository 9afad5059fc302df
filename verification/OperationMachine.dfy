/** The operation state machine (src/domain/operation-state.ts) and what every path of its table must pass through. */
module OperationMachine {

  datatype OpState =
    | PendingApproval | Ready | Preparing | Signing | Signed | Broadcasting | BroadcastUnknown
    | Submitted | Included | Succeeded | Reverted | Failed | Cancelled

  function Allowed(from: OpState): set<OpState> {
    match from
    case PendingApproval => {Ready, Cancelled, Failed}
    case Ready => {Preparing, Cancelled, Failed}
    case Preparing => {Signing, Ready, Failed}
    case Signing => {Signed, Failed}
    case Signed => {Broadcasting, Failed}
    case Broadcasting => {Submitted, BroadcastUnknown, Failed}
    case BroadcastUnknown => {Broadcasting, Submitted, Included, Failed}
    case Submitted => {Included, BroadcastUnknown}
    case Included => {Succeeded, Reverted, Submitted}
    case Succeeded => {}
    case Reverted => {}
    case Failed => {}
    case Cancelled => {}
  }

  predicate CanTransition(from: OpState, to: OpState) { to in Allowed(from) }

  predicate Terminal(s: OpState) { s.Succeeded? || s.Reverted? || s.Failed? || s.Cancelled? }

  /** The states failOperation refuses to overwrite: value may already be on its way, or the operation is terminal. */
  predicate Protected(s: OpState) {
    s.Broadcasting? || s.BroadcastUnknown? || s.Submitted? || s.Included? || Terminal(s)
  }

  /** Nothing has been signed yet. */
  predicate Unsigned(s: OpState) { s.PendingApproval? || s.Ready? || s.Preparing? || s.Signing? }

  /** Where each state can be entered from; READY and PENDING_APPROVAL are also initial. */
  function EnteredFrom(to: OpState): set<OpState> {
    match to
    case PendingApproval => {}
    case Ready => {PendingApproval, Preparing}
    case Preparing => {Ready}
    case Signing => {Preparing}
    case Signed => {Signing}
    case Broadcasting => {Signed, BroadcastUnknown}
    case BroadcastUnknown => {Broadcasting, Submitted}
    case Submitted => {Broadcasting, BroadcastUnknown, Included}
    case Included => {BroadcastUnknown, Submitted}
    case Succeeded => {Included}
    case Reverted => {Included}
    case Failed => {PendingApproval, Ready, Preparing, Signing, Signed, Broadcasting, BroadcastUnknown}
    case Cancelled => {PendingApproval, Ready}
  }

  /** The table read backwards; the terminal states are exactly those nothing leads out of, and failOperation spares
      exactly those that are neither unsigned nor SIGNED. */
  lemma TableExactly(s: OpState, t: OpState)
    ensures CanTransition(s, t) <==> s in EnteredFrom(t)
    ensures Terminal(s) <==> forall u :: !CanTransition(s, u)
    ensures Protected(s) <==> !Unsigned(s) && s != Signed
  {
    assert Terminal(s) || CanTransition(s, if s.PendingApproval? then Cancelled else if s.Submitted? then Included else if s.Included?
                                           then Succeeded else Failed);
  }

  ghost predicate IsPath(log: seq<OpState>) {
    && log != []
    && (log[0].PendingApproval? || log[0].Ready?)
    && forall i :: 0 < i < |log| ==> CanTransition(log[i - 1], log[i])
  }

  /** a, then later b, then later c. */
  ghost predicate InOrder(log: seq<OpState>, a: OpState, b: OpState, c: OpState) {
    exists i, j, k :: 0 <= i < j < k < |log| && log[i] == a && log[j] == b && log[k] == c
  }

  lemma TerminalIsLast(log: seq<OpState>, i: nat)
    requires IsPath(log) && i < |log| && Terminal(log[i])
    ensures i == |log| - 1
  {
    assert i + 1 < |log| ==> CanTransition(log[i + 1 - 1], log[i + 1]);
  }

  /** Once something was signed, the operation never returns to a state in which nothing was. */
  lemma {:induction false} UnsignedIsPrefix(log: seq<OpState>, i: nat, j: nat)
    requires IsPath(log) && i <= j < |log| && !Unsigned(log[i])
    ensures !Unsigned(log[j])
    decreases j - i
  {
    if i < j {
      assert CanTransition(log[i + 1 - 1], log[i + 1]);
      UnsignedIsPrefix(log, i + 1, j);
    }
  }

  lemma SigningOnce(log: seq<OpState>, i: nat, j: nat)
    requires IsPath(log) && i < j < |log| && log[i].Signing?
    ensures !log[j].Signing?
  {
    assert CanTransition(log[i + 1 - 1], log[i + 1]);
    UnsignedIsPrefix(log, i + 1, j);
  }

  /** The latest entry before `k` in one of the states that lead to `log[k]`. */
  lemma {:induction false} CameThroughBroadcasting(log: seq<OpState>, k: nat) returns (j: nat)
    requires IsPath(log) && k < |log|
    requires log[k].Broadcasting? || log[k].BroadcastUnknown? || log[k].Submitted? || log[k].Included?
    ensures j <= k && log[j].Broadcasting? && j > 0 && log[j - 1].Signed?
  {
    assert CanTransition(log[k - 1], log[k]);
    if log[k].Broadcasting? && log[k - 1].Signed? {
      j := k;
    } else {
      j := CameThroughBroadcasting(log, k - 1);
    }
  }

  /** A success was signed, then broadcast, then included, in that order, whatever else happened in between. */
  lemma SuccessPassesThrough(log: seq<OpState>)
    requires IsPath(log) && log[|log| - 1].Succeeded?
    ensures InOrder(log, Signed, Broadcasting, Included)
  {
    var n := |log| - 1;
    assert CanTransition(log[n - 1], log[n]);
    var j := CameThroughBroadcasting(log, n - 1);
    assert log[j - 1] == Signed && log[j] == Broadcasting && log[n - 1] == Included;
  }

  /** SIGNED never recurs: it is entered from SIGNING only. */
  lemma SignedOnce(log: seq<OpState>, i: nat, j: nat)
    requires IsPath(log) && i < j < |log| && log[i].Signed?
    ensures !log[j].Signed?
  {
    assert CanTransition(log[j - 1], log[j]);
    UnsignedIsPrefix(log, i, j - 1);
  }

  /** SIGNED and then at once BROADCASTING. */
  ghost predicate WasBroadcast(log: seq<OpState>) {
    exists k: nat :: 0 < k < |log| && log[k - 1].Signed? && log[k].Broadcasting?
  }

  /** The operation was failed straight from SIGNED. */
  predicate FailedFromSigned(log: seq<OpState>) {
    |log| > 1 && log[|log| - 2].Signed? && log[|log| - 1].Failed?
  }

  /** A signed operation that failOperation would no longer touch was broadcast, unless it was failed straight from
      SIGNED, and only then. */
  lemma BroadcastUnlessFailed(log: seq<OpState>)
    requires IsPath(log) && Signed in log && Protected(log[|log| - 1])
    ensures WasBroadcast(log) <==> !FailedFromSigned(log)
  {
    var j: nat :| j < |log| && log[j].Signed?;
    assert CanTransition(log[j + 1 - 1], log[j + 1]);
    if log[j + 1].Failed? {
      TerminalIsLast(log, j + 1);
    }
    if WasBroadcast(log) && FailedFromSigned(log) {
      var k: nat :| 0 < k < |log| && log[k - 1].Signed? && log[k].Broadcasting?;
      if k - 1 < |log| - 2 { SignedOnce(log, k - 1, |log| - 2); }
    }
  }

  /** CANCELLED is entered only from states in which nothing was signed. */
  lemma CancelledNeverSigned(log: seq<OpState>, i: nat)
    requires IsPath(log) && i < |log| && log[|log| - 1].Cancelled?
    ensures !log[i].Signing? && !log[i].Signed?
  {
    var n := |log| - 1;
    assert CanTransition(log[n - 1], log[n]);
    if i < n && !Unsigned(log[i]) { UnsignedIsPrefix(log, i, n - 1); }
    if i < n && log[i].Signing? {
      assert CanTransition(log[i + 1 - 1], log[i + 1]);
      UnsignedIsPrefix(log, i + 1, n - 1);
    }
  }
}
