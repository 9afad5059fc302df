/** Admission of mints: idempotent requests create them, people approve them, and the two together let one key bring
    about at most one mint to execute (src/modules/operations/mint-service.ts). */
module Admission {
  import opened CanonicalJson
  import A = Approvals
  import I = Idempotency
  import M = OperationMachine

  /** Operation `o` of one part is operation `o` of the other: the work of a request inserts both in one transaction. */
  datatype State = State(requests: I.State, approvals: A.Db)

  /** `required` and `hash` are of the proposal the work writes, if it commits; its requester is the key's actor. */
  datatype Label =
    | Requests(l: I.Label, required: nat, hash: Digest)
    | Approves(e: A.Event)

  ghost predicate WellFormed(s: State) { A.WellFormed(s.approvals) }

  /** A request's step, and the mint its work inserts if this step commits it. */
  ghost function Request(s: State, l: I.Label, required: nat, hash: Digest): State
    requires WellFormed(s)
  {
    var t := I.Step(s.requests, l);
    State(t, if |t.ops| > |s.requests.ops|
             then A.Step(s.approvals, A.RequestMint(t.ops[|t.ops| - 1].k.actor, required, hash))
             else s.approvals)
  }

  ghost function Step(s: State, l: Label): State
    requires WellFormed(s)
  {
    match l
    case Requests(r, required, hash) => Request(s, r, required, hash)
    case Approves(e) => if e.RequestMint? then s else s.(approvals := A.Step(s.approvals, e))
  }

  lemma StepWellFormed(s: State, l: Label)
    requires WellFormed(s)
    ensures WellFormed(Step(s, l))
  {
    match l
    case Requests(r, required, hash) =>
      var t := I.Step(s.requests, r);
      if |t.ops| > |s.requests.ops| { A.StepWellFormed(s.approvals, A.RequestMint(t.ops[|t.ops| - 1].k.actor, required, hash)); }
    case Approves(e) => A.StepWellFormed(s.approvals, e);
  }

  ghost function Run(labels: seq<Label>): (s: State)
    ensures WellFormed(s)
  {
    if labels == [] then State(I.Init(), A.Run([])) else
      var before := Run(labels[..|labels| - 1]);
      StepWellFormed(before, labels[|labels| - 1]);
      Step(before, labels[|labels| - 1])
  }

  // ---------- both parts run by themselves ----------

  function RequestLabels(labels: seq<Label>): seq<I.Label> {
    if labels == [] then [] else
      RequestLabels(labels[..|labels| - 1]) +
      match labels[|labels| - 1] case Requests(l, _, _) => [l] case Approves(_) => []
  }

  /** A history of approvals whose outcome is this state. */
  ghost predicate History(db: A.Db, events: seq<A.Event>) { A.Run(events) == db }

  lemma ApprovalsNext(events: seq<A.Event>, e: A.Event)
    ensures A.Run(events + [e]) == A.Step(A.Run(events), e)
  {
    A.RunNext(events, e);
  }

  lemma RequestsNext(labels: seq<I.Label>, l: I.Label)
    ensures I.Run(labels + [l]) == I.Step(I.Run(labels), l)
  {
    I.RunNext(labels, l);
  }

  /** A request's step commits at most one operation. */
  lemma OneMore(s: I.State, l: I.Label)
    ensures var t := I.Step(s, l);
            t.ops == s.ops || (|t.ops| == |s.ops| + 1 && t.ops[..|s.ops|] == s.ops)
  {
  }

  /** Row by row the two parts speak of the same operations, requested by the actor their key belongs to. */
  ghost predicate Linked(s: State) {
    && |s.approvals.ops| == |s.requests.ops| == |s.approvals.requests|
    && forall o: nat | o < |s.requests.ops| :: s.approvals.requests[o].requester == s.requests.ops[o].k.actor
  }

  lemma RequestLinks(s: State, l: I.Label, required: nat, hash: Digest)
    requires WellFormed(s) && Linked(s)
    ensures Linked(Request(s, l, required, hash))
  {
    hide I.Step;
    OneMore(s.requests, l);
    var t := I.Step(s.requests, l);
    forall o: nat | o < |s.requests.ops| ensures t.ops[o] == s.requests.ops[o] {
      if |t.ops| > |s.requests.ops| { assert t.ops[o] == t.ops[..|s.requests.ops|][o]; }
    }
  }

  lemma {:induction false} Projects(labels: seq<Label>) returns (events: seq<A.Event>)
    ensures var s := Run(labels);
            s.requests == I.Run(RequestLabels(labels)) && History(s.approvals, events) && Linked(s)
  {
    if labels == [] {
      events := [];
    } else {
      hide I.Run, I.Step, A.Run, A.Step, Linked, WellFormed;
      var n := |labels| - 1;
      var before := Run(labels[..n]);
      events := Projects(labels[..n]);
      match labels[n]
      case Requests(l, required, hash) =>
        RequestsNext(RequestLabels(labels[..n]), l);
        RequestLinks(before, l, required, hash);
        var t := I.Step(before.requests, l);
        if |t.ops| > |before.requests.ops| {
          var e := A.RequestMint(t.ops[|t.ops| - 1].k.actor, required, hash);
          ApprovalsNext(events, e);
          events := events + [e];
        }
      case Approves(e) =>
        assert RequestLabels(labels) == RequestLabels(labels[..n]);
        if !e.RequestMint? {
          ApprovalsNext(events, e);
          ApprovalLinks(before, e);
          events := events + [e];
        }
    }
  }

  lemma ApprovalLinks(s: State, e: A.Event)
    requires WellFormed(s) && Linked(s) && !e.RequestMint?
    ensures Linked(s.(approvals := A.Step(s.approvals, e)))
  {
    hide A.Step;
    SamePeople(s.approvals, e);
  }

  lemma SamePeople(db: A.Db, e: A.Event)
    requires A.WellFormed(db) && !e.RequestMint?
    ensures var t := A.Step(db, e);
            && |t.ops| == |db.ops| && |t.requests| == |db.requests|
            && forall r: nat | r < |db.requests| :: t.requests[r].requester == db.requests[r].requester
  {
  }

  // ---------- what admission promises ----------

  /** When failed transactions did not commit, a key brings about at most one mint: of the operations its requests
      committed, however many there were and whatever people decided, at most one exists. Once READY it has the required
      approvals of different people, none of them the actor the key belongs to, none against, and one outbox row. */
  lemma OneReadyMintPerKey(labels: seq<Label>, o: nat, r: nat)
    requires I.Honest(RequestLabels(labels))
    requires
      var s := Run(labels);
      o < |s.requests.ops| && r < |s.requests.ops| && s.requests.ops[o].k == s.requests.ops[r].k
    ensures o == r
    ensures var s := Run(labels);
            && o < |s.approvals.ops| && o < |s.approvals.requests|
            && (M.Ready in s.approvals.ops[o] ==>
                  var q := s.approvals.requests[o];
                  && |A.Approvers(s.approvals.decisions, o)| >= q.required
                  && s.requests.ops[o].k.actor !in A.Approvers(s.approvals.decisions, o)
                  && (forall d | d in s.approvals.decisions && d.request == o :: d.approve && d.hash == q.hash == d.current)
                  && A.Times(s.approvals.outbox, o) == 1)
            && (M.Ready !in s.approvals.ops[o] ==> A.Times(s.approvals.outbox, o) == 0)
  {
    hide Run, I.Run, A.Run;
    var events := Projects(labels);
    var s := Run(labels);
    A.ReadyMeansApproved(events, o);
    I.OneOperationPerKey(RequestLabels(labels), s.requests.ops[o].k, 0, 0);
    if o < r { I.OneOf(s.requests.ops, o, r); }
    if r < o { I.OneOf(s.requests.ops, r, o); }
  }
}
