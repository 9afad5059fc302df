/** Two-person approval of mints (src/modules/approvals/approval-service.ts, src/domain/approval-state.ts): decisions on
    a locked request, bound to the hash of the proposal, and the outbox row that follows the last one. */
module Approvals {
  import opened CanonicalJson
  import opened MintProposal
  import M = OperationMachine

  type Person = Text

  datatype RequestState = Open | Approved | Rejected | Superseded

  datatype Request = Request(op: nat, requester: Person, required: nat, hash: Digest, state: RequestState)

  /** `current` is the hash the proposal had when the decision was recorded; it is history, not a column. */
  datatype Decision = Decision(request: nat, approver: Person, approve: bool, hash: Digest, current: Digest)

  /** Each operation by its transition log. */
  datatype Db = Db(ops: seq<seq<M.OpState>>, requests: seq<Request>, decisions: seq<Decision>, outbox: seq<nat>)

  datatype Failure = NotFound | RequestClosed | SelfApproval | InvalidTransition | OperationConflict | AlreadyRecorded

  datatype Result = Ok(db: Db) | Err(failure: Failure)

  predicate WellFormed(db: Db) {
    && (forall o: nat :: o < |db.ops| ==> db.ops[o] != [])
    && (forall r: nat :: r < |db.requests| ==> db.requests[r].op < |db.ops|)
  }

  function State(log: seq<M.OpState>): M.OpState
    requires log != []
  {
    log[|log| - 1]
  }

  // ---------- the tally ----------

  ghost function Approvers(decisions: seq<Decision>, r: nat): set<Person> {
    set d | d in decisions && d.request == r && d.approve :: d.approver
  }

  function ApproverIds(decisions: seq<Decision>, r: nat): set<Person> {
    if decisions == [] then {}
    else
      var d := decisions[|decisions| - 1];
      ApproverIds(decisions[..|decisions| - 1], r) + if d.request == r && d.approve then {d.approver} else {}
  }

  predicate HasRejection(decisions: seq<Decision>, r: nat) {
    exists d :: d in decisions && d.request == r && !d.approve
  }

  /** One more decision adds its approver, if it approves this request. */
  lemma OneMoreApprover(decisions: seq<Decision>, d: Decision, r: nat)
    ensures Approvers(decisions + [d], r) == Approvers(decisions, r) + if d.request == r && d.approve then {d.approver} else {}
  {
    var all, more := decisions + [d], if d.request == r && d.approve then {d.approver} else {};
    forall p | p in Approvers(all, r) ensures p in Approvers(decisions, r) + more {
      var x :| x in all && x.request == r && x.approve && x.approver == p;
      assert x in decisions || x == d;
    }
    forall p | p in Approvers(decisions, r) ensures p in Approvers(all, r) {
      var x :| x in decisions && x.request == r && x.approve && x.approver == p;
      assert x in all;
    }
    assert d in all;
  }

  lemma {:induction false} IdsAreApprovers(decisions: seq<Decision>, r: nat)
    ensures ApproverIds(decisions, r) == Approvers(decisions, r)
  {
    if decisions != [] {
      hide Approvers;
      var n := |decisions| - 1;
      IdsAreApprovers(decisions[..n], r);
      OneMoreApprover(decisions[..n], decisions[n], r);
      assert decisions == decisions[..n] + [decisions[n]];
    } else {
      NoApprovers(r);
    }
  }

  lemma NoApprovers(r: nat)
    ensures Approvers([], r) == {}
  {
  }

  datatype Outcome = OutPending(remaining: nat) | OutApproved | OutRejected

  /** evaluateApprovalOutcome over the decisions of request `r`. */
  function Evaluate(required: nat, decisions: seq<Decision>, r: nat): Outcome {
    if HasRejection(decisions, r) then OutRejected
    else if |ApproverIds(decisions, r)| >= required then OutApproved
    else OutPending(required - |ApproverIds(decisions, r)|)
  }

  /** An approval needs the required number of different approvers and no rejection, and nothing else. */
  lemma ApprovedExactly(required: nat, decisions: seq<Decision>, r: nat)
    ensures Evaluate(required, decisions, r).OutApproved? <==>
            |Approvers(decisions, r)| >= required && forall d | d in decisions && d.request == r :: d.approve
  {
    IdsAreApprovers(decisions, r);
  }

  // ---------- the transaction ----------

  /** approval_decisions_one_per_approver. */
  predicate Decided(decisions: seq<Decision>, r: nat, actor: Person) {
    exists d :: d in decisions && d.request == r && d.approver == actor
  }

  /** recordDecision. `current` is the hash of the proposal rebuilt from the rows as they are. */
  function Decide(db: Db, r: nat, actor: Person, approve: bool, current: Digest): Result
    requires WellFormed(db)
  {
    if r >= |db.requests| then Err(NotFound) else
      var q := db.requests[r];
      if !q.state.Open? then Err(RequestClosed)
      else if q.requester == actor then Err(SelfApproval)
      else if State(db.ops[q.op]) != M.PendingApproval then Err(InvalidTransition)
      else if current != q.hash then Err(OperationConflict)
      else if Decided(db.decisions, r, actor) then Err(AlreadyRecorded)
      else
        var decisions := db.decisions + [Decision(r, actor, approve, q.hash, current)];
        var d := db.(decisions := decisions);
        Ok(match Evaluate(q.required, decisions, r)
           case OutPending(_) => d
           case OutApproved =>
             d.(requests := d.requests[r := q.(state := Approved)], ops := d.ops[q.op := d.ops[q.op] + [M.Ready]],
                outbox := d.outbox + [q.op])
           case OutRejected =>
             d.(requests := d.requests[r := q.(state := Rejected)], ops := d.ops[q.op := d.ops[q.op] + [M.Cancelled]]))
  }

  class ApprovalService {
    var ops: seq<seq<M.OpState>>
    var requests: seq<Request>
    var decisions: seq<Decision>
    var outbox: seq<nat>

    function Tables(): Db
      reads this
    {
      Db(ops, requests, decisions, outbox)
    }

    constructor ()
      ensures Tables() == Db([], [], [], [])
    {
      ops, requests, decisions, outbox := [], [], [], [];
    }

    /** The checks in their order, the decision, and what its tally leads to. The close of a superseded request is part
        of the transaction that its error rolls back. */
    method RecordDecision(r: nat, actor: Person, approve: bool, current: Digest) returns (failure: Option<Failure>)
      requires WellFormed(Tables())
      modifies this
      ensures var result := Decide(old(Tables()), r, actor, approve, current);
              match result
              case Ok(db) => failure.None? && Tables() == db
              case Err(e) => failure == Some(e) && Tables() == old(Tables())
    {
      if r >= |requests| { return Some(NotFound); }
      var request := requests[r];
      if request.state != Open { return Some(RequestClosed); }
      if request.requester == actor { return Some(SelfApproval); }
      var state := State(ops[request.op]);
      if state != M.PendingApproval { return Some(InvalidTransition); }
      if current != request.hash {
        var before := requests;
        requests := requests[r := request.(state := Superseded)];
        requests := before;
        return Some(OperationConflict);
      }
      if Decided(decisions, r, actor) { return Some(AlreadyRecorded); }
      decisions := decisions + [Decision(r, actor, approve, request.hash, current)];
      var outcome := Evaluate(request.required, decisions, r);
      if outcome.OutApproved? {
        requests := requests[r := request.(state := Approved)];
        ops := ops[request.op := ops[request.op] + [M.Ready]];
        outbox := outbox + [request.op];
      } else if outcome.OutRejected? {
        requests := requests[r := request.(state := Rejected)];
        ops := ops[request.op := ops[request.op] + [M.Cancelled]];
      }
      failure := None;
    }
  }

  // ---------- every history ----------

  /** Mint requests, decisions by anyone on anything, and any later transition of an operation but its approval. */
  datatype Event =
    | RequestMint(requester: Person, required: nat, hash: Digest)
    | RecordDecision(request: nat, actor: Person, approve: bool, current: Digest)
    | Transition(op: nat, to: M.OpState)

  function Step(db: Db, e: Event): Db
    requires WellFormed(db)
  {
    match e
    case RequestMint(requester, required, hash) =>
      db.(ops := db.ops + [[M.PendingApproval]], requests := db.requests + [Request(|db.ops|, requester, required, hash, Open)])
    case RecordDecision(r, actor, approve, current) =>
      var result := Decide(db, r, actor, approve, current);
      if result.Ok? then result.db else db
    case Transition(o, to) =>
      if o < |db.ops| && M.CanTransition(State(db.ops[o]), to) && !(State(db.ops[o]).PendingApproval? && to.Ready?)
      then db.(ops := db.ops[o := db.ops[o] + [to]]) else db
  }

  function Run(events: seq<Event>): (db: Db)
    ensures WellFormed(db)
  {
    if events == [] then Db([], [], [], [])
    else
      var before := Run(events[..|events| - 1]);
      StepWellFormed(before, events[|events| - 1]);
      Step(before, events[|events| - 1])
  }

  lemma StepWellFormed(db: Db, e: Event)
    requires WellFormed(db)
    ensures WellFormed(Step(db, e))
  {
  }

  function Times(outbox: seq<nat>, o: nat): nat {
    if outbox == [] then 0 else Times(outbox[..|outbox| - 1], o) + if outbox[|outbox| - 1] == o then 1 else 0
  }

  /** What a decision was checked against. */
  predicate DecisionOk(db: Db, d: Decision) {
    && d.request < |db.requests|
    && d.approver != db.requests[d.request].requester
    && d.hash == db.requests[d.request].hash && d.current == d.hash
  }

  ghost predicate RequestOk(db: Db, r: nat)
    requires r < |db.requests| && db.requests[r].op < |db.ops|
  {
    var q := db.requests[r];
    && (q.state.Approved? ==> |Approvers(db.decisions, r)| >= q.required)
    && (q.state.Open? || q.state.Approved? ==> forall d | d in db.decisions && d.request == r :: d.approve)
    && !q.state.Superseded?
    && (q.state.Approved? <==> M.Ready in db.ops[q.op])
    && Times(db.outbox, q.op) == (if q.state.Approved? then 1 else 0)
  }

  ghost predicate Inv(db: Db) {
    && WellFormed(db)
    && |db.requests| == |db.ops|
    && (forall r: nat :: r < |db.requests| ==> db.requests[r].op == r && RequestOk(db, r))
    && (forall d :: d in db.decisions ==> DecisionOk(db, d))
    && (forall o: nat :: o >= |db.ops| ==> Times(db.outbox, o) == 0)
    && (forall o: nat :: o < |db.ops| ==> M.IsPath(db.ops[o]) && db.ops[o][0].PendingApproval?)
  }

  lemma RequestKeeps(db: Db, requester: Person, required: nat, hash: Digest)
    requires Inv(db)
    ensures Inv(Step(db, RequestMint(requester, required, hash)))
  {
    var e := Step(db, RequestMint(requester, required, hash));
    forall r: nat | r < |e.requests| ensures e.requests[r].op == r && RequestOk(e, r) {
      if r < |db.requests| { assert RequestOk(db, r); }
    }
  }

  lemma LongerPath(log: seq<M.OpState>, to: M.OpState)
    requires M.IsPath(log) && M.CanTransition(State(log), to)
    ensures M.IsPath(log + [to])
    ensures to.Ready? ==> State(log).PendingApproval? || M.Ready in log
  {
    var longer := log + [to];
    forall i | 0 < i < |longer| ensures M.CanTransition(longer[i - 1], longer[i]) {
      if i < |log| { assert M.CanTransition(log[i - 1], log[i]); }
    }
    if State(log).Preparing? { assert M.CanTransition(log[|log| - 1 - 1], log[|log| - 1]); }
  }

  lemma TransitionKeeps(db: Db, o: nat, to: M.OpState)
    requires Inv(db)
    ensures Inv(Step(db, Transition(o, to)))
  {
    hide M.IsPath;
    var e := Step(db, Transition(o, to));
    if e != db {
      LongerPath(db.ops[o], to);
      forall r: nat | r < |e.requests| ensures e.requests[r].op == r && RequestOk(e, r) { assert RequestOk(db, r); }
    }
  }

  /** An accepted decision keeps all of it; a refused one changes nothing. */
  lemma DecideKeeps(db: Db, r: nat, actor: Person, approve: bool, current: Digest)
    requires Inv(db) && Decide(db, r, actor, approve, current).Ok?
    ensures Inv(Decide(db, r, actor, approve, current).db)
  {
    hide M.IsPath, Approvers, Times;
    var e := Decide(db, r, actor, approve, current).db;
    var d := Decision(r, actor, approve, db.requests[r].hash, current);
    LongerPath(db.ops[r], M.Ready);
    LongerPath(db.ops[r], M.Cancelled);
    ApprovedExactly(db.requests[r].required, e.decisions, r);
    MoreTimes(db.outbox, r);
    PendingHasNoReady(db.ops[r]);
    assert RequestOk(db, r);
    forall k: nat | k < |e.requests| ensures e.requests[k].op == k && RequestOk(e, k) {
      assert RequestOk(db, k);
      if k != r { OneMoreApprover(db.decisions, d, k); }
    }
    forall x | x in e.decisions ensures DecisionOk(e, x) {
      if x in db.decisions { assert DecisionOk(db, x); }
    }
  }

  lemma PendingHasNoReady(log: seq<M.OpState>)
    requires M.IsPath(log) && State(log).PendingApproval?
    ensures log == [M.PendingApproval]
  {
    var n := |log| - 1;
    assert n > 0 ==> M.CanTransition(log[n - 1], log[n]);
  }

  lemma MoreTimes(outbox: seq<nat>, o: nat)
    ensures Times(outbox + [o], o) == Times(outbox, o) + 1
    ensures forall k: nat :: k != o ==> Times(outbox + [o], k) == Times(outbox, k)
  {
    assert (outbox + [o])[..|outbox|] == outbox;
  }

  lemma {:induction false} RunKeeps(events: seq<Event>)
    ensures Inv(Run(events))
  {
    if events != [] {
      hide Inv, Decide;
      var n := |events| - 1;
      var before := Run(events[..n]);
      RunKeeps(events[..n]);
      match events[n]
      case RequestMint(requester, required, hash) => RequestKeeps(before, requester, required, hash);
      case RecordDecision(r, actor, approve, current) =>
        if Decide(before, r, actor, approve, current).Ok? { DecideKeeps(before, r, actor, approve, current); }
      case Transition(o, to) => TransitionKeeps(before, o, to);
    }
  }

  /** Over any history a mint reaches READY exactly when its request is approved: then the required number of different
      people approved it, none of them its requester, nobody rejected it, every decision was bound to the proposal's
      hash, which the proposal still had when that decision (the last one included) was recorded, and exactly one outbox
      row asks for its execution. Before, there is none. */
  lemma ReadyMeansApproved(events: seq<Event>, o: nat)
    requires o < |Run(events).ops|
    ensures var db := Run(events);
            && o < |db.requests| && db.requests[o].op == o
            && var q := db.requests[o];
               && (M.Ready in db.ops[o] <==> q.state.Approved?)
               && (q.state.Approved? ==>
                     && |Approvers(db.decisions, o)| >= q.required && q.requester !in Approvers(db.decisions, o)
                     && (forall d | d in db.decisions && d.request == o :: d.approve && d.hash == q.hash == d.current))
               && Times(db.outbox, o) == (if M.Ready in db.ops[o] then 1 else 0)
  {
    hide Run;
    RunKeeps(events);
    var db := Run(events);
    assert RequestOk(db, o);
    forall d | d in db.decisions && d.request == o
      ensures d.hash == db.requests[o].hash == d.current && d.approver != db.requests[o].requester
    {
      assert DecisionOk(db, d);
    }
  }

  // ---------- one decision each, and what a rejection does ----------

  ghost predicate OneEach(decisions: seq<Decision>) {
    forall i: nat, j: nat | i < j < |decisions| && decisions[i].request == decisions[j].request ::
      decisions[i].approver != decisions[j].approver
  }

  /** A request is REJECTED exactly if somebody rejected it, and its operation then went straight to CANCELLED. */
  ghost predicate RejectionOk(db: Db, r: nat)
    requires r < |db.requests| && r < |db.ops|
  {
    && (db.requests[r].state.Rejected? <==> exists d :: d in db.decisions && d.request == r && !d.approve)
    && (db.requests[r].state.Rejected? ==> db.ops[r] == [M.PendingApproval, M.Cancelled])
  }

  ghost predicate DecisionsOk(db: Db) {
    && OneEach(db.decisions) && |db.requests| == |db.ops|
    && (forall d | d in db.decisions :: d.request < |db.requests|)
    && forall r: nat :: r < |db.requests| ==> RejectionOk(db, r)
  }

  lemma OneMoreDecision(decisions: seq<Decision>, d: Decision)
    requires OneEach(decisions) && !Decided(decisions, d.request, d.approver)
    ensures OneEach(decisions + [d])
  {
    var all := decisions + [d];
    forall i: nat, j: nat | i < j < |all| && all[i].request == all[j].request ensures all[i].approver != all[j].approver {
      assert all[i] in decisions;
    }
  }

  lemma DecideDecides(db: Db, r: nat, actor: Person, approve: bool, current: Digest)
    requires Inv(db) && DecisionsOk(db) && Decide(db, r, actor, approve, current).Ok?
    ensures DecisionsOk(Decide(db, r, actor, approve, current).db)
  {
    hide M.IsPath, Approvers, Times, ApproverIds, OneEach;
    var e := Decide(db, r, actor, approve, current).db;
    var d := Decision(r, actor, approve, db.requests[r].hash, current);
    OneMoreDecision(db.decisions, d);
    assert RequestOk(db, r);
    PendingHasNoReady(db.ops[r]);
    assert d in e.decisions;
    forall k: nat | k < |e.requests| ensures RejectionOk(e, k) {
      assert RejectionOk(db, k);
      forall x | x in db.decisions ensures x in e.decisions {}
    }
  }

  lemma OtherDecides(db: Db, e: Event)
    requires Inv(db) && DecisionsOk(db) && !e.RecordDecision?
    ensures DecisionsOk(Step(db, e))
  {
    hide M.IsPath, Approvers, Times, ApproverIds, OneEach;
    var t := Step(db, e);
    forall r: nat | r < |t.requests| ensures RejectionOk(t, r) {
      if r < |db.requests| { assert RejectionOk(db, r); }
    }
  }

  lemma {:induction false} RunDecides(events: seq<Event>)
    ensures DecisionsOk(Run(events))
  {
    if events != [] {
      hide Inv, Decide, DecisionsOk;
      var n := |events| - 1;
      var before := Run(events[..n]);
      RunKeeps(events[..n]);
      RunDecides(events[..n]);
      match events[n]
      case RecordDecision(r, actor, approve, current) =>
        if Decide(before, r, actor, approve, current).Ok? { DecideDecides(before, r, actor, approve, current); }
      case _ => OtherDecides(before, events[n]);
    } else {
      assert DecisionsOk(Db([], [], [], []));
    }
  }

  /** Over any history nobody decides twice on one request. */
  lemma OneDecisionEach(events: seq<Event>, i: nat, j: nat)
    requires
      var d := Run(events).decisions;
      i < |d| && j < |d| && d[i].request == d[j].request && d[i].approver == d[j].approver
    ensures i == j
  {
    hide Run;
    RunDecides(events);
  }

  /** One rejection is enough and final: the request is REJECTED exactly if somebody rejected it, its operation was
      cancelled without ever being READY, nothing asks for its execution, and no further decision is taken. */
  lemma RejectionCloses(events: seq<Event>, r: nat, actor: Person, approve: bool, current: Digest)
    requires r < |Run(events).requests|
    ensures var db := Run(events);
            && (db.requests[r].state.Rejected? <==> exists d :: d in db.decisions && d.request == r && !d.approve)
            && (db.requests[r].state.Rejected? ==>
                  && r < |db.ops| && db.ops[r] == [M.PendingApproval, M.Cancelled] && Times(db.outbox, r) == 0
                  && Decide(db, r, actor, approve, current) == Err(RequestClosed))
  {
    hide Run;
    RunKeeps(events);
    RunDecides(events);
    assert RequestOk(Run(events), r) && RejectionOk(Run(events), r);
  }

  /** A decision is taken exactly on an open request by someone else than its requester who has not decided yet, while the
      operation awaits approval and the proposal is the one that was asked about; the first of these that fails names the
      error. It is recorded with both hashes. A rejection cancels; an approval readies the operation exactly when it
      completes the required number of different approvers, and otherwise changes nothing else. */
  lemma DecidesExactly(db: Db, r: nat, actor: Person, approve: bool, current: Digest)
    requires Inv(db)
    ensures
      var result := Decide(db, r, actor, approve, current);
      var first := forall d | d in db.decisions && d.request == r :: d.approver != actor;
      if r >= |db.requests| then result == Err(NotFound) else
        var q := db.requests[r];
        if q.state != Open then result == Err(RequestClosed)
        else if actor == q.requester then result == Err(SelfApproval)
        else if db.ops[r] != [M.PendingApproval] then result == Err(InvalidTransition)
        else if current != q.hash then result == Err(OperationConflict)
        else if !first then result == Err(AlreadyRecorded)
        else
          var enough := |Approvers(db.decisions, r) + {actor}| >= q.required;
          && result.Ok? && result.db.decisions == db.decisions + [Decision(r, actor, approve, q.hash, q.hash)]
          && (!approve ==>
                && result.db.requests == db.requests[r := q.(state := Rejected)]
                && result.db.ops == db.ops[r := [M.PendingApproval, M.Cancelled]] && result.db.outbox == db.outbox)
          && (approve && enough ==>
                && result.db.requests == db.requests[r := q.(state := Approved)]
                && result.db.ops == db.ops[r := [M.PendingApproval, M.Ready]] && result.db.outbox == db.outbox + [r])
          && (approve && !enough ==> result.db == db.(decisions := result.db.decisions))
  {
    hide M.IsPath, Approvers, Times, ApproverIds;
    if r < |db.requests| {
      var q := db.requests[r];
      var d := Decision(r, actor, approve, q.hash, current);
      assert RequestOk(db, r);
      if State(db.ops[r]).PendingApproval? { PendingHasNoReady(db.ops[r]); }
      OneMoreApprover(db.decisions, d, r);
      IdsAreApprovers(db.decisions + [d], r);
      assert d in db.decisions + [d];
      assert [M.PendingApproval] + [M.Ready] == [M.PendingApproval, M.Ready];
      assert [M.PendingApproval] + [M.Cancelled] == [M.PendingApproval, M.Cancelled];
    }
  }

  /** What was asked for stays as it was asked, and a request that was closed stays closed as it was. */
  predicate Kept(q: Request, p: Request) { p == q.(state := p.state) && (q.state != Open ==> p == q) }

  lemma StepKeepsRequest(db: Db, e: Event, r: nat)
    requires WellFormed(db) && r < |db.requests|
    ensures r < |Step(db, e).requests| && Kept(db.requests[r], Step(db, e).requests[r])
  {
    hide Evaluate, Decided;
  }

  /** A mint is asked for by its requester, for so many approvals and with the hash of its proposal, and waits for them; over
      any history nobody changes what was asked, nor reopens it. */
  lemma {:induction false} AskedForStays(events: seq<Event>, n: nat, requester: Person, required: nat, hash: Digest)
    requires n < |events| && events[n] == RequestMint(requester, required, hash)
    ensures
      var r := |Run(events[..n]).requests|;
      && r < |Run(events).requests|
      && Kept(Request(|Run(events[..n]).ops|, requester, required, hash, Open), Run(events).requests[r])
    decreases |events|
  {
    hide Step;
    var k := |events| - 1;
    if n < k {
      assert events[..k][..n] == events[..n];
      AskedForStays(events[..k], n, requester, required, hash);
      StepKeepsRequest(Run(events[..k]), events[k], |Run(events[..n]).requests|);
    } else {
      Asks(Run(events[..n]), requester, required, hash);
    }
  }

  lemma Asks(db: Db, requester: Person, required: nat, hash: Digest)
    requires WellFormed(db)
    ensures var e := Step(db, RequestMint(requester, required, hash));
            && e.requests == db.requests + [Request(|db.ops|, requester, required, hash, Open)]
            && e.ops == db.ops + [[M.PendingApproval]] && e.outbox == db.outbox && e.decisions == db.decisions
  {
  }

  /** No request is ever superseded: that close is rolled back with the error that follows it, so a changed proposal
      leaves earlier approvals standing, and they count again if the rows change back. */
  lemma NeverSuperseded(events: seq<Event>, r: nat)
    requires r < |Run(events).requests|
    ensures !Run(events).requests[r].state.Superseded?
  {
    hide Run;
    RunKeeps(events);
    assert RequestOk(Run(events), r);
  }

  lemma RunNext(events: seq<Event>, e: Event)
    ensures Run(events + [e]) == Step(Run(events), e)
  {
    assert (events + [e])[..|events|] == events;
  }

  lemma OneMoreId(decisions: seq<Decision>, d: Decision, r: nat)
    ensures ApproverIds(decisions + [d], r) == ApproverIds(decisions, r) + if d.request == r && d.approve then {d.approver} else {}
  {
    assert (decisions + [d])[..|decisions|] == decisions;
  }

  function ByTwo(hash: Digest): Decision { Decision(0, [2], true, hash, hash) }
  function ByThree(hash: Digest): Decision { Decision(0, [3], true, hash, hash) }

  /** A request for two approvals, and then with one. */
  function Asked(hash: Digest): Db { Db([[M.PendingApproval]], [Request(0, [1], 2, hash, Open)], [], []) }
  function OneApproval(hash: Digest): Db { Asked(hash).(decisions := [ByTwo(hash)]) }

  lemma Approves(hash: Digest)
    ensures Step(Asked(hash), RecordDecision(0, [2], true, hash)) == OneApproval(hash)
    ensures var e := Step(OneApproval(hash), RecordDecision(0, [3], true, hash));
            |e.ops| == 1 && e.ops[0] == [M.PendingApproval, M.Ready]
  {
    var d, e := ByTwo(hash), ByThree(hash);
    OneMoreId([], d, 0);
    OneMoreId([d], e, 0);
    assert [] + [d] == [d];
    assert ApproverIds([d], 0) == {[2]} && ApproverIds([d] + [e], 0) == {[2], [3]};
    assert Evaluate(2, [d], 0) == OutPending(1);
    assert Evaluate(2, [d] + [e], 0) == OutApproved;
    hide Evaluate, ApproverIds;
    assert [M.PendingApproval] + [M.Ready] == [M.PendingApproval, M.Ready];
  }

  lemma FirstApproval(hash: Digest) returns (events: seq<Event>)
    ensures Run(events) == OneApproval(hash)
  {
    var asked, approved := RequestMint([1], 2, hash), RecordDecision(0, [2], true, hash);
    assert Run([]) == Db([], [], [], []);
    hide Run, Decide;
    RunNext([], asked);
    assert Run([] + [asked]) == Asked(hash);
    RunNext([] + [asked], approved);
    Approves(hash);
    events := [] + [asked] + [approved];
  }

  /** A run in which a decision meets a changed proposal and is told that previous approvals are void; once the rows
      are back, the first approval still counts and the same approver completes the request. */
  lemma ConflictVoidsNothing(hash: Digest, other: Digest) returns (events: seq<Event>)
    requires hash != other
    ensures var n := |events| - 1;
            && n > 0 && events[n - 1] == RecordDecision(0, [3], true, other) && events[n] == RecordDecision(0, [3], true, hash)
            && Decide(Run(events[..n - 1]), 0, [3], true, other) == Err(OperationConflict)
            && |Run(events).ops| == 1 && M.Ready in Run(events).ops[0]
  {
    hide Run, Evaluate;
    var first := FirstApproval(hash);
    var changed, restored := RecordDecision(0, [3], true, other), RecordDecision(0, [3], true, hash);
    RunNext(first, changed);
    RunNext(first + [changed], restored);
    Approves(hash);
    events := first + [changed] + [restored];
    assert events[..|events| - 2] == first;
  }
}
