/** Idempotent requests (src/modules/idempotency/idempotency-service.ts, src/db/repositories/idempotency-repository.ts):
    claim a key, do the work and store its response in one transaction, release the claim when that fails. */
module Idempotency {
  import opened CanonicalJson

  datatype Identity = Identity(scope: Text, organization: Text, actor: Text, key: Text)

  /** `op` is the operation the work created; the rest of the stored response is a function of it. */
  datatype Status = InProgress | Completed(op: nat)

  datatype Record = Record(id: nat, hash: Digest, status: Status)

  // ---------- statements; the UNIQUE key makes the table a map ----------

  function Claim(records: map<Identity, Record>, k: Identity, id: nat, hash: Digest): map<Identity, Record> {
    if k in records then records else records[k := Record(id, hash, InProgress)]
  }

  /** Updates by row id, whatever the row has become. */
  function Complete(records: map<Identity, Record>, id: nat, op: nat): map<Identity, Record> {
    map k | k in records :: if records[k].id == id then records[k].(status := Completed(op)) else records[k]
  }

  /** Deletes by row id, whatever the row has become. */
  function Release(records: map<Identity, Record>, id: nat): map<Identity, Record> {
    map k | k in records && records[k].id != id :: records[k]
  }

  class IdempotencyKeys {
    var records: map<Identity, Record>
    var ids: nat

    constructor ()
      ensures records == map[]
    {
      records, ids := map[], 0;
    }

    /** One insert that does nothing on conflict, then a read of the row that won. */
    method ClaimIdempotencyKey(k: Identity, hash: Digest) returns (claimed: bool, record: Record)
      modifies this
      ensures claimed == (k !in old(records)) && records == Claim(old(records), k, old(ids), hash)
      ensures k in records && record == records[k] && (claimed ==> record == Record(old(ids), hash, InProgress))
    {
      claimed := k !in records;
      if claimed {
        records := records[k := Record(ids, hash, InProgress)];
        ids := ids + 1;
      }
      record := records[k];
    }

    method CompleteIdempotencyKey(id: nat, op: nat)
      modifies this`records
      ensures records == Complete(old(records), id, op) && records.Keys == old(records).Keys
      ensures forall k | k in records :: records[k].id == old(records)[k].id && records[k].hash == old(records)[k].hash
      ensures forall k | k in records && records[k].id == id :: records[k].status == Completed(op)
      ensures forall k | k in records && records[k].id != id :: records[k] == old(records)[k]
    {
      records := map k | k in records :: if records[k].id == id then records[k].(status := Completed(op)) else records[k];
    }

    method ReleaseIdempotencyKey(id: nat)
      modifies this`records
      ensures records == Release(old(records), id)
      ensures forall k :: k in records <==> k in old(records) && old(records)[k].id != id
      ensures forall k | k in records :: records[k] == old(records)[k]
    {
      records := map k | k in records && records[k].id != id :: records[k];
    }
  }

  // ---------- any number of concurrent requests ----------

  datatype Reply = Fresh(op: nat) | Replayed(op: nat) | Conflict | Busy | Error

  datatype Worker =
    | Claiming(k: Identity, request: Json)
    | Reading(k: Identity, request: Json)
    | Working(k: Identity, request: Json, id: nat)
    | Releasing(k: Identity, request: Json, id: nat)
    | Replied(k: Identity, request: Json, reply: Reply)
    | Gone

  datatype Created = Created(k: Identity, request: Json)

  /** `released` has the keys of completed records that were deleted. */
  datatype State = State(
    records: map<Identity, Record>, ids: nat, ops: seq<Created>, workers: seq<Worker>, released: seq<Identity>)

  /** What became of the transaction: it committed, it failed, or it committed and reported an error. */
  datatype Outcome = Committed | Aborted | CommitLost

  datatype Label =
    | Request(k: Identity, request: Json)
    | Act(worker: nat)
    | Work(worker: nat, outcome: Outcome)
    | Crash(worker: nat)

  function Init(): State { State(map[], 0, [], [], []) }

  function Set(s: State, w: nat, a: Worker): State
    requires w < |s.workers|
  {
    s.(workers := s.workers[w := a])
  }

  /** What the loser of a claim is told about the row it finds. */
  ghost function Answer(records: map<Identity, Record>, k: Identity, request: Json): Reply {
    if k !in records then Error
    else if records[k].hash != CanonicalHash(request) then Conflict
    else match records[k].status case Completed(op) => Replayed(op) case InProgress => Busy
  }

  ghost function Step(s: State, l: Label): State {
    match l
    case Request(k, request) => s.(workers := s.workers + [Claiming(k, request)])
    case Act(w) =>
      if w >= |s.workers| then s else
        (match s.workers[w]
         case Claiming(k, request) =>
           if k in s.records then Set(s, w, Reading(k, request))
           else Set(s.(records := Claim(s.records, k, s.ids, CanonicalHash(request)), ids := s.ids + 1), w, Working(k, request, s.ids))
         case Reading(k, request) => Set(s, w, Replied(k, request, Answer(s.records, k, request)))
         case Releasing(k, request, id) =>
           var lost := if k in s.records && s.records[k].id == id && s.records[k].status.Completed? then [k] else [];
           Set(s.(records := Release(s.records, id), released := s.released + lost), w, Replied(k, request, Error))
         case _ => s)
    case Work(w, outcome) =>
      if w >= |s.workers| || !s.workers[w].Working? then s else
        var a := s.workers[w];
        var done := s.(ops := s.ops + [Created(a.k, a.request)], records := Complete(s.records, a.id, |s.ops|));
        (match outcome
         case Committed => Set(done, w, Replied(a.k, a.request, Fresh(|s.ops|)))
         case Aborted => Set(s, w, Releasing(a.k, a.request, a.id))
         case CommitLost => Set(done, w, Releasing(a.k, a.request, a.id)))
    case Crash(w) => if w < |s.workers| then Set(s, w, Gone) else s
  }

  ghost function Run(labels: seq<Label>): State {
    if labels == [] then Init() else Step(Run(labels[..|labels| - 1]), labels[|labels| - 1])
  }

  // ---------- invariants ----------

  function Of(ops: seq<Created>, k: Identity): nat {
    if ops == [] then 0 else Of(ops[..|ops| - 1], k) + if ops[|ops| - 1].k == k then 1 else 0
  }

  function In(keys: seq<Identity>, k: Identity): nat {
    if keys == [] then 0 else In(keys[..|keys| - 1], k) + if keys[|keys| - 1] == k then 1 else 0
  }

  predicate IsCompleted(s: State, k: Identity) { k in s.records && s.records[k].status.Completed? }

  /** The stored response of a record names an operation of its key and request. */
  ghost predicate RecordOk(s: State, k: Identity)
    requires k in s.records
  {
    var r := s.records[k];
    && r.id < s.ids
    && (r.status.Completed? ==>
          r.status.op < |s.ops| && s.ops[r.status.op].k == k && CanonicalHash(s.ops[r.status.op].request) == r.hash)
  }

  /** A worker that holds a claim holds the row of its key, not yet completed while it works. */
  ghost predicate WorkerOk(s: State, a: Worker) {
    match a
    case Working(k, request, id) =>
      k in s.records && s.records[k] == Record(id, CanonicalHash(request), InProgress)
    case Releasing(k, request, id) =>
      k in s.records && s.records[k].id == id
    case Replied(k, request, Fresh(op)) => op < |s.ops| && s.ops[op] == Created(k, request)
    case Replied(k, request, Replayed(op)) =>
      op < |s.ops| && s.ops[op].k == k && CanonicalHash(s.ops[op].request) == CanonicalHash(request)
    case _ => true
  }

  predicate Holder(a: Worker) { a.Working? || a.Releasing? }

  ghost predicate Inv(s: State) {
    && (forall k :: k in s.records ==> RecordOk(s, k))
    && (forall k, l :: k in s.records && l in s.records && s.records[k].id == s.records[l].id ==> k == l)
    && (forall w: nat :: w < |s.workers| ==> WorkerOk(s, s.workers[w]))
    && (forall v: nat, w: nat :: v < w < |s.workers| && Holder(s.workers[v]) && Holder(s.workers[w]) ==>
          s.workers[v].id != s.workers[w].id)
    && (forall k :: Of(s.ops, k) == In(s.released, k) + if IsCompleted(s, k) then 1 else 0)
  }

  lemma ClaimKeeps(s: State, w: nat)
    requires Inv(s) && w < |s.workers| && s.workers[w].Claiming?
    ensures Inv(Step(s, Act(w)))
  {
    var t := Step(s, Act(w));
    forall k | k in t.records ensures RecordOk(t, k) { if k in s.records { assert RecordOk(s, k); } }
    forall v: nat | v < |t.workers| ensures WorkerOk(t, t.workers[v]) { assert WorkerOk(s, s.workers[v]); }
    forall v: nat, u: nat | v < u < |t.workers| && Holder(t.workers[v]) && Holder(t.workers[u])
      ensures t.workers[v].id != t.workers[u].id
    {
      assert WorkerOk(s, s.workers[v]) && WorkerOk(s, s.workers[u]);
    }
    forall k ensures Of(t.ops, k) == In(t.released, k) + if IsCompleted(t, k) then 1 else 0 {}
  }

  lemma ReadKeeps(s: State, w: nat)
    requires Inv(s) && w < |s.workers| && s.workers[w].Reading?
    ensures Inv(Step(s, Act(w)))
  {
    var t := Step(s, Act(w));
    forall k | k in t.records ensures RecordOk(t, k) { assert RecordOk(s, k); }
    forall v: nat | v < |t.workers| ensures WorkerOk(t, t.workers[v]) {
      assert WorkerOk(s, s.workers[v]);
      if s.workers[w].k in s.records { assert RecordOk(s, s.workers[w].k); }
    }
    forall k ensures Of(t.ops, k) == In(t.released, k) + if IsCompleted(t, k) then 1 else 0 {}
  }

  lemma ReleaseKeeps(s: State, w: nat)
    requires Inv(s) && w < |s.workers| && s.workers[w].Releasing?
    ensures Inv(Step(s, Act(w)))
  {
    var t := Step(s, Act(w));
    var a := s.workers[w];
    assert WorkerOk(s, a);
    forall k | k in t.records ensures RecordOk(t, k) { assert RecordOk(s, k); }
    forall v: nat | v < |t.workers| ensures WorkerOk(t, t.workers[v]) {
      assert WorkerOk(s, s.workers[v]);
    }
    forall k ensures Of(t.ops, k) == In(t.released, k) + if IsCompleted(t, k) then 1 else 0 {
      assert s.released + [] == s.released;
      if IsCompleted(s, a.k) { assert t.released[..|t.released| - 1] == s.released; }
    }
  }

  lemma WorkKeeps(s: State, w: nat, outcome: Outcome)
    requires Inv(s) && w < |s.workers| && s.workers[w].Working? && !outcome.Aborted?
    ensures Inv(Step(s, Work(w, outcome)))
  {
    var t := Step(s, Work(w, outcome));
    var a := s.workers[w];
    assert WorkerOk(s, a);
    assert t.ops[..|t.ops| - 1] == s.ops;
    forall k | k in t.records ensures RecordOk(t, k) { assert RecordOk(s, k); }
    forall v: nat | v < |t.workers| ensures WorkerOk(t, t.workers[v]) { assert WorkerOk(s, s.workers[v]); }
    forall k ensures Of(t.ops, k) == In(t.released, k) + if IsCompleted(t, k) then 1 else 0 {}
  }

  lemma OtherKeeps(s: State, l: Label)
    requires Inv(s)
    requires l.Request? || l.Crash? || (l.Work? && l.outcome.Aborted?)
    ensures Inv(Step(s, l))
  {
    var t := Step(s, l);
    forall k | k in t.records ensures RecordOk(t, k) { assert RecordOk(s, k); }
    forall v: nat | v < |t.workers| ensures WorkerOk(t, t.workers[v]) {
      if v < |s.workers| { assert WorkerOk(s, s.workers[v]); }
    }
    forall k ensures Of(t.ops, k) == In(t.released, k) + if IsCompleted(t, k) then 1 else 0 {}
  }

  lemma StepKeeps(s: State, l: Label)
    requires Inv(s)
    ensures Inv(Step(s, l))
  {
    hide Inv;
    match l
    case Act(w) =>
      if w < |s.workers| {
        match s.workers[w]
        case Claiming(_, _) => ClaimKeeps(s, w);
        case Reading(_, _) => ReadKeeps(s, w);
        case Releasing(_, _, _) => ReleaseKeeps(s, w);
        case _ =>
      }
    case Work(w, outcome) =>
      if w < |s.workers| && s.workers[w].Working? && !outcome.Aborted? { WorkKeeps(s, w, outcome); } else { SkipKeeps(s, l); }
    case _ => OtherKeeps(s, l);
  }

  lemma SkipKeeps(s: State, l: Label)
    requires Inv(s) && l.Work? && (l.worker >= |s.workers| || !s.workers[l.worker].Working? || l.outcome.Aborted?)
    ensures Inv(Step(s, l))
  {
    if l.outcome.Aborted? { OtherKeeps(s, l); }
  }

  lemma {:induction false} RunKeeps(labels: seq<Label>)
    ensures Inv(Run(labels))
  {
    if labels == [] {
      forall k ensures Of([], k) == In([], k) {}
    } else {
      hide Step, Inv;
      RunKeeps(labels[..|labels| - 1]);
      StepKeeps(Run(labels[..|labels| - 1]), labels[|labels| - 1]);
    }
  }

  // ---------- what callers are promised ----------

  /** A key has exactly one committed operation per completed record it ever had: one, unless the record of a commit
      that was reported as an error has been released. */
  lemma OperationsOfKey(labels: seq<Label>, k: Identity)
    ensures var s := Run(labels); Of(s.ops, k) == In(s.released, k) + if IsCompleted(s, k) then 1 else 0
  {
    hide Run;
    RunKeeps(labels);
  }

  /** A failed transaction did not commit. */
  predicate Honest(labels: seq<Label>) {
    forall n: nat :: n < |labels| ==> !(labels[n].Work? && labels[n].outcome.CommitLost?)
  }

  ghost predicate NoneLost(s: State) {
    s.released == [] && forall w: nat :: w < |s.workers| && s.workers[w].Releasing? ==> !IsCompleted(s, s.workers[w].k)
  }

  lemma StepLosesNone(s: State, l: Label)
    requires Inv(s) && NoneLost(s) && !(l.Work? && l.outcome.CommitLost?)
    ensures NoneLost(Step(s, l))
  {
    var t := Step(s, l);
    forall w: nat | w < |t.workers| && t.workers[w].Releasing? ensures !IsCompleted(t, t.workers[w].k) {
      if w < |s.workers| { assert WorkerOk(s, s.workers[w]); }
      if l.Work? && l.worker < |s.workers| { assert WorkerOk(s, s.workers[l.worker]); }
    }
  }

  lemma {:induction false} HonestLosesNone(labels: seq<Label>)
    requires Honest(labels)
    ensures NoneLost(Run(labels))
  {
    if labels != [] {
      hide Step, Inv, NoneLost;
      var n := |labels| - 1;
      HonestLosesNone(labels[..n]);
      RunKeeps(labels[..n]);
      StepLosesNone(Run(labels[..n]), labels[n]);
    }
  }

  lemma OneOf(ops: seq<Created>, i: nat, j: nat)
    requires i < j < |ops| && ops[i].k == ops[j].k
    ensures Of(ops, ops[i].k) >= 2
  {
    if j < |ops| - 1 {
      OneOf(ops[..|ops| - 1], i, j);
    } else {
      AtLeastOne(ops[..|ops| - 1], i);
    }
  }

  lemma AtLeastOne(ops: seq<Created>, i: nat)
    requires i < |ops|
    ensures Of(ops, ops[i].k) >= 1
  {
    if i < |ops| - 1 { AtLeastOne(ops[..|ops| - 1], i); }
  }

  /** Concurrent requests on one key commit at most one operation, and everyone who gets a response for it, first or
      replayed, gets that operation and had asked for the same thing. */
  lemma OneOperationPerKey(labels: seq<Label>, k: Identity, v: nat, w: nat)
    requires Honest(labels)
    ensures Of(Run(labels).ops, k) <= 1
    ensures var s := Run(labels);
            v < |s.workers| && w < |s.workers| && s.workers[v].Replied? && s.workers[w].Replied?
            && s.workers[v].k == k && s.workers[w].k == k
            && (s.workers[v].reply.Fresh? || s.workers[v].reply.Replayed?)
            && (s.workers[w].reply.Fresh? || s.workers[w].reply.Replayed?) ==>
              s.workers[v].reply.op == s.workers[w].reply.op && s.workers[v].request == s.workers[w].request
  {
    hide Run;
    RunKeeps(labels);
    HonestLosesNone(labels);
    var s := Run(labels);
    if v < |s.workers| && w < |s.workers| && s.workers[v].Replied? && s.workers[w].Replied?
       && s.workers[v].k == k && s.workers[w].k == k
       && (s.workers[v].reply.Fresh? || s.workers[v].reply.Replayed?)
       && (s.workers[w].reply.Fresh? || s.workers[w].reply.Replayed?) {
      assert WorkerOk(s, s.workers[v]) && WorkerOk(s, s.workers[w]);
      var i, j := s.workers[v].reply.op, s.workers[w].reply.op;
      if i < j { OneOf(s.ops, i, j); }
      if j < i { OneOf(s.ops, j, i); }
      CanonicalHashInjective(s.workers[v].request, s.ops[i].request);
      CanonicalHashInjective(s.workers[w].request, s.ops[i].request);
    }
  }

  /** What the loser of a claim is told, over every run: the response of the key's operation exactly if that is committed
      and was asked for in the same words, a conflict exactly if the row was claimed for other words, to wait exactly if it
      was claimed for the same ones and has no response yet, and an error exactly if the row is gone. */
  lemma RepliesExactly(labels: seq<Label>, w: nat)
    requires w < |Run(labels).workers| && Run(labels).workers[w].Reading?
    ensures
      var s, t := Run(labels), Run(labels + [Act(w)]);
      var k, request := s.workers[w].k, s.workers[w].request;
      && t == s.(workers := t.workers) && |t.workers| == |s.workers| && t.workers[w].Replied?
      && t.workers[w].k == k && t.workers[w].request == request
      && var reply := t.workers[w].reply;
         && (reply.Error? <==> k !in s.records)
         && (k in s.records ==>
               && (reply.Conflict? <==> s.records[k].hash != CanonicalHash(request))
               && (reply.Busy? <==> s.records[k].hash == CanonicalHash(request) && s.records[k].status.InProgress?)
               && (forall v: nat | v < |s.workers| && s.workers[v].Working? && s.workers[v].k == k ::
                     reply == if s.workers[v].request == request then Busy else Conflict)
               && (forall op: nat | s.records[k].status == Completed(op) ::
                     && op < |s.ops| && s.ops[op].k == k
                     && reply == if s.ops[op].request == request then Replayed(op) else Conflict))
  {
    RunKeeps(labels);
    RunNext(labels, Act(w));
    hide Run;
    var s := Run(labels);
    var k, request := s.workers[w].k, s.workers[w].request;
    if k in s.records {
      assert RecordOk(s, k);
      if s.records[k].status.Completed? { CanonicalHashInjective(s.ops[s.records[k].status.op].request, request); }
    }
    forall v: nat | v < |s.workers| && s.workers[v].Working? && s.workers[v].k == k
      ensures k in s.records && s.records[k].status.InProgress?
      ensures s.records[k].hash == CanonicalHash(request) <==> s.workers[v].request == request
    {
      assert WorkerOk(s, s.workers[v]);
      CanonicalHashInjective(s.workers[v].request, request);
    }
  }

  /** A request claims a key exactly while no row has it. Work that commits leaves its operation as the key's response;
      work that fails frees the key, so that the next request on it starts afresh, and creates nothing. */
  lemma ClaimsExactly(labels: seq<Label>, w: nat)
    requires w < |Run(labels).workers|
    ensures
      var s, a := Run(labels), Run(labels).workers[w];
      var t, done := Run(labels + [Act(w)]), Run(labels + [Work(w, Committed)]);
      var freed := Run(labels + [Work(w, Aborted)] + [Act(w)]);
      && (a.Claiming? && a.k in s.records ==> t == s.(workers := s.workers[w := Reading(a.k, a.request)]))
      && (a.Claiming? && a.k !in s.records ==>
            && t.records == s.records[a.k := Record(s.ids, CanonicalHash(a.request), InProgress)] && t.ops == s.ops
            && t.workers == s.workers[w := Working(a.k, a.request, s.ids)])
      && (a.Working? ==>
            && a.k in s.records && done.ops == s.ops + [Created(a.k, a.request)]
            && done.records == s.records[a.k := s.records[a.k].(status := Completed(|s.ops|))]
            && done.workers == s.workers[w := Replied(a.k, a.request, Fresh(|s.ops|))]
            && freed.ops == s.ops && freed.records == s.records - {a.k} && freed.released == s.released
            && freed.workers == s.workers[w := Replied(a.k, a.request, Error)])
  {
    RunKeeps(labels);
    RunNext(labels, Act(w));
    RunNext(labels, Work(w, Committed));
    RunNext(labels, Work(w, Aborted));
    RunNext(labels + [Work(w, Aborted)], Act(w));
    hide Run;
    var s, a := Run(labels), Run(labels).workers[w];
    if a.Working? {
      assert WorkerOk(s, a);
      assert Complete(s.records, a.id, |s.ops|) == s.records[a.k := s.records[a.k].(status := Completed(|s.ops|))];
      assert Release(s.records, a.id) == s.records - {a.k};
      assert s.released + [] == s.released;
      assert s.workers[w := Releasing(a.k, a.request, a.id)][w := Replied(a.k, a.request, Error)]
          == s.workers[w := Replied(a.k, a.request, Error)];
    }
  }

  /** Once a key has an operation and no failed transaction committed, nobody claims the key again, and whoever asks is
      answered with that operation, however often it asks, or told of the conflict when it asks for something else. */
  lemma RepeatIsAnswered(labels: seq<Label>, o: nat, w: nat)
    requires Honest(labels) && o < |Run(labels).ops| && w < |Run(labels).workers|
    ensures
      var s, t := Run(labels), Run(labels + [Act(w)]);
      var a := s.workers[w];
      && |t.workers| == |s.workers|
      && (a.Claiming? && a.k == s.ops[o].k ==> t.workers[w] == Reading(a.k, a.request))
      && (a.Reading? && a.k == s.ops[o].k ==>
            t.workers[w] == Replied(a.k, a.request, if a.request == s.ops[o].request then Replayed(o) else Conflict))
  {
    RunKeeps(labels);
    HonestLosesNone(labels);
    RunNext(labels, Act(w));
    hide Run;
    var s := Run(labels);
    var k := s.ops[o].k;
    AtLeastOne(s.ops, o);
    assert IsCompleted(s, k);
    assert RecordOk(s, k);
    var op := s.records[k].status.op;
    if o < op { OneOf(s.ops, o, op); }
    if op < o { OneOf(s.ops, op, o); }
    if s.workers[w].Reading? { CanonicalHashInjective(s.ops[o].request, s.workers[w].request); }
  }

  lemma RunNext(labels: seq<Label>, l: Label)
    ensures Run(labels + [l]) == Step(Run(labels), l)
  {
    assert (labels + [l])[..|labels|] == labels;
  }

  /** A request at work on a key of an empty table. */
  lemma AtWork(k: Identity, request: Json) returns (labels: seq<Label>)
    ensures Run(labels) == State(map[k := Record(0, CanonicalHash(request), InProgress)], 1, [], [Working(k, request, 0)], [])
  {
    hide Run;
    assert Run([]) == Init() by { Starts(); }
    RunNext([], Request(k, request));
    labels := [] + [Request(k, request)];
    RunNext(labels, Act(0));
    labels := labels + [Act(0)];
  }

  /** A commit reported as an error: the claim of a completed record is released. */
  lemma LostCommit(k: Identity, request: Json) returns (labels: seq<Label>)
    ensures Run(labels) == State(map[], 1, [Created(k, request)], [Replied(k, request, Error)], [k])
  {
    hide Run;
    var taken := map[k := Record(0, CanonicalHash(request), InProgress)];
    var done := map[k := Record(0, CanonicalHash(request), Completed(0))];
    labels := AtWork(k, request);
    RunNext(labels, Work(0, CommitLost));
    labels := labels + [Work(0, CommitLost)];
    assert Complete(taken, 0, 0) == done;
    assert Run(labels) == State(done, 1, [Created(k, request)], [Releasing(k, request, 0)], []);
    RunNext(labels, Act(0));
    labels := labels + [Act(0)];
    assert Release(done, 0) == map[];
  }

  lemma Starts()
    ensures Run([]) == Init()
  {
  }

  /** The assumption is needed: when a commit is reported as an error, a retry of the key commits a second operation. */
  lemma LostCommitDuplicates(k: Identity, request: Json) returns (labels: seq<Label>)
    ensures Run(labels).ops == [Created(k, request), Created(k, request)]
  {
    hide Run;
    labels := LostCommit(k, request);
    var first: Worker := Replied(k, request, Error);
    RunNext(labels, Request(k, request));
    labels := labels + [Request(k, request)];
    RunNext(labels, Act(1));
    labels := labels + [Act(1)];
    assert Run(labels).workers == [first, Working(k, request, 1)];
    RunNext(labels, Work(1, Committed));
    labels := labels + [Work(1, Committed)];
  }
}
