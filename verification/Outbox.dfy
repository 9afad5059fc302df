/** The transactional outbox: rows leased to dispatchers in the database, published to a queue, then marked
    (src/db/repositories/outbox-repository.ts, src/modules/outbox/outbox-dispatcher.ts). */
module Outbox {
  import opened CanonicalJson

  datatype Status = Pending | Claimed | Dispatched

  datatype Row = Row(op: nat, status: Status, available: nat, token: Option<nat>, expires: nat, attempts: nat)

  // ---------- statements ----------

  predicate Due(r: Row, now: nat) { (r.status.Pending? && r.available <= now) || (r.status.Claimed? && r.expires <= now) }

  function Lease(r: Row, token: nat, until: nat): Row {
    r.(status := Claimed, token := Some(token), expires := until, attempts := r.attempts + 1)
  }

  /** claimPendingOutbox: the due rows the statement picked, leased to a fresh token. */
  function Claim(rows: seq<Row>, picked: seq<nat>, token: nat, until: nat): seq<Row> {
    seq(|rows|, i requires 0 <= i < |rows| => if i in picked then Lease(rows[i], token, until) else rows[i])
  }

  function Done(r: Row): Row { r.(status := Dispatched, token := None, expires := 0) }

  /** markOutboxDispatched: only rows still held under this token. */
  function Mark(rows: seq<Row>, ids: seq<nat>, token: nat): seq<Row> {
    seq(|rows|, i requires 0 <= i < |rows| => if i in ids && rows[i].token == Some(token) then Done(rows[i]) else rows[i])
  }

  function Back(r: Row, available: nat): Row { r.(status := Pending, available := available, token := None, expires := 0) }

  /** rescheduleOutbox: only while the row is still held under this token. */
  function Reschedule(rows: seq<Row>, id: nat, token: nat, available: nat): seq<Row> {
    if id < |rows| && rows[id].token == Some(token) then rows[id := Back(rows[id], available)] else rows
  }

  // ---------- the dispatchers ----------

  /** A dispatcher between cycles, publishing what it claimed, or giving one row back after a failed publication. */
  datatype Worker =
    | Idle
    | Publishing(token: nat, todo: seq<nat>, published: seq<nat>)
    | GivingBack(token: nat, id: nat, todo: seq<nat>, published: seq<nat>)

  /** `queue` has the rows whose job the queue ever accepted, in order. */
  datatype State = State(now: nat, rows: seq<Row>, tokens: nat, workers: seq<Worker>, queue: seq<nat>)

  /** An error from the queue does not tell whether the job was accepted. */
  datatype Answer = Accepted | AcceptedButFailed | Refused

  datatype Label =
    | Enqueue(op: nat)
    | Tick(span: nat)
    | Start
    | Take(worker: nat, picked: seq<nat>, lease: nat)
    | Publish(worker: nat, answer: Answer)
    | GiveBack(worker: nat, retryAfter: nat)
    | Finish(worker: nat)
    | Crash(worker: nat)

  function Init(): State { State(0, [], 0, [], []) }

  predicate Distinct(ids: seq<nat>) { forall i, j :: 0 <= i < j < |ids| ==> ids[i] != ids[j] }

  function SetWorker(s: State, w: nat, a: Worker): State
    requires w < |s.workers|
  {
    s.(workers := s.workers[w := a])
  }

  /** A label that does not apply changes nothing. Which due rows a claim picks, and in which order, is left open. */
  function Step(s: State, l: Label): State {
    match l
    case Enqueue(op) => s.(rows := s.rows + [Row(op, Pending, s.now, None, 0, 0)])
    case Tick(span) => s.(now := s.now + span)
    case Start => s.(workers := s.workers + [Idle])
    case Take(w, picked, lease) =>
      if w < |s.workers| && s.workers[w].Idle? && Distinct(picked)
         && (forall k: nat :: k < |picked| ==> picked[k] < |s.rows| && Due(s.rows[picked[k]], s.now))
      then
        var t := s.(rows := Claim(s.rows, picked, s.tokens, s.now + lease), tokens := s.tokens + 1);
        SetWorker(t, w, if picked == [] then Idle else Publishing(s.tokens, picked, []))
      else s
    case Publish(w, answer) =>
      if w < |s.workers| && s.workers[w].Publishing? && s.workers[w].todo != [] then
        var a := s.workers[w];
        var id, rest := a.todo[0], a.todo[1..];
        var t := if answer.Refused? then s else s.(queue := s.queue + [id]);
        SetWorker(t, w, if answer.Accepted? then Publishing(a.token, rest, a.published + [id])
                        else GivingBack(a.token, id, rest, a.published))
      else s
    case GiveBack(w, retryAfter) =>
      if w < |s.workers| && s.workers[w].GivingBack? then
        var a := s.workers[w];
        SetWorker(s.(rows := Reschedule(s.rows, a.id, a.token, s.now + retryAfter)), w, Publishing(a.token, a.todo, a.published))
      else s
    case Finish(w) =>
      if w < |s.workers| && s.workers[w].Publishing? && s.workers[w].todo == [] then
        SetWorker(s.(rows := Mark(s.rows, s.workers[w].published, s.workers[w].token)), w, Idle)
      else s
    case Crash(w) => if w < |s.workers| then SetWorker(s, w, Idle) else s
  }

  function Run(labels: seq<Label>): State {
    if labels == [] then Init() else Step(Run(labels[..|labels| - 1]), labels[|labels| - 1])
  }

  // ---------- invariants ----------

  predicate RowOk(s: State, i: nat)
    requires i < |s.rows|
  {
    var r := s.rows[i];
    && (r.status.Claimed? <==> r.token.Some?)
    && (r.token.Some? ==> r.token.value < s.tokens)
    && (r.status.Dispatched? ==> i in s.queue)
  }

  predicate WorkerOk(s: State, a: Worker) {
    !a.Idle? ==>
      && a.token < s.tokens
      && (forall k: nat :: k < |a.published| ==> a.published[k] in s.queue)
      && (forall k: nat :: k < |a.todo| ==> a.todo[k] < |s.rows|)
  }

  ghost predicate Inv(s: State) {
    && (forall i: nat :: i < |s.rows| ==> RowOk(s, i))
    && (forall w: nat :: w < |s.workers| ==> WorkerOk(s, s.workers[w]))
    && (forall v: nat, w: nat :: v < w < |s.workers| && !s.workers[v].Idle? && !s.workers[w].Idle? ==>
          s.workers[v].token != s.workers[w].token)
    && (forall k: nat :: k < |s.queue| ==> s.queue[k] < |s.rows|)
  }

  lemma MarkOk(s: State, w: nat)
    requires Inv(s) && w < |s.workers| && s.workers[w].Publishing?
    ensures var t := s.(rows := Mark(s.rows, s.workers[w].published, s.workers[w].token));
            forall i: nat :: i < |t.rows| ==> RowOk(t, i)
  {
    var a := s.workers[w];
    var t := s.(rows := Mark(s.rows, a.published, a.token));
    assert WorkerOk(s, a);
    forall i: nat | i < |t.rows| ensures RowOk(t, i) {
      assert RowOk(s, i);
      if i in a.published {
        var k: nat :| k < |a.published| && a.published[k] == i;
      }
    }
  }

  lemma RowsStay(s: State, t: State)
    requires Inv(s) && t.rows == s.rows && t.tokens >= s.tokens && s.queue <= t.queue
    ensures forall i: nat :: i < |t.rows| ==> RowOk(t, i)
    ensures forall a: Worker :: WorkerOk(s, a) ==> WorkerOk(t, a)
  {
    forall i: nat | i < |t.rows| ensures RowOk(t, i) { assert RowOk(s, i); }
  }

  /** Every step keeps the leases apart and records what was published before it is marked. */
  lemma StepKeeps(s: State, l: Label)
    requires Inv(s)
    ensures Inv(Step(s, l))
  {
    var t := Step(s, l);
    match l
    case Enqueue(op) =>
      forall i: nat | i < |t.rows| ensures RowOk(t, i) { if i < |s.rows| { assert RowOk(s, i); } }
      forall w: nat | w < |t.workers| ensures WorkerOk(t, t.workers[w]) { assert WorkerOk(s, s.workers[w]); }
    case Tick(_) => RowsStay(s, t);
    case Start =>
      RowsStay(s, t);
      forall w: nat | w < |t.workers| ensures WorkerOk(t, t.workers[w]) { if w < |s.workers| { assert WorkerOk(s, s.workers[w]); } }
    case Take(w, picked, lease) => TakeKeeps(s, w, picked, lease);
    case Publish(w, answer) =>
      RowsStay(s, t);
      PublishKeeps(s, w, answer);
    case GiveBack(w, retryAfter) =>
      forall i: nat | i < |t.rows| ensures RowOk(t, i) { assert RowOk(s, i); }
      forall v: nat | v < |t.workers| ensures WorkerOk(t, t.workers[v]) { assert WorkerOk(s, s.workers[v]); }
    case Finish(w) =>
      if w < |s.workers| && s.workers[w].Publishing? { MarkOk(s, w); }
      forall i: nat | i < |t.rows| ensures RowOk(t, i) { assert RowOk(s, i); }
      forall v: nat | v < |t.workers| ensures WorkerOk(t, t.workers[v]) { assert WorkerOk(s, s.workers[v]); }
    case Crash(w) =>
      RowsStay(s, t);
      forall v: nat | v < |t.workers| ensures WorkerOk(t, t.workers[v]) { assert WorkerOk(s, s.workers[v]); }
  }

  lemma TakeKeeps(s: State, w: nat, picked: seq<nat>, lease: nat)
    requires Inv(s)
    ensures Inv(Step(s, Take(w, picked, lease)))
  {
    var t := Step(s, Take(w, picked, lease));
    forall i: nat | i < |t.rows| ensures RowOk(t, i) { assert RowOk(s, i); }
    forall v: nat | v < |t.workers| ensures WorkerOk(t, t.workers[v]) { assert WorkerOk(s, s.workers[v]); }
    forall v: nat, u: nat | v < u < |t.workers| && !t.workers[v].Idle? && !t.workers[u].Idle?
      ensures t.workers[v].token != t.workers[u].token
    {
      assert WorkerOk(s, s.workers[v]) && WorkerOk(s, s.workers[u]);
    }
  }

  lemma PublishKeeps(s: State, w: nat, answer: Answer)
    requires Inv(s)
    ensures var t := Step(s, Publish(w, answer));
            && (forall v: nat :: v < |t.workers| ==> WorkerOk(t, t.workers[v]))
            && (forall k: nat :: k < |t.queue| ==> t.queue[k] < |t.rows|)
            && (forall v: nat, u: nat :: v < u < |t.workers| && !t.workers[v].Idle? && !t.workers[u].Idle? ==>
                  t.workers[v].token != t.workers[u].token)
  {
  }

  lemma {:induction false} RunKeeps(labels: seq<Label>)
    ensures Inv(Run(labels))
  {
    if labels != [] {
      hide Step, Inv;
      RunKeeps(labels[..|labels| - 1]);
      StepKeeps(Run(labels[..|labels| - 1]), labels[|labels| - 1]);
    }
  }

  // ---------- what holds over every run ----------

  /** The worker's token is the one the row is leased to: only then can it complete the row. */
  predicate CanComplete(s: State, w: nat, i: nat) {
    w < |s.workers| && i < |s.rows| && !s.workers[w].Idle? && s.rows[i].token == Some(s.workers[w].token)
  }

  /** At most one dispatcher can complete a row, DISPATCHED rows were published, and a row that is neither is due again
      once its delay or lease is over: a dispatcher that dies strands nothing. */
  lemma LeaseIsExclusive(labels: seq<Label>, i: nat)
    requires i < |Run(labels).rows|
    ensures var s := Run(labels);
            && (forall v: nat, w: nat | CanComplete(s, v, i) && CanComplete(s, w, i) :: v == w)
            && (s.rows[i].status.Dispatched? ==> i in s.queue)
            && (!s.rows[i].status.Dispatched? ==>
                  forall later: nat :: later >= s.rows[i].available && later >= s.rows[i].expires ==> Due(s.rows[i], later))
  {
    hide Run;
    RunKeeps(labels);
    var s := Run(labels);
    assert RowOk(s, i);
    forall v: nat, w: nat | CanComplete(s, v, i) && CanComplete(s, w, i) ensures v == w { OneHolder(s, v, w, i); }
  }

  lemma OneHolder(s: State, v: nat, w: nat, i: nat)
    requires Inv(s) && CanComplete(s, v, i) && CanComplete(s, w, i)
    ensures v == w
  {
  }

  /** A row is changed by a dispatcher's last write exactly when it is still leased to that dispatcher. */
  lemma StaleTokensChangeNothing(s: State, w: nat, i: nat, retryAfter: nat)
    requires Inv(s) && w < |s.workers| && i < |s.rows|
    ensures Step(s, Finish(w)).rows[i] != s.rows[i] <==>
              CanComplete(s, w, i) && s.workers[w].Publishing? && s.workers[w].todo == [] && i in s.workers[w].published
    ensures Step(s, GiveBack(w, retryAfter)).rows[i] != s.rows[i] <==>
              CanComplete(s, w, i) && s.workers[w].GivingBack? && s.workers[w].id == i
  {
    assert RowOk(s, i);
  }

  /** The row of an operation stays in the table, and a DISPATCHED one never changes again. */
  predicate RowKept(r: Row, q: Row) { q.op == r.op && q.attempts >= r.attempts && (r.status.Dispatched? ==> q == r) }

  lemma StepKeepsRows(s: State, l: Label, i: nat)
    requires Inv(s) && i < |s.rows|
    ensures i < |Step(s, l).rows| && RowKept(s.rows[i], Step(s, l).rows[i])
    ensures Step(s, l).rows[i].status.Dispatched? && !s.rows[i].status.Dispatched? ==>
              l.Finish? && CanComplete(s, l.worker, i) && i in s.workers[l.worker].published
  {
    assert RowOk(s, i);
  }

  /** No row is lost: over any run it keeps its operation, and once DISPATCHED it stays exactly as it is. */
  lemma {:induction false} NoRowIsLost(labels: seq<Label>, n: nat, i: nat)
    requires n <= |labels| && i < |Run(labels[..n]).rows|
    ensures i < |Run(labels).rows| && RowKept(Run(labels[..n]).rows[i], Run(labels).rows[i])
    decreases |labels|
  {
    hide Step, Inv;
    if n == |labels| {
      assert labels[..n] == labels;
    } else {
      var k := |labels| - 1;
      assert labels[..k][..n] == labels[..n];
      NoRowIsLost(labels[..k], n, i);
      RunKeeps(labels[..k]);
      StepKeepsRows(Run(labels[..k]), labels[k], i);
    }
  }

  // ---------- delays and leases ----------

  /** Until when nobody but the holder of its lease may touch the row. */
  function Until(r: Row): nat { if r.status.Pending? then r.available else r.expires }

  /** A new row is due at once. A claim leases the rows it picks to a fresh token until the lease is over; a row given back
      waits for its delay, and it is given back exactly unless the queue said that it accepted the job. */
  lemma WritesExactly(s: State, w: nat, i: nat, picked: seq<nat>, lease: nat, retryAfter: nat)
    requires Inv(s) && w < |s.workers| && i < |s.rows|
    ensures var r, q := s.rows[i], Step(s, Take(w, picked, lease)).rows[i];
            q != r ==>
              && i in picked && s.workers[w].Idle? && !r.status.Dispatched? && Until(r) <= s.now
              && q == Row(r.op, Claimed, r.available, Some(s.tokens), s.now + lease, r.attempts + 1)
              && forall v: nat :: !CanComplete(s.(rows := Step(s, Take(w, picked, lease)).rows), v, i)
    ensures var r, q := s.rows[i], Step(s, GiveBack(w, retryAfter)).rows[i];
            q != r ==> q == Row(r.op, Pending, s.now + retryAfter, None, 0, r.attempts)
    ensures forall op: nat ::
              var row := Row(op, Pending, s.now, None, 0, 0);
              Step(s, Enqueue(op)).rows == s.rows + [row] && Due(row, s.now)
    ensures var a := s.workers[w];
            a.Publishing? && a.todo != [] ==> forall answer: Answer ::
              var t := Step(s, Publish(w, answer));
              && t.rows == s.rows && t.queue == s.queue + (if answer == Refused then [] else [a.todo[0]])
              && t.workers == s.workers[w := if answer == Accepted then Publishing(a.token, a.todo[1..], a.published + [a.todo[0]])
                                             else GivingBack(a.token, a.todo[0], a.todo[1..], a.published)]
  {
    assert RowOk(s, i);
    forall v: nat | v < |s.workers| ensures WorkerOk(s, s.workers[v]) {}
  }

  lemma StepWaits(s: State, l: Label, i: nat)
    requires Inv(s) && i < |s.rows| && !s.rows[i].status.Dispatched? && s.now < Until(s.rows[i])
    ensures i < |Step(s, l).rows| && s.now <= Step(s, l).now
    ensures Step(s, l).rows[i] == s.rows[i] || ((l.Finish? || l.GiveBack?) && CanComplete(s, l.worker, i))
  {
    assert RowOk(s, i);
  }

  lemma TimePasses(s: State, l: Label)
    ensures s.now <= Step(s, l).now
  {
  }

  /** A row in its delay stays as it is over every run until the delay is over, and a leased one until the lease is,
      unless its own holder completes it or gives it back: no claim takes either before. */
  lemma {:induction false} RowWaits(labels: seq<Label>, n: nat, i: nat) returns (m: nat)
    requires n <= |labels| && i < |Run(labels[..n]).rows| && !Run(labels[..n]).rows[i].status.Dispatched?
    requires Run(labels).now < Until(Run(labels[..n]).rows[i])
    ensures i < |Run(labels).rows|
    ensures var r := Run(labels[..n]).rows[i];
            || Run(labels).rows[i] == r
            || (&& r.status.Claimed? && n <= m < |labels| && (labels[m].Finish? || labels[m].GiveBack?)
                && i < |Run(labels[..m]).rows| && Run(labels[..m]).rows[i] == r
                && CanComplete(Run(labels[..m]), labels[m].worker, i))
    decreases |labels|
  {
    hide Step, Inv;
    if n == |labels| {
      assert labels[..n] == labels;
      m := n;
    } else {
      var k := |labels| - 1;
      var before := Run(labels[..k]);
      assert labels[..k][..n] == labels[..n];
      TimePasses(before, labels[k]);
      m := RowWaits(labels[..k], n, i);
      NoRowIsLost(labels, k, i);
      if before.rows[i] == Run(labels[..n]).rows[i] {
        RunKeeps(labels[..k]);
        PendingIsFree(before, i);
        StepWaits(before, labels[k], i);
        m := k;
      } else {
        assert labels[..k][..m] == labels[..m];
      }
    }
  }

  lemma PendingIsFree(s: State, i: nat)
    requires Inv(s) && i < |s.rows|
    ensures s.rows[i].status.Claimed? || forall w: nat :: !CanComplete(s, w, i)
  {
    assert RowOk(s, i);
  }

  // ---------- one dispatch cycle ----------

  function Count(answers: seq<Answer>): nat {
    if answers == [] then 0
    else Count(answers[..|answers| - 1]) + if answers[|answers| - 1].Accepted? then 1 else 0
  }

  /** What one undisturbed cycle leaves of the row it picked as number `k`. */
  function Handled(r: Row, answer: Answer, token: nat, until: nat, retryAt: nat): Row {
    if answer.Accepted? then Done(Lease(r, token, until)) else Back(Lease(r, token, until), retryAt)
  }

  /** What the publishing loop leaves: failed rows are back, the ids collected are those the queue accepted. */
  ghost predicate Published(leased: seq<Row>, rows: seq<Row>, picked: seq<nat>, answers: seq<Answer>, retryAt: nat,
                            dispatched: seq<nat>)
    requires |answers| == |picked|
  {
    && |rows| == |leased|
    && (forall k: nat :: k < |picked| ==> picked[k] < |rows| && (picked[k] in dispatched <==> answers[k].Accepted?))
    && (forall i :: i in dispatched ==> i in picked)
    && (forall k: nat :: k < |picked| ==>
          rows[picked[k]] == if answers[k].Accepted? then leased[picked[k]] else Back(leased[picked[k]], retryAt))
    && (forall i: nat :: i < |rows| && i !in picked ==> rows[i] == leased[i])
  }

  lemma NonePublished(rows: seq<Row>, retryAt: nat)
    ensures Published(rows, rows, [], [], retryAt, [])
  {
  }

  lemma OnePublished(leased: seq<Row>, rows: seq<Row>, picked: seq<nat>, answers: seq<Answer>, k: nat, token: nat,
                     retryAt: nat, dispatched: seq<nat>)
    requires |answers| == |picked| && Distinct(picked) && k < |picked|
    requires picked[k] < |leased| && leased[picked[k]].token == Some(token)
    requires Published(leased, rows, picked[..k], answers[..k], retryAt, dispatched)
    ensures if answers[k].Accepted?
            then Published(leased, rows, picked[..k + 1], answers[..k + 1], retryAt, dispatched + [picked[k]])
            else Published(leased, Reschedule(rows, picked[k], token, retryAt), picked[..k + 1], answers[..k + 1], retryAt, dispatched)
  {
    var p, a := picked[..k + 1], answers[..k + 1];
    assert p == picked[..k] + [picked[k]] && a == answers[..k] + [answers[k]];
    assert picked[k] !in picked[..k];
    assert rows[picked[k]] == leased[picked[k]];
    forall m: nat | m < k ensures p[m] == picked[..k][m] && a[m] == answers[..k][m] && p[m] != picked[k] {}
  }

  /** What one cycle leaves of every row. */
  ghost predicate Cycled(before: seq<Row>, rows: seq<Row>, picked: seq<nat>, answers: seq<Answer>, token: nat, until: nat,
                         retryAt: nat)
    requires |answers| == |picked|
  {
    && |rows| == |before|
    && (forall k: nat :: k < |picked| ==>
          picked[k] < |rows| && rows[picked[k]] == Handled(before[picked[k]], answers[k], token, until, retryAt))
    && (forall i: nat :: i < |rows| && i !in picked ==> rows[i] == before[i])
  }

  lemma CycleRows(before: seq<Row>, picked: seq<nat>, answers: seq<Answer>, token: nat, until: nat, retryAt: nat,
                  back: seq<Row>, dispatched: seq<nat>)
    requires |answers| == |picked|
    requires Published(Claim(before, picked, token, until), back, picked, answers, retryAt, dispatched)
    ensures Cycled(before, Mark(back, dispatched, token), picked, answers, token, until, retryAt)
  {
    var leased := Claim(before, picked, token, until);
    forall k: nat | k < |picked| ensures leased[picked[k]] == Lease(before[picked[k]], token, until) {}
  }

  class Dispatcher {
    var running: bool
    var now: nat
    var rows: seq<Row>
    var tokens: nat
    var queue: seq<nat>

    constructor ()
      ensures !running && rows == [] && queue == []
    {
      running, now, rows, tokens, queue := false, 0, [], 0, [];
    }

    /** dispatchOnce: claim, publish each row, give back the ones that failed, then mark the others. `picked` are the
        due rows the claim selected, `answers` what the queue said to each. A cycle already running excludes another. */
    method DispatchOnce(picked: seq<nat>, answers: seq<Answer>, lease: nat, retryAfter: nat) returns (count: nat)
      requires |answers| == |picked| && Distinct(picked)
      requires forall k: nat :: k < |picked| ==> picked[k] < |rows| && Due(rows[picked[k]], now)
      modifies this
      ensures old(running) ==> count == 0 && running && rows == old(rows) && queue == old(queue) && tokens == old(tokens)
      ensures !old(running) ==>
                && !running && count == Count(answers) && tokens == old(tokens) + 1
                && Cycled(old(rows), rows, picked, answers, old(tokens), now + lease, now + retryAfter)
      ensures now == old(now)
    {
      hide Mark, Cycled, Published, Distinct, Count;
      if running { return 0; }
      running := true;
      var token := tokens;
      tokens := tokens + 1;
      ghost var before := rows;
      rows := Claim(rows, picked, token, now + lease);
      var dispatched := PublishAll(picked, answers, token, now + retryAfter);
      ghost var back := rows;
      rows := Mark(rows, dispatched, token);
      CycleRows(before, picked, answers, token, now + lease, now + retryAfter, back, dispatched);
      running := false;
      count := |dispatched|;
    }

    /** The loop of one cycle: a row whose publication failed goes back at once, the others are collected. */
    method PublishAll(picked: seq<nat>, answers: seq<Answer>, token: nat, retryAt: nat) returns (dispatched: seq<nat>)
      requires |answers| == |picked| && Distinct(picked)
      requires forall k: nat :: k < |picked| ==> picked[k] < |rows| && rows[picked[k]].token == Some(token)
      modifies this`rows, this`queue
      ensures |dispatched| == Count(answers) && Published(old(rows), rows, picked, answers, retryAt, dispatched)
    {
      hide Published, Reschedule;
      dispatched := [];
      var k := 0;
      NonePublished(rows, retryAt);
      while k < |picked|
        invariant k <= |picked| && |dispatched| == Count(answers[..k])
        invariant Published(old(rows), rows, picked[..k], answers[..k], retryAt, dispatched)
      {
        OnePublished(old(rows), rows, picked, answers, k, token, retryAt, dispatched);
        if !answers[k].Refused? { queue := queue + [picked[k]]; }
        if answers[k].Accepted? {
          dispatched := dispatched + [picked[k]];
        } else {
          rows := Reschedule(rows, picked[k], token, retryAt);
        }
        assert answers[..k + 1][..k] == answers[..k];
        k := k + 1;
      }
      assert answers[..k] == answers && picked[..k] == picked;
    }
  }
}
