/** The token contract (contracts/src/InstitutionalToken.sol): an ERC-20 with a supply cap, eligibility windows and
    single-use mint references. Inherited ERC-20, pausing and role behaviour follows the OpenZeppelin 5 contracts. */
module Token {
  import opened CanonicalJson
  import opened MintProposal

  type Address = Text
  const ZERO: Address := Ascii("0x0000000000000000000000000000000000000000")
  function Zeros(n: nat): Text { if n == 0 then [] else [48] + Zeros(n - 1) }
  function NoReference(): Text { Ascii("0x") + Zeros(64) }
  const WORD: nat := 0x1_0000000000000000_0000000000000000_0000000000000000_0000000000000000

  datatype Role = Admin | Minter | Pauser | Compliance

  datatype State = State(
    self: Address, cap: nat, supply: nat, balances: map<Address, nat>, allowances: map<(Address, Address), nat>,
    eligibleUntil: map<Address, nat>, consumed: set<Text>, paused: bool, members: map<Role, set<Address>>)

  datatype Call =
    | MintWithReference(recipient: Address, amount: nat, reference: Text, deadline: nat)
    | SetEligibility(account: Address, until: nat)
    | Transfer(to: Address, value: nat)
    | TransferFrom(from: Address, to: Address, value: nat)
    | Approve(spender: Address, value: nat)
    | Pause
    | Unpause
    | GrantRole(role: Role, account: Address)
    | RevokeRole(role: Role, account: Address)
    | RenounceRole(role: Role, confirmation: Address)

  datatype Error =
    | Unauthorized | EnforcedPause | ExpectedPause | InvalidRecipient | InvalidAmount | InvalidOperationReference
    | OperationReferenceAlreadyConsumed | MintDeadlineExpired | RecipientNotEligible | RecipientEligibilityExpired
    | SupplyCapExceeded | Panic | InvalidSender | InvalidReceiver | InvalidSpender | InsufficientBalance
    | InsufficientAllowance | InvalidApprover | BadConfirmation | InvalidSupplyCap

  datatype Event = MintExecuted(reference: Text, recipient: Address, amount: nat, newSupply: nat)

  datatype Result<T> = Ok(value: T) | Revert(error: Error) {
    predicate IsFailure() { Revert? }
    function PropagateFailure<U>(): Result<U> requires Revert? { Revert(error) }
    function Extract(): T requires Ok? { value }
  }

  function Get<K>(m: map<K, nat>, k: K): nat { if k in m then m[k] else 0 }
  predicate HasRole(t: State, r: Role, a: Address) { r in t.members && a in t.members[r] }
  function Require(ok: bool, e: Error): Result<()> { if ok then Ok(()) else Revert(e) }

  predicate IsEligible(t: State, a: Address, now: nat) {
    Get(t.eligibleUntil, a) != 0 && Get(t.eligibleUntil, a) >= now
  }

  /** Every inbound movement: eligibility first, then the pause, then the balances. */
  function Update(t: State, from: Address, to: Address, value: nat, now: nat): Result<State> {
    var _ :- Require(to == ZERO || IsEligible(t, to, now), RecipientNotEligible);
    var _ :- Require(!t.paused, EnforcedPause);
    if from == ZERO then
      if t.supply + value >= WORD then Revert(Panic)
      else Ok(t.(supply := t.supply + value, balances := t.balances[to := Get(t.balances, to) + value]))
    else if Get(t.balances, from) < value then Revert(InsufficientBalance)
    else
      var less := t.balances[from := Get(t.balances, from) - value];
      Ok(t.(balances := less[to := Get(less, to) + value]))
  }

  function Move(t: State, from: Address, to: Address, value: nat, now: nat): Result<State> {
    var _ :- Require(from != ZERO, InvalidSender);
    var _ :- Require(to != ZERO, InvalidReceiver);
    Update(t, from, to, value, now)
  }

  function Mint(t: State, sender: Address, now: nat, c: Call): Result<(State, seq<Event>)>
    requires c.MintWithReference?
  {
    var _ :- Require(HasRole(t, Minter, sender), Unauthorized);
    var _ :- Require(!t.paused, EnforcedPause);
    var _ :- Require(c.recipient != ZERO && c.recipient != t.self, InvalidRecipient);
    var _ :- Require(c.amount != 0, InvalidAmount);
    var _ :- Require(c.reference != NoReference(), InvalidOperationReference);
    var _ :- Require(c.reference !in t.consumed, OperationReferenceAlreadyConsumed);
    var _ :- Require(c.deadline >= now, MintDeadlineExpired);
    var _ :- Require(Get(t.eligibleUntil, c.recipient) != 0, RecipientNotEligible);
    var _ :- Require(Get(t.eligibleUntil, c.recipient) >= now, RecipientEligibilityExpired);
    var _ :- Require(t.supply + c.amount < WORD, Panic);
    var _ :- Require(t.supply + c.amount <= t.cap, SupplyCapExceeded);
    var m :- Update(t.(consumed := t.consumed + {c.reference}), ZERO, c.recipient, c.amount, now);
    Ok((m, [MintExecuted(c.reference, c.recipient, c.amount, m.supply)]))
  }

  /** One external call of `sender` in a block with timestamp `now`. */
  function Exec(t: State, sender: Address, now: nat, c: Call): Result<(State, seq<Event>)> {
    match c
    case MintWithReference(_, _, _, _) => Mint(t, sender, now, c)
    case SetEligibility(a, until) =>
      var _ :- Require(HasRole(t, Compliance, sender), Unauthorized);
      var _ :- Require(a != ZERO, InvalidRecipient);
      Ok((t.(eligibleUntil := t.eligibleUntil[a := until]), []))
    case Transfer(to, value) =>
      var m :- Move(t, sender, to, value, now);
      Ok((m, []))
    case TransferFrom(from, to, value) =>
      var allowed := Get(t.allowances, (from, sender));
      var _ :- Require(allowed == WORD - 1 || allowed >= value, InsufficientAllowance);
      var _ :- Require(allowed == WORD - 1 || from != ZERO, InvalidApprover);
      var spent := if allowed == WORD - 1 then t else t.(allowances := t.allowances[(from, sender) := allowed - value]);
      var m :- Move(spent, from, to, value, now);
      Ok((m, []))
    case Approve(spender, value) =>
      var _ :- Require(spender != ZERO, InvalidSpender);
      Ok((t.(allowances := t.allowances[(sender, spender) := value]), []))
    case Pause =>
      var _ :- Require(HasRole(t, Pauser, sender), Unauthorized);
      var _ :- Require(!t.paused, EnforcedPause);
      Ok((t.(paused := true), []))
    case Unpause =>
      var _ :- Require(HasRole(t, Pauser, sender), Unauthorized);
      var _ :- Require(t.paused, ExpectedPause);
      Ok((t.(paused := false), []))
    case GrantRole(r, a) =>
      var _ :- Require(HasRole(t, Admin, sender), Unauthorized);
      Ok((t.(members := t.members[r := (if r in t.members then t.members[r] else {}) + {a}]), []))
    case RevokeRole(r, a) =>
      var _ :- Require(HasRole(t, Admin, sender), Unauthorized);
      Ok((t.(members := t.members[r := (if r in t.members then t.members[r] else {}) - {a}]), []))
    case RenounceRole(r, a) =>
      var _ :- Require(a == sender, BadConfirmation);
      Ok((t.(members := t.members[r := (if r in t.members then t.members[r] else {}) - {a}]), []))
  }

  // ---------- what each call does ----------

  /** `value` went from one holder to another, and nothing else moved; to oneself nothing moves. */
  ghost predicate Paid(before: map<Address, nat>, after: map<Address, nat>, from: Address, to: Address, value: nat) {
    && Get(before, from) >= value
    && (from != to ==> Get(after, from) == Get(before, from) - value && Get(after, to) == Get(before, to) + value)
    && (from == to ==> Get(after, from) == Get(before, from))
    && forall a | a != from && a != to :: Get(after, a) == Get(before, a)
  }

  /** `to` may receive: an eligibility window that is set and not over, and no pause. */
  predicate MayReceive(t: State, to: Address, now: nat) {
    to != ZERO && to in t.eligibleUntil && t.eligibleUntil[to] != 0 && now <= t.eligibleUntil[to] && !t.paused
  }

  /** A transfer succeeds exactly when the caller has the tokens and the receiver may receive; they go from the caller to
      the receiver and nothing else changes. The first failing check names the revert. */
  lemma TransferExactly(t: State, sender: Address, now: nat, to: Address, value: nat)
    ensures var r := Exec(t, sender, now, Transfer(to, value));
            && (r.Ok? <==> sender != ZERO && MayReceive(t, to, now) && Get(t.balances, sender) >= value)
            && (r.Ok? ==>
                  && Paid(t.balances, r.value.0.balances, sender, to, value)
                  && r.value.0 == t.(balances := r.value.0.balances) && r.value.1 == [])
            && (r.Ok? || r.error ==
                  (if sender == ZERO then InvalidSender
                  else if to == ZERO then InvalidReceiver
                  else if !MayReceive(t.(paused := false), to, now) then RecipientNotEligible
                  else if t.paused then EnforcedPause
                  else InsufficientBalance))
  {
  }

  /** The caller moves an owner's tokens exactly when its allowance from that owner covers them, they are there and the
      receiver may receive. A limited allowance is spent by the value, an unlimited one and all others stay. */
  lemma TransferFromExactly(t: State, sender: Address, now: nat, from: Address, to: Address, value: nat)
    ensures var r, allowed := Exec(t, sender, now, TransferFrom(from, to, value)), Get(t.allowances, (from, sender));
            && (r.Ok? <==> allowed >= (if allowed == WORD - 1 then 0 else value) && from != ZERO && MayReceive(t, to, now)
                           && Get(t.balances, from) >= value)
            && (r.Ok? ==>
                  var u := r.value.0;
                  && Paid(t.balances, u.balances, from, to, value) && r.value.1 == []
                  && Get(u.allowances, (from, sender)) == (if allowed == WORD - 1 then allowed else allowed - value)
                  && (forall p | p != (from, sender) :: Get(u.allowances, p) == Get(t.allowances, p))
                  && u == t.(balances := u.balances, allowances := u.allowances))
            && (r.Ok? || r.error ==
                  (if allowed != WORD - 1 && allowed < value then InsufficientAllowance
                  else if from == ZERO then if allowed == WORD - 1 then InvalidSender else InvalidApprover
                  else if to == ZERO then InvalidReceiver
                  else if !MayReceive(t.(paused := false), to, now) then RecipientNotEligible
                  else if t.paused then EnforcedPause
                  else InsufficientBalance))
  {
  }

  /** Anyone sets what another may spend of its own tokens; no balance and no other allowance changes. */
  lemma ApproveExactly(t: State, sender: Address, now: nat, spender: Address, value: nat)
    ensures var r := Exec(t, sender, now, Approve(spender, value));
            && (spender == ZERO ==> r == Revert(InvalidSpender))
            && (spender != ZERO ==>
                  && r.Ok? && r.value.1 == [] && r.value.0 == t.(allowances := r.value.0.allowances)
                  && Get(r.value.0.allowances, (sender, spender)) == value
                  && forall p | p != (sender, spender) :: Get(r.value.0.allowances, p) == Get(t.allowances, p))
  {
  }

  /** The compliance role sets when an account's eligibility ends: from then on the account is eligible exactly up to and
      including that time, a zero ends it at once, and nobody else's changes. */
  lemma SetEligibilityExactly(t: State, sender: Address, now: nat, account: Address, until: nat)
    ensures var r := Exec(t, sender, now, SetEligibility(account, until));
            && (!HasRole(t, Compliance, sender) ==> r == Revert(Unauthorized))
            && (HasRole(t, Compliance, sender) && account == ZERO ==> r == Revert(InvalidRecipient))
            && (HasRole(t, Compliance, sender) && account != ZERO ==>
                  && r.Ok? && r.value.1 == [] && r.value.0 == t.(eligibleUntil := r.value.0.eligibleUntil)
                  && (forall at: nat :: IsEligible(r.value.0, account, at) <==> until != 0 && at <= until)
                  && forall a, at: nat | a != account :: IsEligible(r.value.0, a, at) <==> IsEligible(t, a, at))
  {
  }

  /** A grant by the admin adds one member to one role. */
  lemma GrantExactly(t: State, sender: Address, now: nat, role: Role, account: Address)
    ensures var r := Exec(t, sender, now, GrantRole(role, account));
            && (!HasRole(t, Admin, sender) ==> r == Revert(Unauthorized))
            && (HasRole(t, Admin, sender) ==>
                  && r.Ok? && r.value.1 == [] && r.value.0 == t.(members := r.value.0.members)
                  && forall q, a :: HasRole(r.value.0, q, a) <==> HasRole(t, q, a) || (q == role && a == account))
  {
  }

  /** A revocation by the admin removes one member from one role. */
  lemma RevokeExactly(t: State, sender: Address, now: nat, role: Role, account: Address)
    ensures var r := Exec(t, sender, now, RevokeRole(role, account));
            && (!HasRole(t, Admin, sender) ==> r == Revert(Unauthorized))
            && (HasRole(t, Admin, sender) ==>
                  && r.Ok? && r.value.1 == [] && r.value.0 == t.(members := r.value.0.members)
                  && forall q, a :: HasRole(r.value.0, q, a) <==> HasRole(t, q, a) && !(q == role && a == account))
  {
  }

  /** Whoever names itself gives up its own role, and nobody else's. */
  lemma RenounceExactly(t: State, sender: Address, now: nat, role: Role, confirmation: Address)
    ensures var r := Exec(t, sender, now, RenounceRole(role, confirmation));
            && (confirmation != sender ==> r == Revert(BadConfirmation))
            && (confirmation == sender ==>
                  && r.Ok? && r.value.1 == [] && r.value.0 == t.(members := r.value.0.members)
                  && forall q, a :: HasRole(r.value.0, q, a) <==> HasRole(t, q, a) && !(q == role && a == sender))
  {
  }

  /** The pauser, and nobody else, stops and resumes the token, each from the other state only. */
  lemma PauseExactly(t: State, sender: Address, now: nat)
    ensures var p, u := Exec(t, sender, now, Pause), Exec(t, sender, now, Unpause);
            && (!HasRole(t, Pauser, sender) ==> p == Revert(Unauthorized) && u == Revert(Unauthorized))
            && (HasRole(t, Pauser, sender) ==>
                  && p == (if t.paused then Revert(EnforcedPause) else Ok((t.(paused := true), [])))
                  && u == (if t.paused then Ok((t.(paused := false), [])) else Revert(ExpectedPause)))
  {
  }

  // ---------- every call sequence ----------

  datatype Message = Message(sender: Address, now: nat, call: Call)

  function Deployed(self: Address, cap: nat, members: map<Role, set<Address>>): State {
    State(self, cap, 0, map[], map[], map[], {}, false, members)
  }

  /** The contract and everything it has logged after a sequence of calls; a reverted call changes nothing. */
  function Run(t: State, calls: seq<Message>): (State, seq<Event>) {
    if calls == [] then (t, []) else
      var n := |calls| - 1;
      var (u, log) := Run(t, calls[..n]);
      match Exec(u, calls[n].sender, calls[n].now, calls[n].call)
      case Ok(r) => (r.0, log + r.1)
      case Revert(_) => (u, log)
  }

  ghost function Sum<K>(m: map<K, nat>): nat {
    if m == map[] then 0 else
      var k :| k in m;
      m[k] + Sum(m - {k})
  }

  function Minted(log: seq<Event>): nat {
    if log == [] then 0 else Minted(log[..|log| - 1]) + log[|log| - 1].amount
  }

  ghost predicate Once(log: seq<Event>) {
    forall i, j :: 0 <= i < j < |log| ==> log[i].reference != log[j].reference
  }

  ghost predicate Logged(log: seq<Event>, reference: Text) {
    exists i :: 0 <= i < |log| && log[i].reference == reference
  }

  /** The balances, the supply and the log account for the same tokens, and each consumed reference for one mint. */
  ghost predicate Conserved(t: State, log: seq<Event>) {
    && Sum(t.balances) == t.supply == Minted(log) <= t.cap
    && Once(log)
    && (forall r :: r in t.consumed <==> Logged(log, r))
  }

  lemma {:induction false} SumWithout<K>(m: map<K, nat>, k: K)
    requires k in m
    ensures Sum(m) == m[k] + Sum(m - {k})
    decreases |m|
  {
    var p :| p in m && Sum(m) == m[p] + Sum(m - {p});
    if p != k {
      SumWithout(m - {p}, k);
      SumWithout(m - {k}, p);
      assert m - {p} - {k} == m - {k} - {p};
    }
  }

  lemma SumWith<K>(m: map<K, nat>, k: K, v: nat)
    ensures Sum(m[k := v]) + Get(m, k) == Sum(m) + v
  {
    SumWithout(m[k := v], k);
    if k in m {
      SumWithout(m, k);
      assert m[k := v] - {k} == m - {k};
    } else {
      assert m[k := v] - {k} == m;
    }
  }

  lemma MoveConserves(t: State, from: Address, to: Address, value: nat, now: nat)
    requires from != ZERO && Update(t, from, to, value, now).Ok?
    ensures Sum(Update(t, from, to, value, now).value.balances) == Sum(t.balances)
  {
    hide Sum;
    var less := t.balances[from := Get(t.balances, from) - value];
    SumWith(t.balances, from, Get(t.balances, from) - value);
    SumWith(less, to, Get(less, to) + value);
  }

  lemma MintConserves(t: State, log: seq<Event>, sender: Address, now: nat, c: Call)
    requires Conserved(t, log) && c.MintWithReference? && Mint(t, sender, now, c).Ok?
    ensures Conserved(Mint(t, sender, now, c).value.0, log + Mint(t, sender, now, c).value.1)
  {
    var (m, events) := Mint(t, sender, now, c).value;
    var after := log + events;
    SumWith(t.balances, c.recipient, Get(t.balances, c.recipient) + c.amount);
    assert after[..|after| - 1] == log;
    assert !Logged(log, c.reference);
    forall r ensures r in m.consumed <==> Logged(after, r) {
      if Logged(log, r) {
        var i :| 0 <= i < |log| && log[i].reference == r;
        assert after[i].reference == r;
      }
      assert after[|log|].reference == c.reference;
    }
  }

  lemma ExecConserves(t: State, log: seq<Event>, m: Message)
    requires Conserved(t, log) && Exec(t, m.sender, m.now, m.call).Ok?
    ensures var r := Exec(t, m.sender, m.now, m.call).value; Conserved(r.0, log + r.1)
  {
    hide Sum, Mint;
    var r := Exec(t, m.sender, m.now, m.call).value;
    if m.call.MintWithReference? {
      MintConserves(t, log, m.sender, m.now, m.call);
    } else {
      assert log + r.1 == log;
      CallConserves(t, m);
    }
  }

  /** Every call but a mint leaves the balances' sum, the supply, the cap and the consumed references alone. */
  lemma CallConserves(t: State, m: Message)
    requires !m.call.MintWithReference? && Exec(t, m.sender, m.now, m.call).Ok?
    ensures var u := Exec(t, m.sender, m.now, m.call).value.0;
            Sum(u.balances) == Sum(t.balances) && u.supply == t.supply && u.cap == t.cap && u.consumed == t.consumed
  {
    hide Sum;
    match m.call
    case Transfer(to, value) => MoveConserves(t, m.sender, to, value, m.now);
    case TransferFrom(from, to, value) =>
      var allowed := Get(t.allowances, (from, m.sender));
      var spent := if allowed == WORD - 1 then t
                   else t.(allowances := t.allowances[(from, m.sender) := allowed - value]);
      MoveConserves(spent, from, to, value, m.now);
    case _ =>
  }

  /** Conservation over every call sequence by anyone. */
  lemma {:induction false} RunConserves(self: Address, cap: nat, members: map<Role, set<Address>>, calls: seq<Message>)
    ensures var r := Run(Deployed(self, cap, members), calls); Conserved(r.0, r.1)
  {
    if calls == [] {
      forall r ensures !Logged([], r) {}
    } else {
      var n := |calls| - 1;
      RunConserves(self, cap, members, calls[..n]);
      var r := Run(Deployed(self, cap, members), calls[..n]);
      if Exec(r.0, calls[n].sender, calls[n].now, calls[n].call).Ok? {
        ExecConserves(r.0, r.1, calls[n]);
      }
    }
  }

  /** Whoever's balance rises was eligible at that moment, and the contract was not paused. */
  lemma CreditedWasEligible(t: State, m: Message, who: Address)
    requires Exec(t, m.sender, m.now, m.call).Ok?
    requires Get(Exec(t, m.sender, m.now, m.call).value.0.balances, who) > Get(t.balances, who)
    ensures IsEligible(t, who, m.now) && !t.paused
  {
  }

  /** A mint succeeds exactly when every ordered check holds, and then it logs itself and credits its recipient. */
  lemma MintExactly(t: State, sender: Address, now: nat, c: Call)
    requires c.MintWithReference?
    ensures Exec(t, sender, now, c).Ok? <==>
      && HasRole(t, Minter, sender) && !t.paused
      && c.recipient != ZERO && c.recipient != t.self && c.amount != 0 && c.reference != NoReference()
      && c.reference !in t.consumed && c.deadline >= now && IsEligible(t, c.recipient, now)
      && t.supply + c.amount < WORD && t.supply + c.amount <= t.cap
    ensures Exec(t, sender, now, c).Ok? ==>
      var r := Exec(t, sender, now, c).value;
      && r.1 == [MintExecuted(c.reference, c.recipient, c.amount, t.supply + c.amount)]
      && r.0.supply == t.supply + c.amount && r.0.consumed == t.consumed + {c.reference}
      && r.0.balances == t.balances[c.recipient := Get(t.balances, c.recipient) + c.amount]
  {
  }
}
