/** The token contract with its storage updated in place (contracts/src/InstitutionalToken.sol). Every external call
    is the transition of module Token, and keeps supply, balances, log and consumed references in account. */
module TokenContract {
  import opened CanonicalJson
  import opened Token

  /** What one external call of the specification leaves behind: state and log, unchanged by a revert. */
  function Called(t: State, log: seq<Event>, sender: Address, now: nat, c: Call): (State, seq<Event>) {
    match Exec(t, sender, now, c) case Ok(r) => (r.0, log + r.1) case Revert(_) => (t, log)
  }

  function Outcome(t: State, sender: Address, now: nat, c: Call): Result<()> {
    match Exec(t, sender, now, c) case Ok(_) => Ok(()) case Revert(e) => Revert(e)
  }

  datatype EligibilityUpdated = EligibilityUpdated(account: Address, until: nat)

  /** The roles the constructor grants: the zero address stands for nobody. */
  function Granted(admin: Address, minter: Address, officer: Address, pauser: Address): map<Role, set<Address>> {
    map[Admin := {admin}, Minter := Holder(minter), Compliance := Holder(officer), Pauser := Holder(pauser)]
  }

  function Holder(a: Address): set<Address> { if a == ZERO then {} else {a} }

  class InstitutionalToken {
    const self: Address
    const supplyCap: nat
    var totalSupply: nat
    var balances: map<Address, nat>
    var allowances: map<(Address, Address), nat>
    var eligibleUntil: map<Address, nat>
    var referenceConsumed: set<Text>
    var paused: bool
    var members: map<Role, set<Address>>
    var events: seq<Event>
    var updates: seq<EligibilityUpdated>

    function Storage(): State
      reads this
    {
      State(self, supplyCap, totalSupply, balances, allowances, eligibleUntil, referenceConsumed, paused, members)
    }

    /** The books balance: see Token.Conserved. */
    ghost predicate Valid()
      reads this
    {
      Conserved(Storage(), events)
    }

    constructor (address: Address, cap: nat, roles: map<Role, set<Address>>)
      ensures Valid() && Storage() == Deployed(address, cap, roles) && events == [] && updates == []
    {
      self, supplyCap := address, cap;
      totalSupply, balances, allowances, eligibleUntil := 0, map[], map[], map[];
      referenceConsumed, paused, members, events, updates := {}, false, roles, [], [];
      new;
      RunConserves(address, cap, roles, []);
    }

    /** Deployment refuses a zero cap and then a zero admin, and grants every other role whose holder is not zero. */
    static method Deploy(address: Address, cap: nat, admin: Address, minter: Address, officer: Address, pauser: Address)
      returns (r: Result<InstitutionalToken>)
      ensures cap == 0 ==> r == Revert(InvalidSupplyCap)
      ensures cap != 0 && admin == ZERO ==> r == Revert(InvalidRecipient)
      ensures cap != 0 && admin != ZERO ==>
                && r.Ok? && fresh(r.value) && r.value.Valid() && r.value.events == [] && r.value.updates == []
                && r.value.Storage() == Deployed(address, cap, Granted(admin, minter, officer, pauser))
                && forall role: Role, a: Address :: HasRole(r.value.Storage(), role, a) <==>
                     || (role == Admin && a == admin)
                     || (a != ZERO && a == match role case Admin => admin case Minter => minter case Compliance => officer case Pauser => pauser)
    {
      if cap == 0 { return Revert(InvalidSupplyCap); }
      if admin == ZERO { return Revert(InvalidRecipient); }
      var token := new InstitutionalToken(address, cap, Granted(admin, minter, officer, pauser));
      r := Ok(token);
    }

    /** Eligibility of the receiver first, then the pause, then the movement; a revert changes nothing. */
    method Update(from: Address, to: Address, value: nat, now: nat) returns (r: Result<()>)
      modifies this`totalSupply, this`balances
      ensures var u := Token.Update(old(Storage()), from, to, value, now);
              match u
              case Ok(t) => r == Ok(()) && Storage() == t
              case Revert(e) => r == Revert(e) && Storage() == old(Storage())
    {
      var _ :- Require(to == ZERO || IsEligible(Storage(), to, now), RecipientNotEligible);
      var _ :- Require(!paused, EnforcedPause);
      if from == ZERO {
        var _ :- Require(totalSupply + value < WORD, Panic);
        totalSupply := totalSupply + value;
      } else {
        var _ :- Require(Get(balances, from) >= value, InsufficientBalance);
        balances := balances[from := Get(balances, from) - value];
      }
      balances := balances[to := Get(balances, to) + value];
      r := Ok(());
    }

    method Move(from: Address, to: Address, value: nat, now: nat) returns (r: Result<()>)
      modifies this`totalSupply, this`balances
      ensures match Token.Move(old(Storage()), from, to, value, now)
              case Ok(t) => r == Ok(()) && Storage() == t
              case Revert(e) => r == Revert(e) && Storage() == old(Storage())
    {
      var _ :- Require(from != ZERO, InvalidSender);
      var _ :- Require(to != ZERO, InvalidReceiver);
      r := Update(from, to, value, now);
    }

    method MintWithReference(sender: Address, now: nat, recipient: Address, amount: nat, reference: Text, deadline: nat)
      returns (r: Result<()>)
      requires Valid()
      modifies this
      ensures Valid()
      ensures var c := Call.MintWithReference(recipient, amount, reference, deadline);
              (Storage(), events) == Called(old(Storage()), old(events), sender, now, c)
              && r == Outcome(old(Storage()), sender, now, c)
    {
      hide Conserved;
      ghost var c := Call.MintWithReference(recipient, amount, reference, deadline);
      ghost var t, log := Storage(), events;
      var _ :- Require(HasRole(Storage(), Minter, sender), Unauthorized);
      var _ :- Require(!paused, EnforcedPause);
      var _ :- Require(recipient != ZERO && recipient != self, InvalidRecipient);
      var _ :- Require(amount != 0, InvalidAmount);
      var _ :- Require(reference != NoReference(), InvalidOperationReference);
      var _ :- Require(reference !in referenceConsumed, OperationReferenceAlreadyConsumed);
      var _ :- Require(deadline >= now, MintDeadlineExpired);
      var until := Get(eligibleUntil, recipient);
      var _ :- Require(until != 0, RecipientNotEligible);
      var _ :- Require(until >= now, RecipientEligibilityExpired);
      var _ :- Require(totalSupply + amount < WORD, Panic);
      var _ :- Require(totalSupply + amount <= supplyCap, SupplyCapExceeded);
      referenceConsumed := referenceConsumed + {reference};
      r := Update(ZERO, recipient, amount, now);
      events := events + [MintExecuted(reference, recipient, amount, totalSupply)];
      ExecConserves(t, log, Message(sender, now, c));
    }

    method SetEligibility(sender: Address, now: nat, account: Address, until: nat) returns (r: Result<()>)
      requires Valid()
      modifies this`eligibleUntil, this`updates
      ensures Valid()
      ensures updates == old(updates) + if r.Ok? then [EligibilityUpdated(account, until)] else []
      ensures var c := Call.SetEligibility(account, until);
              (Storage(), events) == Called(old(Storage()), old(events), sender, now, c)
              && r == Outcome(old(Storage()), sender, now, c)
    {
      assert events + [] == events;
      var _ :- Require(HasRole(Storage(), Compliance, sender), Unauthorized);
      var _ :- Require(account != ZERO, InvalidRecipient);
      eligibleUntil := eligibleUntil[account := until];
      updates := updates + [EligibilityUpdated(account, until)];
      r := Ok(());
    }

    method Transfer(sender: Address, now: nat, to: Address, value: nat) returns (r: Result<()>)
      requires Valid()
      modifies this`totalSupply, this`balances
      ensures Valid()
      ensures var c := Call.Transfer(to, value);
              (Storage(), events) == Called(old(Storage()), old(events), sender, now, c)
              && r == Outcome(old(Storage()), sender, now, c)
      ensures r.Ok? <==> sender != ZERO && MayReceive(old(Storage()), to, now) && Get(old(balances), sender) >= value
      ensures if r.Ok? then Paid(old(balances), balances, sender, to, value) else balances == old(balances)
    {
      assert events + [] == events;
      TransferExactly(Storage(), sender, now, to, value);
      ghost var t, log := Storage(), events;
      r := Move(sender, to, value, now);
      if r.Ok? { Kept(t, log, sender, now, Call.Transfer(to, value)); }
    }

    /** A call that logs nothing keeps the books balanced under the same log. */
    static lemma Kept(t: State, log: seq<Event>, sender: Address, now: nat, c: Call)
      requires Conserved(t, log) && !c.MintWithReference? && Exec(t, sender, now, c).Ok?
      ensures Conserved(Exec(t, sender, now, c).value.0, log) && Exec(t, sender, now, c).value.1 == []
    {
      ExecConserves(t, log, Message(sender, now, c));
      assert log + [] == log;
    }

    /** An unlimited allowance is not spent. */
    method SpendAllowance(owner: Address, spender: Address, value: nat) returns (r: Result<()>)
      modifies this`allowances
      ensures var allowed := Get(old(allowances), (owner, spender));
              if allowed != WORD - 1 && allowed < value then r == Revert(InsufficientAllowance) && allowances == old(allowances)
              else if allowed != WORD - 1 && owner == ZERO then r == Revert(InvalidApprover) && allowances == old(allowances)
              else r == Ok(()) && allowances == if allowed == WORD - 1 then old(allowances)
                                                else old(allowances)[(owner, spender) := allowed - value]
    {
      var allowed := Get(allowances, (owner, spender));
      if allowed != WORD - 1 {
        var _ :- Require(allowed >= value, InsufficientAllowance);
        var _ :- Require(owner != ZERO, InvalidApprover);
        allowances := allowances[(owner, spender) := allowed - value];
      }
      r := Ok(());
    }

    method TransferFrom(sender: Address, now: nat, from: Address, to: Address, value: nat) returns (r: Result<()>)
      requires Valid()
      modifies this`allowances, this`totalSupply, this`balances
      ensures Valid()
      ensures var c := Call.TransferFrom(from, to, value);
              (Storage(), events) == Called(old(Storage()), old(events), sender, now, c)
              && r == Outcome(old(Storage()), sender, now, c)
    {
      hide Conserved;
      assert events + [] == events;
      ghost var t, log := Storage(), events;
      var before := allowances;
      r := SpendAllowance(from, sender, value);
      if r.Ok? { r := Move(from, to, value, now); }
      if r.Ok? { Kept(t, log, sender, now, Call.TransferFrom(from, to, value)); } else { allowances := before; }
    }

    method Approve(sender: Address, now: nat, spender: Address, value: nat) returns (r: Result<()>)
      requires Valid()
      modifies this`allowances
      ensures Valid()
      ensures var c := Call.Approve(spender, value);
              (Storage(), events) == Called(old(Storage()), old(events), sender, now, c)
              && r == Outcome(old(Storage()), sender, now, c)
    {
      assert events + [] == events;
      var _ :- Require(spender != ZERO, InvalidSpender);
      allowances := allowances[(sender, spender) := value];
      r := Ok(());
    }

    method SetPaused(sender: Address, now: nat, pause: bool) returns (r: Result<()>)
      requires Valid()
      modifies this`paused
      ensures Valid()
      ensures var c := if pause then Call.Pause else Call.Unpause;
              (Storage(), events) == Called(old(Storage()), old(events), sender, now, c)
              && r == Outcome(old(Storage()), sender, now, c)
    {
      assert events + [] == events;
      var _ :- Require(HasRole(Storage(), Pauser, sender), Unauthorized);
      var _ :- Require(paused != pause, if pause then EnforcedPause else ExpectedPause);
      paused := pause;
      r := Ok(());
    }

    method GrantRole(sender: Address, now: nat, role: Role, account: Address) returns (r: Result<()>)
      requires Valid()
      modifies this`members
      ensures Valid()
      ensures var c := Call.GrantRole(role, account);
              (Storage(), events) == Called(old(Storage()), old(events), sender, now, c)
              && r == Outcome(old(Storage()), sender, now, c)
    {
      assert events + [] == events;
      var _ :- Require(HasRole(Storage(), Admin, sender), Unauthorized);
      members := members[role := (if role in members then members[role] else {}) + {account}];
      r := Ok(());
    }

    method RevokeRole(sender: Address, now: nat, role: Role, account: Address) returns (r: Result<()>)
      requires Valid()
      modifies this`members
      ensures Valid()
      ensures var c := Call.RevokeRole(role, account);
              (Storage(), events) == Called(old(Storage()), old(events), sender, now, c)
              && r == Outcome(old(Storage()), sender, now, c)
    {
      assert events + [] == events;
      var _ :- Require(HasRole(Storage(), Admin, sender), Unauthorized);
      members := members[role := (if role in members then members[role] else {}) - {account}];
      r := Ok(());
    }

    method RenounceRole(sender: Address, now: nat, role: Role, confirmation: Address) returns (r: Result<()>)
      requires Valid()
      modifies this`members
      ensures Valid()
      ensures var c := Call.RenounceRole(role, confirmation);
              (Storage(), events) == Called(old(Storage()), old(events), sender, now, c)
              && r == Outcome(old(Storage()), sender, now, c)
    {
      assert events + [] == events;
      var _ :- Require(confirmation == sender, BadConfirmation);
      members := members[role := (if role in members then members[role] else {}) - {confirmation}];
      r := Ok(());
    }
  }
}
