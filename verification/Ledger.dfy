/** The ERC-20 tokens an order touches: balances and allowances, as EIP-20 section "Methods" prescribes. */
module Ledger {

  type Address = nat

  const ZERO_ADDRESS: Address := 0

  /** `balances` is keyed by token and holder, `allowances` by token, owner and spender; an absent key is zero. */
  datatype Ledger = Ledger(
    balances: map<(Address, Address), nat>,
    allowances: map<(Address, Address, Address), nat>)
  {
    function Balance(token: Address, holder: Address): nat {
      if (token, holder) in balances then balances[(token, holder)] else 0
    }

    function Allowance(token: Address, owner: Address, spender: Address): nat {
      if (token, owner, spender) in allowances then allowances[(token, owner, spender)] else 0
    }

    function SetBalance(token: Address, holder: Address, amount: nat): Ledger {
      this.(balances := balances[(token, holder) := amount])
    }

    function Approve(token: Address, owner: Address, spender: Address, amount: nat): Ledger {
      this.(allowances := allowances[(token, owner, spender) := amount])
    }

    function Move(token: Address, from: Address, to: Address, amount: nat): Ledger
      requires amount <= Balance(token, from)
    {
      var debited := SetBalance(token, from, Balance(token, from) - amount);
      debited.SetBalance(token, to, debited.Balance(token, to) + amount)
    }

    function MoveFrom(token: Address, spender: Address, owner: Address, to: Address, amount: nat): Ledger
      requires amount <= Balance(token, owner) && amount <= Allowance(token, owner, spender)
    {
      Move(token, owner, to, amount).Approve(token, owner, spender, Allowance(token, owner, spender) - amount)
    }

    /** What a list of holders has of one token together. */
    function Held(token: Address, holders: seq<Address>): nat {
      if holders == [] then 0 else Balance(token, holders[0]) + Held(token, holders[1..])
    }
  }

  predicate Distinct(holders: seq<Address>) {
    forall i, j :: 0 <= i < j < |holders| ==> holders[i] != holders[j]
  }

  lemma {:induction false} HeldAfterSet(
      l: Ledger, changed: Address, who: Address, amount: nat, token: Address, holders: seq<Address>)
    requires Distinct(holders)
    ensures l.SetBalance(changed, who, amount).Held(token, holders)
         == l.Held(token, holders) + if changed == token && who in holders then amount - l.Balance(token, who) else 0
  {
    if holders != [] {
      HeldAfterSet(l, changed, who, amount, token, holders[1..]);
    }
  }

  /**
   * A transfer between two of the holders leaves what they have together unchanged, whatever the token and even to
   * oneself.
   */
  lemma MoveConserves(
      l: Ledger, moved: Address, from: Address, to: Address, amount: nat, token: Address, holders: seq<Address>)
    requires Distinct(holders) && from in holders && to in holders
    requires amount <= l.Balance(moved, from)
    ensures l.Move(moved, from, to, amount).Held(token, holders) == l.Held(token, holders)
  {
    var debited := l.SetBalance(moved, from, l.Balance(moved, from) - amount);
    HeldAfterSet(l, moved, from, l.Balance(moved, from) - amount, token, holders);
    HeldAfterSet(debited, moved, to, debited.Balance(moved, to) + amount, token, holders);
  }

  lemma {:induction false} ApproveKeepsHeld(
      l: Ledger, approved: Address, owner: Address, spender: Address, amount: nat, token: Address,
      holders: seq<Address>)
    ensures l.Approve(approved, owner, spender, amount).Held(token, holders) == l.Held(token, holders)
  {
    if holders != [] {
      ApproveKeepsHeld(l, approved, owner, spender, amount, token, holders[1..]);
    }
  }
}
