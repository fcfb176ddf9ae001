/**
 * The USDC ledger: the token interface of SEP-0041 ("Interface"), with the
 * semantics of the factory's stand-in token.
 */
module Usdc {
  import opened Prelude

  datatype Allowance = Allowance(amount: Int128, liveUntil: UInt32)

  datatype State = State(balances: map<Address, Int128>,
                         allowances: map<(Address, Address), Allowance>)

  /** Both balances are read before either is written. */
  function MoveBalance(s: State, from: Address, to: Address, amount: Int128): Result<State> {
    if amount < 0 then Err(NegativeAmount)
    else
      var fromBalance := Get(s.balances, from);
      var toBalance := Get(s.balances, to);
      :- Require(amount <= fromBalance, UsdcInsufficientBalance);
      :- Require(Fits(fromBalance - amount) && Fits(toBalance + amount), UsdcOverflow);
      Ok(s.(balances := s.balances[from := fromBalance - amount][to := toBalance + amount]))
  }

  function AllowanceOf(s: State, from: Address, spender: Address): Allowance {
    if (from, spender) in s.allowances then s.allowances[(from, spender)] else Allowance(0, 0)
  }

  /** `liveUntil == 0` marks an allowance that never expires. */
  predicate Live(a: Allowance, now: UInt32) {
    a.liveUntil == 0 || now <= a.liveUntil
  }

  function SpendAllowance(s: State, now: UInt32, from: Address, spender: Address, amount: Int128): Result<State> {
    var a := AllowanceOf(s, from, spender);
    :- Require(Live(a, now), AllowanceExpired);
    :- Require(amount <= a.amount, AllowanceExceeded);
    :- Require(Fits(a.amount - amount), UsdcOverflow);
    Ok(s.(allowances := s.allowances[(from, spender) := a.(amount := a.amount - amount)]))
  }

  function TransferFrom(s: State, now: UInt32, spender: Address, from: Address, to: Address,
      amount: Int128)
    : Result<State>
  {
    var spent :- SpendAllowance(s, now, from, spender, amount);
    MoveBalance(spent, from, to, amount)
  }

  function Approve(s: State, now: UInt32, from: Address, spender: Address, amount: Int128,
      liveUntil: UInt32)
    : Result<State>
  {
    if 0 < amount && liveUntil < now then Err(AllowanceExpired)
    else Ok(s.(allowances := s.allowances[(from, spender) := Allowance(amount, liveUntil)]))
  }

  /** New USDC credited by its issuer. */
  function Issue(s: State, to: Address, amount: Int128): Result<State> {
    if amount < 0 then Err(NegativeAmount)
    else
      :- Require(Fits(Get(s.balances, to) + amount), UsdcOverflow);
      Ok(s.(balances := s.balances[to := Get(s.balances, to) + amount]))
  }
}

/** The USDC contract: its two storage maps, overwritten in place. */
module UsdcContract {
  import opened Prelude
  import Usdc

  class Contract {
    var balances: map<Address, Int128>
    var allowances: map<(Address, Address), Usdc.Allowance>

    function Storage(): Usdc.State
      reads this
    { Usdc.State(balances, allowances) }

    constructor ()
      ensures Storage() == Usdc.State(map[], map[])
    {
      balances := map[];
      allowances := map[];
    }

    /** The host undoing the writes of a failed transaction. */
    method Restore(s: Usdc.State)
      modifies this
      ensures Storage() == s
    {
      balances := s.balances;
      allowances := s.allowances;
    }

    method Approve(now: UInt32, from: Address, spender: Address, amount: Int128, liveUntil: UInt32)
      returns (outcome: Outcome)
      modifies this
      ensures Commits(Usdc.Approve(old(Storage()), now, from, spender, amount, liveUntil),
                      old(Storage()), Storage(), outcome)
    {
      if 0 < amount && liveUntil < now { return Fail(AllowanceExpired); }
      allowances := allowances[(from, spender) := Usdc.Allowance(amount, liveUntil)];
      return Pass;
    }

    /** The issuer's credit. */
    method Issue(to: Address, amount: Int128) returns (outcome: Outcome)
      modifies this
      ensures Commits(Usdc.Issue(old(Storage()), to, amount), old(Storage()), Storage(), outcome)
    {
      if amount < 0 { return Fail(NegativeAmount); }
      if !Fits(Get(balances, to) + amount) { return Fail(UsdcOverflow); }
      balances := balances[to := Get(balances, to) + amount];
      return Pass;
    }

    method Transfer(from: Address, to: Address, amount: Int128) returns (outcome: Outcome)
      modifies this
      ensures Commits(Usdc.MoveBalance(old(Storage()), from, to, amount), old(Storage()), Storage(), outcome)
    {
      if amount < 0 { return Fail(NegativeAmount); }
      var fromBalance := Get(balances, from);
      var toBalance := Get(balances, to);
      if fromBalance < amount { return Fail(UsdcInsufficientBalance); }
      if !Fits(fromBalance - amount) || !Fits(toBalance + amount) { return Fail(UsdcOverflow); }
      balances := balances[from := fromBalance - amount];
      balances := balances[to := toBalance + amount];
      return Pass;
    }

    method TransferFrom(now: UInt32, spender: Address, from: Address, to: Address, amount: Int128)
      returns (outcome: Outcome)
      modifies this
      ensures Commits(Usdc.TransferFrom(old(Storage()), now, spender, from, to, amount),
                      old(Storage()), Storage(), outcome)
    {
      var before := Storage();
      var a := Usdc.AllowanceOf(Storage(), from, spender);
      if a.liveUntil != 0 && a.liveUntil < now { return Fail(AllowanceExpired); }
      if a.amount < amount { return Fail(AllowanceExceeded); }
      if !Fits(a.amount - amount) { return Fail(UsdcOverflow); }
      allowances := allowances[(from, spender) := Usdc.Allowance(a.amount - amount, a.liveUntil)];
      outcome := Transfer(from, to, amount);
      if outcome.Fail? { Restore(before); }
    }
  }
}
