/** The identity verifier: a registry of who has been verified, and in which role. */
module IdentityVerifier {
  import opened Prelude

  datatype Role = KYC | KYB

  datatype Identity = Identity(address: Address, verified: bool, countryCode: string, role: Role)

  type Users = map<Address, Identity>

  predicate Verified(users: Users, user: Address) {
    user in users && users[user].verified
  }

  function VerifyIdentity(users: Users, user: Address): Outcome {
    if user !in users then Fail(IdentityNotFound)
    else if !users[user].verified then Fail(IdentityNotVerified)
    else Pass
  }

  predicate HasRole(users: Users, user: Address, role: Role) {
    user in users && users[user].verified && users[user].role == role
  }

  function SetIdentity(users: Users, admin: Address, user: Address, verified: bool, countryCode: string, role: Role,
      operator: Address)
    : Result<Users>
  {
    if operator != admin then Err(Unauthorized)
    else Ok(users[user := Identity(user, verified, countryCode, role)])
  }
}

module IdentityContract {
  import opened Prelude
  import opened IdentityVerifier

  class Contract {
    const admin: Address
    var users: Users

    constructor (admin: Address)
      ensures this.admin == admin && users == map[]
    {
      this.admin := admin;
      users := map[];
    }

    method SetIdentity(user: Address, verified: bool, countryCode: string, role: Role, operator: Address)
      returns (outcome: Outcome)
      modifies this
      ensures Commits(IdentityVerifier.SetIdentity(old(users), admin, user, verified, countryCode, role, operator),
                      old(users), users, outcome)
    {
      if operator != admin { return Fail(Unauthorized); }
      users := users[user := Identity(user, verified, countryCode, role)];
      return Pass;
    }
  }
}

/** The compliance engine: which tokens it governs, and a balance cap for each. */
module Compliance {
  import opened Prelude

  datatype State = State(operator: Address, bound: map<Address, bool>, maxBalance: map<Address, Int128>)

  predicate IsBound(s: State, token: Address) {
    token in s.bound && s.bound[token]
  }

  function BindToken(s: State, token: Address, bound: bool, operator: Address): Result<State> {
    if operator != s.operator then Err(Unauthorized)
    else Ok(s.(bound := s.bound[token := bound]))
  }

  function SetMaxBalance(s: State, token: Address, maxBalance: Int128, operator: Address): Result<State> {
    if operator != s.operator then Err(Unauthorized)
    else
      :- Require(IsBound(s, token), TokenNotBound);
      :- Require(0 < maxBalance, InvalidAmount);
      Ok(s.(maxBalance := s.maxBalance[token := maxBalance]))
  }

  /** The check behind both `created` and `transferred`: the receiver stays within the cap. */
  function Received(s: State, token: Address, balanceBefore: Int128, amount: Int128): Outcome {
    if !IsBound(s, token) then Fail(TokenNotBound)
    else if amount <= 0 then Fail(InvalidAmount)
    else if !Fits(balanceBefore + amount) then Fail(Trap)
    else Require(balanceBefore + amount <= Get(s.maxBalance, token), MaxBalanceExceeded)
  }

  function Destroyed(s: State, token: Address, amount: Int128): Outcome {
    if !IsBound(s, token) then Fail(TokenNotBound)
    else Require(0 < amount, InvalidAmount)
  }
}

module ComplianceContract {
  import opened Prelude
  import Compliance

  class Contract {
    const operator: Address
    var bound: map<Address, bool>
    var maxBalance: map<Address, Int128>

    function Storage(): Compliance.State
      reads this
    { Compliance.State(operator, bound, maxBalance) }

    constructor (operator: Address)
      ensures Storage() == Compliance.State(operator, map[], map[])
    {
      this.operator := operator;
      bound := map[];
      maxBalance := map[];
    }

    method Restore(s: Compliance.State)
      requires s.operator == operator
      modifies this
      ensures Storage() == s
    {
      bound := s.bound;
      maxBalance := s.maxBalance;
    }

    method BindToken(token: Address, bind: bool, operator: Address) returns (outcome: Outcome)
      modifies this
      ensures Commits(Compliance.BindToken(old(Storage()), token, bind, operator), old(Storage()), Storage(), outcome)
    {
      if operator != this.operator { return Fail(Unauthorized); }
      bound := bound[token := bind];
      return Pass;
    }

    method SetMaxBalance(token: Address, cap: Int128, operator: Address) returns (outcome: Outcome)
      modifies this
      ensures Commits(Compliance.SetMaxBalance(old(Storage()), token, cap, operator),
                      old(Storage()), Storage(), outcome)
    {
      if operator != this.operator { return Fail(Unauthorized); }
      if !Compliance.IsBound(Storage(), token) { return Fail(TokenNotBound); }
      if cap <= 0 { return Fail(InvalidAmount); }
      maxBalance := maxBalance[token := cap];
      return Pass;
    }
  }
}
