/** The permissioned share token: what each of its entry points does to its storage. */
module Sep57 {
  import opened Prelude
  import opened IdentityVerifier
  import Compliance
  import Permit

  /** Fixed at deployment; `verify` is Ed25519 (section 5.1 of RFC 8032), left opaque. */
  datatype Config = Config(self: Address, adminSigner: Key, verify: (Key, Bytes, Signature) -> bool)

  /** What a call reads outside the token: the clock, the registry and the compliance rules. */
  datatype Env = Env(now: UInt32, users: Users, compliance: Compliance.State)

  datatype Event =
    | Minted(to: Address, amount: Int128)
    | Burned(from: Address, amount: Int128)
    | Transferred(from: Address, to: Address, amount: Int128)

  datatype State = State(balances: map<Address, Int128>, totalSupply: Int128,
                         usedNonces: set<UInt64>, events: seq<Event>)

  const DEPLOYED: State := State(map[], 0, {}, [])

  /** The permit check; a permit that passes has its nonce marked as used. */
  function AdminPermit(cfg: Config, env: Env, t: State, permit: Permit.Permit, signature: Signature): Result<State> {
    if permit.deadline <= env.now then Err(PermitExpired)
    else
      :- Require(permit.nonce !in t.usedNonces, PermitAlreadyUsed);
      :- Require(cfg.verify(cfg.adminSigner, Permit.Encode(permit), signature), BadSignature);
      Ok(t.(usedNonces := t.usedNonces + {permit.nonce}))
  }

  function PermitFor(cfg: Config, action: Byte, account: Address, amount: Int128, nonce: UInt64,
      deadline: UInt32)
    : Permit.Permit
  {
    Permit.Permit(cfg.self, action, account, amount, nonce, deadline)
  }

  /** A mint whose permit has passed. */
  function Credited(cfg: Config, env: Env, t: State, to: Address, amount: Int128): Result<State> {
    var toBalance := Get(t.balances, to);
    :- VerifyIdentity(env.users, to);
    var balance :- CheckedAdd(toBalance, amount);
    var supply :- CheckedAdd(t.totalSupply, amount);
    :- Compliance.Received(env.compliance, cfg.self, toBalance, amount);
    Ok(t.(balances := t.balances[to := balance], totalSupply := supply, events := t.events + [Minted(to, amount)]))
  }

  function Mint(cfg: Config, env: Env, t: State, to: Address, amount: Int128, nonce: UInt64, deadline: UInt32,
      signature: Signature)
    : Result<State>
  {
    if amount <= 0 then Err(InvalidAmount)
    else
      var t1 :- AdminPermit(cfg, env, t, PermitFor(cfg, Permit.MINT, to, amount, nonce, deadline), signature);
      Credited(cfg, env, t1, to, amount)
  }

  /** Both balances are read before either is written. */
  function Transfer(cfg: Config, env: Env, t: State, from: Address, to: Address, amount: Int128): Result<State> {
    if amount <= 0 then Err(InvalidAmount)
    else
      :- VerifyIdentity(env.users, from);
      :- VerifyIdentity(env.users, to);
      var fromBalance := Get(t.balances, from);
      var toBalance := Get(t.balances, to);
      :- Require(amount <= fromBalance, InsufficientBalance);
      var debited :- Plain(fromBalance - amount);
      var credited :- CheckedAdd(toBalance, amount);
      :- Compliance.Received(env.compliance, cfg.self, toBalance, amount);
      Ok(t.(balances := t.balances[from := debited][to := credited],
            events := t.events + [Transferred(from, to, amount)]))
  }

  function Burn(cfg: Config, env: Env, t: State, from: Address, amount: Int128, nonce: UInt64, deadline: UInt32,
      signature: Signature)
    : Result<State>
  {
    if amount <= 0 then Err(InvalidAmount)
    else
      var t1 :- AdminPermit(cfg, env, t, PermitFor(cfg, Permit.BURN, from, amount, nonce, deadline), signature);
      var fromBalance := Get(t.balances, from);
      :- Require(amount <= fromBalance, InsufficientBalance);
      var balance :- Plain(fromBalance - amount);
      var supply :- Plain(t.totalSupply - amount);
      :- Compliance.Destroyed(env.compliance, cfg.self, amount);
      Ok(State(t.balances[from := balance], supply, t1.usedNonces, t.events + [Burned(from, amount)]))
  }
}

/** The token contract: storage overwritten in place, and the permit message built in a buffer. */
module Sep57Contract {
  import opened Prelude
  import opened IdentityVerifier
  import IdentityContract
  import ComplianceContract
  import Compliance
  import Permit
  import Sep57

  class Contract {
    const cfg: Sep57.Config
    const identity: IdentityContract.Contract
    const compliance: ComplianceContract.Contract
    var balances: map<Address, Int128>
    var totalSupply: Int128
    var usedNonces: set<UInt64>
    var events: seq<Sep57.Event>

    function Storage(): Sep57.State
      reads this
    { Sep57.State(balances, totalSupply, usedNonces, events) }

    ghost function Env(now: UInt32): Sep57.Env
      reads identity, compliance
    { Sep57.Env(now, identity.users, compliance.Storage()) }

    constructor (cfg: Sep57.Config, identity: IdentityContract.Contract, compliance: ComplianceContract.Contract)
      ensures this.cfg == cfg && this.identity == identity && this.compliance == compliance
      ensures Storage() == Sep57.DEPLOYED
    {
      this.cfg, this.identity, this.compliance := cfg, identity, compliance;
      balances, totalSupply, usedNonces, events := map[], 0, {}, [];
    }

    method Restore(s: Sep57.State)
      modifies this
      ensures Storage() == s
    {
      balances, totalSupply, usedNonces, events := s.balances, s.totalSupply, s.usedNonces, s.events;
    }

    static method AppendAddress(message: Bytes, address: Address) returns (extended: Bytes)
      ensures extended == message + Permit.LenPrefixed(address)
    {
      extended := message + Permit.ToBeBytes(|address|, 4);
      extended := extended + address;
    }

    static method PermitMessage(contract: Address, action: Byte, account: Address, amount: Int128, nonce: UInt64,
        deadline: UInt32)
      returns (message: Bytes)
      ensures Permit.Decode(message) == Some(Permit.Permit(contract, action, account, amount, nonce, deadline))
      ensures message == Permit.Encode(Permit.Permit(contract, action, account, amount, nonce, deadline))
    {
      ghost var p := Permit.Permit(contract, action, account, amount, nonce, deadline);
      message := Permit.DOMAIN;
      message := message + [action];
      message := AppendAddress(message, contract);
      message := AppendAddress(message, account);
      ghost var head := message;
      message := message + Permit.ToBeBytes(amount, 16);
      message := message + Permit.ToBeBytes(nonce, 8);
      message := message + Permit.ToBeBytes(deadline, 4);
      Permit.TailAppended(head, p);
      Permit.RoundTrip(p);
    }

    method RequireAdminPermit(now: UInt32, action: Byte, account: Address, amount: Int128, nonce: UInt64,
        deadline: UInt32, signature: Signature)
      returns (outcome: Outcome)
      modifies this`usedNonces
      ensures Commits(Sep57.AdminPermit(cfg, Env(now), old(Storage()),
                                        Sep57.PermitFor(cfg, action, account, amount, nonce, deadline), signature),
                      old(Storage()), Storage(), outcome)
    {
      if deadline <= now { return Fail(PermitExpired); }
      if nonce in usedNonces { return Fail(PermitAlreadyUsed); }
      var message := PermitMessage(cfg.self, action, account, amount, nonce, deadline);
      if !cfg.verify(cfg.adminSigner, message, signature) { return Fail(BadSignature); }
      usedNonces := usedNonces + {nonce};
      return Pass;
    }

    /** Credits a permitted mint, or leaves the token as it was. */
    method Credit(now: UInt32, to: Address, amount: Int128) returns (outcome: Outcome)
      modifies this
      ensures Commits(Sep57.Credited(cfg, Env(now), old(Storage()), to, amount), old(Storage()), Storage(), outcome)
    {
      var before := Storage();
      outcome := VerifyIdentity(identity.users, to);
      if outcome.Fail? { return; }
      var toBalance, supply := Get(balances, to), totalSupply;
      if !Fits(toBalance + amount) || !Fits(supply + amount) { return Fail(ArithmeticOverflow); }
      balances := balances[to := toBalance + amount];
      totalSupply := supply + amount;
      outcome := Compliance.Received(compliance.Storage(), cfg.self, toBalance, amount);
      if outcome.Fail? { Restore(before); return; }
      events := events + [Sep57.Minted(to, amount)];
    }

    method Mint(now: UInt32, to: Address, amount: Int128, nonce: UInt64, deadline: UInt32, signature: Signature)
      returns (outcome: Outcome)
      modifies this
      ensures Commits(Sep57.Mint(cfg, Env(now), old(Storage()), to, amount, nonce, deadline, signature),
                      old(Storage()), Storage(), outcome)
    {
      var before := Storage();
      if amount <= 0 { return Fail(InvalidAmount); }
      outcome := RequireAdminPermit(now, Permit.MINT, to, amount, nonce, deadline, signature);
      if outcome.Fail? { return; }
      outcome := Credit(now, to, amount);
      if outcome.Fail? { Restore(before); }
    }

    method Transfer(now: UInt32, from: Address, to: Address, amount: Int128) returns (outcome: Outcome)
      modifies this
      ensures Commits(Sep57.Transfer(cfg, Env(now), old(Storage()), from, to, amount),
                      old(Storage()), Storage(), outcome)
    {
      var before := Storage();
      if amount <= 0 { return Fail(InvalidAmount); }
      outcome := VerifyIdentity(identity.users, from);
      if outcome.Fail? { return; }
      outcome := VerifyIdentity(identity.users, to);
      if outcome.Fail? { return; }
      var fromBalance, toBalance := Get(balances, from), Get(balances, to);
      if fromBalance < amount { return Fail(InsufficientBalance); }
      if !Fits(fromBalance - amount) { return Fail(Trap); }
      balances := balances[from := fromBalance - amount];
      if !Fits(toBalance + amount) { Restore(before); return Fail(ArithmeticOverflow); }
      balances := balances[to := toBalance + amount];
      outcome := Compliance.Received(compliance.Storage(), cfg.self, toBalance, amount);
      if outcome.Fail? { Restore(before); return; }
      events := events + [Sep57.Transferred(from, to, amount)];
    }

    method Burn(now: UInt32, from: Address, amount: Int128, nonce: UInt64, deadline: UInt32, signature: Signature)
      returns (outcome: Outcome)
      modifies this
      ensures Commits(Sep57.Burn(cfg, Env(now), old(Storage()), from, amount, nonce, deadline, signature),
                      old(Storage()), Storage(), outcome)
    {
      var before := Storage();
      if amount <= 0 { return Fail(InvalidAmount); }
      outcome := RequireAdminPermit(now, Permit.BURN, from, amount, nonce, deadline, signature);
      if outcome.Fail? { return; }
      var fromBalance, supply := Get(balances, from), totalSupply;
      if fromBalance < amount { Restore(before); return Fail(InsufficientBalance); }
      if !Fits(fromBalance - amount) || !Fits(supply - amount) { Restore(before); return Fail(Trap); }
      balances := balances[from := fromBalance - amount];
      totalSupply := supply - amount;
      outcome := Compliance.Destroyed(compliance.Storage(), cfg.self, amount);
      if outcome.Fail? { Restore(before); return; }
      events := events + [Sep57.Burned(from, amount)];
    }
  }
}
