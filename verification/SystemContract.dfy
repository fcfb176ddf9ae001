/** The deployed contracts as one: every call of a run, made on the contract objects in place. */
module SystemContract {
  import opened Prelude
  import opened Factory
  import opened System
  import FactoryContract

  class Host {
    const factory: FactoryContract.Contract

    ghost predicate Valid()
      reads factory, factory.identity, factory.compliance, factory.usdc, factory.tokens.Values
    {
      factory.Valid() && factory.identity.admin == factory.cfg.identityAdmin
    }

    ghost function Storage(): World
      reads factory, factory.identity, factory.compliance, factory.usdc, factory.tokens.Values
    { factory.Storage() }

    constructor (factory: FactoryContract.Contract)
      requires factory.Valid() && factory.identity.admin == factory.cfg.identityAdmin
      ensures Valid() && this.factory == factory
    {
      this.factory := factory;
    }

    method ExecuteFactory(now: UInt32, c: Call) returns (outcome: Outcome)
      requires Valid() && IsFactoryCall(c)
      modifies factory, factory.identity, factory.compliance, factory.usdc, factory.tokens.Values
      ensures Valid() && fresh(factory.tokens.Values - old(factory.tokens.Values))
      ensures Commits(FactoryCall(factory.cfg, old(Storage()), now, c), old(Storage()), Storage(), outcome)
    {
      match c {
        case Create(shipper, id, raise, bps, due, salt, nonce, deadline, signature) =>
          outcome := factory.CreateRwaToken(now, shipper, id, raise, bps, due, salt, nonce, deadline, signature);
        case Buy(id, investor, amount) => outcome := factory.BuyShares(now, id, investor, amount);
        case Collect(id, shipper) => outcome := factory.CollectFund(id, shipper);
        case Settle(id, shipper, amount) => outcome := factory.SettleDebt(now, id, shipper, amount);
        case ClaimShare(id, investor, amount, nonce, deadline, signature) =>
          outcome := factory.Claim(now, id, investor, amount, nonce, deadline, signature);
        case Withdraw(id, admin) => outcome := factory.WithdrawFees(id, admin);
        case Emergency(token, amount, admin) => outcome := factory.EmergencyWithdraw(now, token, amount, admin);
      }
    }

    method ExecuteShare(now: UInt32, c: Call) returns (outcome: Outcome)
      requires Valid() && IsShareCall(c)
      modifies factory.tokens.Values
      ensures Valid()
      ensures Storage() == old(Storage()).(tokens := factory.TokenStorage())
      ensures Commits(ShareCall(factory.cfg, old(Storage()), now, c),
                      old(factory.TokenStorage()), factory.TokenStorage(), outcome)
    {
      match c {
        case ShareMint(token, to, amount, nonce, deadline, signature) =>
          outcome := factory.ShareMint(now, token, to, amount, nonce, deadline, signature);
        case ShareBurn(token, from, amount, nonce, deadline, signature) =>
          outcome := factory.ShareBurn(now, token, from, amount, nonce, deadline, signature);
        case ShareTransfer(token, from, to, amount) =>
          outcome := factory.ShareTransfer(now, token, from, to, amount);
      }
    }

    method ExecuteUsdc(now: UInt32, c: Call) returns (outcome: Outcome)
      requires Valid() && IsUsdcCall(c)
      modifies factory.usdc
      ensures Valid()
      ensures Storage() == old(Storage()).(usdc := factory.usdc.Storage())
      ensures Commits(UsdcCall(old(Storage()).usdc, now, c),
                      old(factory.usdc.Storage()), factory.usdc.Storage(), outcome)
    {
      match c {
        case UsdcApprove(from, spender, amount, liveUntil) =>
          outcome := factory.usdc.Approve(now, from, spender, amount, liveUntil);
        case UsdcTransfer(from, to, amount) => outcome := factory.usdc.Transfer(from, to, amount);
        case UsdcTransferFrom(spender, from, to, amount) =>
          outcome := factory.usdc.TransferFrom(now, spender, from, to, amount);
        case UsdcIssue(to, amount) => outcome := factory.usdc.Issue(to, amount);
      }
      assert factory.TokenStorage() == old(factory.TokenStorage());
    }

    /** The registry's and the compliance engine's calls. */
    method ExecuteRules(now: UInt32, c: Call) returns (outcome: Outcome)
      requires Valid() && !IsFactoryCall(c) && !IsShareCall(c) && !IsUsdcCall(c)
          && Signer(c) != Some(factory.cfg.factory)
      modifies factory.identity, factory.compliance
      ensures Valid()
      ensures Commits(Apply(factory.cfg, old(Storage()), Step(now, c)), old(Storage()), Storage(), outcome)
    {
      match c {
        case Identify(user, verified, countryCode, role, operator) =>
          outcome := factory.identity.SetIdentity(user, verified, countryCode, role, operator);
        case Bind(token, bound, operator) => outcome := factory.compliance.BindToken(token, bound, operator);
        case Cap(token, amount, operator) => outcome := factory.compliance.SetMaxBalance(token, amount, operator);
      }
      assert factory.TokenStorage() == old(factory.TokenStorage());
    }

    /** One call on whichever contract it names; the factory signs none from outside. */
    method Execute(s: Step) returns (outcome: Outcome)
      requires Valid()
      modifies factory, factory.identity, factory.compliance, factory.usdc, factory.tokens.Values
      ensures Valid() && fresh(factory.tokens.Values - old(factory.tokens.Values))
      ensures Commits(Apply(factory.cfg, old(Storage()), s), old(Storage()), Storage(), outcome)
      ensures Storage() == After(factory.cfg, old(Storage()), s)
    {
      if Signer(s.call) == Some(factory.cfg.factory) { return Fail(NotAuthorised); }
      if IsFactoryCall(s.call) {
        outcome := ExecuteFactory(s.now, s.call);
      } else if IsUsdcCall(s.call) {
        outcome := ExecuteUsdc(s.now, s.call);
      } else if IsShareCall(s.call) {
        outcome := ExecuteShare(s.now, s.call);
      } else {
        outcome := ExecuteRules(s.now, s.call);
      }
    }
  }
}
