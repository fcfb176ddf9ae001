/**
 * The factory contract: it loads an offering, calls USDC, compliance and the
 * offering's share token, updates the offering and saves it. Any failure undoes
 * every write of the call, in whichever contract it was made.
 */
module FactoryContract {
  import opened Prelude
  import opened IdentityVerifier
  import opened Factory
  import UsdcContract
  import IdentityContract
  import ComplianceContract
  import Sep57Contract
  import Sep57
  import Usdc
  import Spec = Factory

  class Contract {
    const cfg: Config
    const usdc: UsdcContract.Contract
    const identity: IdentityContract.Contract
    const compliance: ComplianceContract.Contract
    /** The share tokens deployed so far, by address. */
    var tokens: map<Address, Sep57Contract.Contract>
    var rwas: map<RwaId, RWA>
    var idByToken: map<Address, RwaId>
    var events: seq<Event>

    /** Each share token is an instance of its own, wired to the shared contracts. */
    ghost predicate Valid()
      reads `tokens
    {
      && (forall a | a in tokens ::
            && tokens[a].cfg == TokenConfig(cfg, a)
            && tokens[a].identity == identity && tokens[a].compliance == compliance)
      && (forall a, b | a in tokens && b in tokens && a != b :: tokens[a] != tokens[b])
    }

    function TokenStorage(): map<Address, Sep57.State>
      reads `tokens, tokens.Values
    { map a | a in tokens :: tokens[a].Storage() }

    ghost function Env(now: UInt32): Sep57.Env
      reads identity, compliance
    { Sep57.Env(now, identity.users, compliance.Storage()) }

    ghost function Storage(): World
      reads this, usdc, identity, compliance, tokens.Values
    { World(usdc.Storage(), identity.users, compliance.Storage(), TokenStorage(), rwas, idByToken, events) }

    constructor (cfg: Config, usdc: UsdcContract.Contract, identity: IdentityContract.Contract,
        compliance: ComplianceContract.Contract)
      ensures Valid()
      ensures this.cfg == cfg && this.usdc == usdc && this.identity == identity && this.compliance == compliance
      ensures tokens == map[] && rwas == map[] && idByToken == map[] && events == []
    {
      this.cfg, this.usdc, this.identity, this.compliance := cfg, usdc, identity, compliance;
      tokens, rwas, idByToken, events := map[], map[], map[], [];
    }

    /** A share token's transfer, called by the factory. */
    method ShareTransfer(now: UInt32, token: Address, from: Address, to: Address,
        amount: Int128)
      returns (outcome: Outcome)
      requires Valid()
      modifies tokens.Values
      ensures Valid()
      ensures Commits(Spec.TokenTransfer(cfg, old(TokenStorage()), Env(now), token, from, to, amount),
                      old(TokenStorage()), TokenStorage(), outcome)
      ensures Storage() == old(Storage()).(tokens := TokenStorage())
    {
      if token !in tokens { return Fail(NoSuchContract); }
      outcome := tokens[token].Transfer(now, from, to, amount);
      assert TokenStorage() == old(TokenStorage())[token := tokens[token].Storage()];
      assert outcome.Fail? ==> TokenStorage() == old(TokenStorage());
    }

    /** A share token's mint, made on the token by whoever has a permit. */
    method ShareMint(now: UInt32, token: Address, to: Address, amount: Int128, nonce: UInt64, deadline: UInt32,
        signature: Signature)
      returns (outcome: Outcome)
      requires Valid()
      modifies tokens.Values
      ensures Valid()
      ensures Commits(Spec.TokenMint(cfg, old(TokenStorage()), Env(now), token,
                                     to, amount, nonce, deadline, signature),
                      old(TokenStorage()), TokenStorage(), outcome)
      ensures Storage() == old(Storage()).(tokens := TokenStorage())
    {
      if token !in tokens { return Fail(NoSuchContract); }
      outcome := tokens[token].Mint(now, to, amount, nonce, deadline, signature);
      assert TokenStorage() == old(TokenStorage())[token := tokens[token].Storage()];
      assert outcome.Fail? ==> TokenStorage() == old(TokenStorage());
    }

    /** A share token's burn, relayed by the factory. */
    method ShareBurn(now: UInt32, token: Address, from: Address, amount: Int128, nonce: UInt64, deadline: UInt32,
        signature: Signature)
      returns (outcome: Outcome)
      requires Valid()
      modifies tokens.Values
      ensures Valid()
      ensures Commits(Spec.TokenBurn(cfg, old(TokenStorage()), Env(now), token,
                                     from, amount, nonce, deadline, signature),
                      old(TokenStorage()), TokenStorage(), outcome)
      ensures Storage() == old(Storage()).(tokens := TokenStorage())
    {
      if token !in tokens { return Fail(NoSuchContract); }
      outcome := tokens[token].Burn(now, from, amount, nonce, deadline, signature);
      assert TokenStorage() == old(TokenStorage())[token := tokens[token].Storage()];
      assert outcome.Fail? ==> TokenStorage() == old(TokenStorage());
    }

    /** USDC in: the factory spends what `from` has approved. */
    method PullUsdc(now: UInt32, from: Address, amount: Int128) returns (outcome: Outcome)
      modifies usdc
      ensures Commits(Usdc.TransferFrom(old(usdc.Storage()), now, cfg.factory, from, cfg.factory, amount),
                      old(usdc.Storage()), usdc.Storage(), outcome)
      ensures Storage() == old(Storage()).(usdc := usdc.Storage())
    {
      outcome := usdc.TransferFrom(now, cfg.factory, from, cfg.factory, amount);
      assert TokenStorage() == old(TokenStorage());
    }

    /** USDC out of the factory. */
    method PayUsdc(to: Address, amount: Int128) returns (outcome: Outcome)
      modifies usdc
      ensures Commits(Usdc.MoveBalance(old(usdc.Storage()), cfg.factory, to, amount),
                      old(usdc.Storage()), usdc.Storage(), outcome)
      ensures Storage() == old(Storage()).(usdc := usdc.Storage())
    {
      outcome := usdc.Transfer(cfg.factory, to, amount);
      assert TokenStorage() == old(TokenStorage());
    }

    /** The host undoing the USDC writes of a failed call. */
    method RestoreUsdc(u: Usdc.State)
      modifies usdc
      ensures Storage() == old(Storage()).(usdc := u)
    {
      usdc.Restore(u);
      assert TokenStorage() == old(TokenStorage());
    }

    /** Saves an offering under its id and publishes an event. */
    method Save(offering: RWA, e: Event)
      modifies this`rwas, this`events
      ensures Storage() == old(Storage()).(rwas := old(rwas)[offering.id := offering], events := old(events) + [e])
    {
      rwas := rwas[offering.id := offering];
      events := events + [e];
      assert TokenStorage() == old(TokenStorage());
    }

    method Publish(e: Event)
      modifies this`events
      ensures Storage() == old(Storage()).(events := old(events) + [e])
    {
      events := events + [e];
      assert TokenStorage() == old(TokenStorage());
    }

    /** The host undoing the writes of all share tokens. */
    method RestoreTokens(s: map<Address, Sep57.State>)
      requires Valid() && s.Keys == tokens.Keys
      modifies tokens.Values
      ensures Valid()
      ensures Storage() == old(Storage()).(tokens := s)
    {
      var todo := tokens.Keys;
      while todo != {}
        invariant todo <= tokens.Keys
        invariant forall a | a in tokens && a !in todo :: tokens[a].Storage() == s[a]
        decreases todo
      {
        var a :| a in todo;
        tokens[a].Restore(s[a]);
        todo := todo - {a};
      }
    }

    /** Undoes a purchase or a claim that was paid but could not be booked. */
    method Revert(u: Usdc.State, s: map<Address, Sep57.State>)
      requires Valid() && s.Keys == tokens.Keys
      modifies usdc, tokens.Values
      ensures Valid()
      ensures Storage() == old(Storage()).(usdc := u, tokens := s)
    {
      RestoreUsdc(u);
      RestoreTokens(s);
    }

    /** Takes a deployed token and its offering into the factory's storage. */
    method Register(token: Address, sep57: Sep57Contract.Contract, offering: RWA, e: Event)
      requires Valid() && token !in tokens && sep57 !in tokens.Values
      requires sep57.cfg == TokenConfig(cfg, token) && sep57.identity == identity && sep57.compliance == compliance
      modifies this
      ensures Valid()
      ensures tokens == old(tokens)[token := sep57]
      ensures Storage() == old(Storage()).(tokens := old(TokenStorage())[token := sep57.Storage()],
                                           rwas := old(rwas)[offering.id := offering],
                                           idByToken := old(idByToken)[token := offering.id],
                                           events := old(events) + [e])
    {
      tokens := tokens[token := sep57];
      rwas := rwas[offering.id := offering];
      idByToken := idByToken[token := offering.id];
      events := events + [e];
      assert TokenStorage() == old(TokenStorage())[token := sep57.Storage()];
    }

    /** Books a purchase: sales, the investor's holding, and the status. */
    static method RecordPurchase(o: RWA, investor: Address, amount: Int128) returns (r: Result<RWA>)
      ensures r == Bought(o, investor, amount)
    {
      var offering := o;
      if !Fits(offering.sharesBought + amount) { return Err(ArithmeticOverflow); }
      offering := offering.(sharesBought := offering.sharesBought + amount);
      var prev := Get(offering.investors, investor);
      if !Fits(prev + amount) { return Err(ArithmeticOverflow); }
      offering := offering.(investors := offering.investors[investor := prev + amount]);
      if !Fits(offering.sharesTotal - offering.sharesBought) { return Err(Trap); }
      if offering.sharesTotal - offering.sharesBought <= 0 {
        offering := offering.(status := Funded);
      }
      return Ok(offering);
    }

    /** Books a paid claim: both pools and the investor's holding. */
    static method RecordClaim(o: RWA, investor: Address, held: int, amount: Int128,
        interest: Int128)
      returns (r: Result<RWA>)
      ensures r == AfterClaim(o, investor, held, amount, interest)
    {
      var offering := o;
      if !Fits(offering.principalPool - amount) { return Err(Trap); }
      offering := offering.(principalPool := offering.principalPool - amount);
      if !Fits(offering.interestPool - interest) { return Err(Trap); }
      offering := offering.(interestPool := offering.interestPool - interest);
      if !Fits(held - amount) { return Err(Trap); }
      offering := offering.(investors := offering.investors[investor := held - amount]);
      return Ok(offering);
    }

    /** Binds a new token to the compliance engine and lifts its cap. */
    method BindAndCap(token: Address) returns (outcome: Outcome)
      modifies compliance
      ensures Commits(BoundAndCapped(cfg, old(compliance.Storage()), token),
                      old(compliance.Storage()), compliance.Storage(), outcome)
    {
      var before := compliance.Storage();
      outcome := compliance.BindToken(token, true, cfg.factory);
      if outcome.Fail? { return; }
      outcome := compliance.SetMaxBalance(token, COMPLIANCE_MAX_BALANCE, cfg.factory);
      if outcome.Fail? { compliance.Restore(before); }
    }

    /** Deploys a share token, binds and caps it, and mints the raise to the factory. */
    method DeployToken(now: UInt32, token: Address, raiseAmount: Int128, nonce: UInt64, deadline: UInt32,
        signature: Signature)
      returns (outcome: Outcome, sep57: Sep57Contract.Contract)
      modifies compliance
      ensures fresh(sep57) && sep57.cfg == TokenConfig(cfg, token) && sep57.identity == identity
          && sep57.compliance == compliance
      ensures Commits(DeployedToken(cfg, identity.users, old(compliance.Storage()), now, token,
                                    raiseAmount, nonce, deadline, signature),
                      (old(compliance.Storage()), Sep57.DEPLOYED), (compliance.Storage(), sep57.Storage()), outcome)
    {
      var before := compliance.Storage();
      sep57 := new Sep57Contract.Contract(TokenConfig(cfg, token), identity, compliance);
      outcome := BindAndCap(token);
      if outcome.Fail? { return; }
      outcome := sep57.Mint(now, cfg.factory, raiseAmount, nonce, deadline, signature);
      if outcome.Fail? { compliance.Restore(before); }
    }

    /** Pulls the upfront fees and deploys the token, or neither. */
    method Issue(now: UInt32, shipper: Address, upfront: Int128, token: Address, raiseAmount: Int128, nonce: UInt64,
        deadline: UInt32, signature: Signature)
      returns (outcome: Outcome, sep57: Sep57Contract.Contract?)
      modifies usdc, compliance
      ensures match Issued(cfg, old(Storage()), now, shipper, upfront, token, raiseAmount, nonce, deadline, signature)
        case Err(e) => outcome == Fail(e) && Storage() == old(Storage())
        case Ok((u, c, t)) =>
          && outcome == Pass && Storage() == old(Storage()).(usdc := u, compliance := c)
          && sep57 != null && fresh(sep57) && sep57.Storage() == t && token !in tokens
          && sep57.cfg == TokenConfig(cfg, token) && sep57.identity == identity && sep57.compliance == compliance
    {
      sep57 := null;
      var usdcBefore := usdc.Storage();
      outcome := PullUsdc(now, shipper, upfront);
      if outcome.Fail? { return; }
      if token in tokens || Taken(cfg, token) {
        RestoreUsdc(usdcBefore);
        outcome := Fail(AddressTaken);
        return;
      }
      outcome, sep57 := DeployToken(now, token, raiseAmount, nonce, deadline, signature);
      assert TokenStorage() == old(TokenStorage());
      if outcome.Fail? {
        RestoreUsdc(usdcBefore);
      }
    }

    /** The guards of a creation, in the order they are checked. */
    method RequireCreatable(now: UInt32, shipper: Address, id: RwaId, raiseAmount: Int128, interestBps: Int128,
        dueLedger: UInt32, deadline: UInt32)
      returns (outcome: Outcome)
      ensures outcome == CheckCreate(Storage(), now, shipper, id, raiseAmount, interestBps, dueLedger, deadline)
    {
      if raiseAmount <= 0 { return Fail(InvalidAmount); }
      if interestBps <= 0 || MAX_INTEREST_BPS < interestBps { return Fail(InvalidBps); }
      if dueLedger <= now { return Fail(InvalidDeadline); }
      if !HasRole(identity.users, shipper, KYB) { return Fail(NotVerified); }
      if deadline < now { return Fail(InvalidDeadline); }
      if id in rwas { return Fail(RwaAlreadyExists); }
      return Pass;
    }

    method ComputeFees(raiseAmount: Int128, interestBps: Int128) returns (r: Result<(Int128, Int128, Int128)>)
      ensures r == UpfrontFees(cfg, raiseAmount, interestBps)
    {
      if !Fits(raiseAmount * interestBps) { return Err(Trap); }
      var interestFee := raiseAmount * interestBps / BPS;
      if !Fits(raiseAmount * cfg.protocolFeeBps) { return Err(Trap); }
      var protocolFee := raiseAmount * cfg.protocolFeeBps / BPS;
      if !Fits(interestFee + protocolFee) { return Err(Trap); }
      return Ok((interestFee, protocolFee, interestFee + protocolFee));
    }

    /** Issues the token and registers the offering, or neither. */
    method Launch(now: UInt32, shipper: Address, id: RwaId, raiseAmount: Int128, interestBps: Int128,
        dueLedger: UInt32, token: Address, fees: (Int128, Int128, Int128), nonce: UInt64, deadline: UInt32,
        signature: Signature)
      returns (outcome: Outcome)
      requires Valid()
      modifies this, usdc, compliance
      ensures Valid() && fresh(tokens.Values - old(tokens.Values))
      ensures Commits(Launched(cfg, old(Storage()), now, shipper, id, raiseAmount, interestBps, dueLedger, token,
                               fees, nonce, deadline, signature),
                      old(Storage()), Storage(), outcome)
    {
      var (interestFee, protocolFee, upfront) := fees;
      var sep57;
      outcome, sep57 := Issue(now, shipper, upfront, token, raiseAmount, nonce, deadline, signature);
      if outcome.Fail? { return; }
      Register(token, sep57,
               NewOffering(cfg, id, token, shipper, raiseAmount, interestBps, dueLedger, interestFee, protocolFee),
               RwaCreated(id, shipper, token, raiseAmount, interestBps, upfront));
    }

    method CreateRwaToken(now: UInt32, shipper: Address, id: RwaId, raiseAmount: Int128, interestBps: Int128,
        dueLedger: UInt32, salt: Salt, nonce: UInt64, deadline: UInt32, signature: Signature)
      returns (outcome: Outcome)
      requires Valid()
      modifies this, usdc, compliance
      ensures Valid() && fresh(tokens.Values - old(tokens.Values))
      ensures Commits(Spec.CreateRwaToken(cfg, old(Storage()), now, shipper, id, raiseAmount, interestBps,
                                          dueLedger, salt, nonce, deadline, signature),
                      old(Storage()), Storage(), outcome)
    {
      outcome := RequireCreatable(now, shipper, id, raiseAmount, interestBps, dueLedger, deadline);
      if outcome.Fail? { return; }
      var fees := ComputeFees(raiseAmount, interestBps);
      if fees.Err? { return Fail(fees.error); }
      outcome := Launch(now, shipper, id, raiseAmount, interestBps, dueLedger, cfg.deploy(salt), fees.value,
                        nonce, deadline, signature);
    }

    /** Loads an offering that is open and has the shares. */
    method LoadBuyable(id: RwaId, investor: Address, amount: Int128) returns (r: Result<RWA>)
      ensures r == Buyable(Storage(), id, investor, amount)
    {
      if amount <= 0 { return Err(InvalidAmount); }
      if !HasRole(identity.users, investor, KYC) { return Err(NotVerified); }
      if id !in rwas { return Err(RwaNotFound); }
      var offering := rwas[id];
      if offering.status != Open { return Err(RwaNotOpen); }
      if !Fits(offering.sharesTotal - offering.sharesBought) { return Err(Trap); }
      if offering.sharesTotal - offering.sharesBought < amount { return Err(SharesExhausted); }
      return Ok(offering);
    }

    /** Pulls the investor's USDC and hands over the shares, or neither. */
    method Exchange(now: UInt32, token: Address, investor: Address, amount: Int128) returns (outcome: Outcome)
      requires Valid()
      modifies usdc, tokens.Values
      ensures Valid()
      ensures Commits(Exchanged(cfg, old(usdc.Storage()), old(TokenStorage()), Env(now), token, investor, amount),
                      (old(usdc.Storage()), old(TokenStorage())), (usdc.Storage(), TokenStorage()), outcome)
      ensures Storage() == old(Storage()).(usdc := usdc.Storage(), tokens := TokenStorage())
    {
      var usdcBefore := usdc.Storage();
      outcome := PullUsdc(now, investor, amount);
      if outcome.Fail? { return; }
      outcome := ShareTransfer(now, token, cfg.factory, investor, amount);
      if outcome.Fail? { RestoreUsdc(usdcBefore); }
    }

    /** Books an exchanged purchase, or undoes the exchange. */
    method BookPurchase(offering: RWA, id: RwaId, investor: Address, amount: Int128, u: Usdc.State,
        s: map<Address, Sep57.State>)
      returns (outcome: Outcome)
      requires Valid() && s.Keys == tokens.Keys
      modifies this`rwas, this`events, usdc, tokens.Values
      ensures Valid()
      ensures match Bought(offering, investor, amount)
        case Err(e) => outcome == Fail(e) && Storage() == old(Storage()).(usdc := u, tokens := s)
        case Ok(o) =>
          && outcome == Pass
          && Storage() == old(Storage()).(rwas := old(rwas)[o.id := o],
                                          events := old(events) + [SharesBought(id, investor, amount)])
    {
      var booked := RecordPurchase(offering, investor, amount);
      if booked.Err? {
        Revert(u, s);
        return Fail(booked.error);
      }
      Save(booked.value, SharesBought(id, investor, amount));
      return Pass;
    }

    /** Exchanges and books a purchase, or neither. */
    method Purchase(now: UInt32, offering: RWA, id: RwaId, investor: Address, amount: Int128) returns (outcome: Outcome)
      requires Valid()
      modifies this`rwas, this`events, usdc, tokens.Values
      ensures Valid()
      ensures Commits(Purchased(cfg, old(Storage()), now, offering, id, investor, amount),
                      old(Storage()), Storage(), outcome)
    {
      var usdcBefore, tokensBefore := usdc.Storage(), TokenStorage();
      outcome := Exchange(now, offering.token, investor, amount);
      if outcome.Fail? { return; }
      outcome := BookPurchase(offering, id, investor, amount, usdcBefore, tokensBefore);
    }

    method BuyShares(now: UInt32, id: RwaId, investor: Address, amount: Int128) returns (outcome: Outcome)
      requires Valid()
      modifies this`rwas, this`events, usdc, tokens.Values
      ensures Valid()
      ensures Commits(Spec.BuyShares(cfg, old(Storage()), now, id, investor, amount),
                      old(Storage()), Storage(), outcome)
    {
      var loaded := LoadBuyable(id, investor, amount);
      if loaded.Err? { return Fail(loaded.error); }
      outcome := Purchase(now, loaded.value, id, investor, amount);
    }

    method CollectFund(id: RwaId, shipper: Address) returns (outcome: Outcome)
      requires Valid()
      modifies this`events, usdc
      ensures Valid()
      ensures Commits(Spec.CollectFund(cfg, old(Storage()), id, shipper), old(Storage()), Storage(), outcome)
    {
      if id !in rwas { return Fail(RwaNotFound); }
      var offering := rwas[id];
      if offering.shipper != shipper { return Fail(Unauthorized); }
      var amount := offering.sharesBought;
      outcome := PayUsdc(shipper, amount);
      if outcome.Pass? {
        Publish(FundCollected(id, shipper, amount));
      }
    }

    method SettleDebt(now: UInt32, id: RwaId, shipper: Address, amount: Int128) returns (outcome: Outcome)
      requires Valid()
      modifies this`rwas, this`events, usdc
      ensures Valid()
      ensures Commits(Spec.SettleDebt(cfg, old(Storage()), now, id, shipper, amount),
                      old(Storage()), Storage(), outcome)
    {
      if amount <= 0 { return Fail(InvalidAmount); }
      if id !in rwas { return Fail(RwaNotFound); }
      var offering := rwas[id];
      if offering.shipper != shipper { return Fail(Unauthorized); }
      var usdcBefore := usdc.Storage();
      outcome := PullUsdc(now, shipper, amount);
      if outcome.Fail? { return; }
      if !Fits(offering.principalPool + amount) {
        RestoreUsdc(usdcBefore);
        return Fail(ArithmeticOverflow);
      }
      offering := offering.(principalPool := offering.principalPool + amount);
      offering := offering.(status := Settled);
      Save(offering, DebtSettled(id, shipper, amount));
    }

    /** Loads an offering that can pay the claim, with the interest due. */
    method LoadClaimable(now: UInt32, id: RwaId, investor: Address, amount: Int128,
        deadline: UInt32)
      returns (r: Result<(RWA, Int128)>)
      ensures r == Claimable(Storage(), now, id, investor, amount, deadline)
    {
      if amount <= 0 { return Err(InvalidAmount); }
      if id !in rwas { return Err(RwaNotFound); }
      var offering := rwas[id];
      if offering.status != Settled { return Err(RwaNotSettled); }
      if deadline < now { return Err(InvalidDeadline); }
      if Get(offering.investors, investor) < amount { return Err(InsufficientPool); }
      if offering.principalPool < amount { return Err(InsufficientPool); }
      if !Fits(amount * offering.interestBps) { return Err(Trap); }
      return Ok((offering, amount * offering.interestBps / BPS));
    }

    /** Burns the investor's shares and pays out, or neither. */
    method Redeem(now: UInt32, token: Address, investor: Address, amount: Int128, interest: Int128, nonce: UInt64,
        deadline: UInt32, signature: Signature)
      returns (outcome: Outcome)
      requires Valid()
      modifies usdc, tokens.Values
      ensures Valid()
      ensures Commits(Redeemed(cfg, old(usdc.Storage()), old(TokenStorage()), Env(now), token,
                               investor, amount, interest, nonce, deadline, signature),
                      (old(usdc.Storage()), old(TokenStorage())), (usdc.Storage(), TokenStorage()), outcome)
      ensures Storage() == old(Storage()).(usdc := usdc.Storage(), tokens := TokenStorage())
    {
      var tokensBefore := TokenStorage();
      outcome := ShareBurn(now, token, investor, amount, nonce, deadline, signature);
      if outcome.Fail? { return; }
      if Fits(amount + interest) {
        outcome := PayUsdc(investor, amount + interest);
      } else {
        outcome := Fail(ArithmeticOverflow);
      }
      if outcome.Fail? { RestoreTokens(tokensBefore); }
    }

    /** Redeems and books a claim, or neither. */
    method PayClaim(now: UInt32, offering: RWA, interest: Int128, id: RwaId, investor: Address, amount: Int128,
        nonce: UInt64, deadline: UInt32, signature: Signature)
      returns (outcome: Outcome)
      requires Valid()
      modifies this`rwas, this`events, usdc, tokens.Values
      ensures Valid()
      ensures Commits(PaidOut(cfg, old(Storage()), now, offering, interest, id, investor,
                              amount, nonce, deadline, signature),
                      old(Storage()), Storage(), outcome)
    {
      var held := Get(offering.investors, investor);
      var usdcBefore, tokensBefore := usdc.Storage(), TokenStorage();
      outcome := Redeem(now, offering.token, investor, amount, interest, nonce, deadline, signature);
      if outcome.Fail? { return; }
      var booked := RecordClaim(offering, investor, held, amount, interest);
      if booked.Err? {
        Revert(usdcBefore, tokensBefore);
        return Fail(booked.error);
      }
      Save(booked.value, Claimed(id, investor, amount, interest));
    }

    method Claim(now: UInt32, id: RwaId, investor: Address, amount: Int128, nonce: UInt64, deadline: UInt32,
        signature: Signature)
      returns (outcome: Outcome)
      requires Valid()
      modifies this`rwas, this`events, usdc, tokens.Values
      ensures Valid()
      ensures Commits(Spec.Claim(cfg, old(Storage()), now, id, investor, amount, nonce, deadline, signature),
                      old(Storage()), Storage(), outcome)
    {
      var loaded := LoadClaimable(now, id, investor, amount, deadline);
      if loaded.Err? { return Fail(loaded.error); }
      outcome := PayClaim(now, loaded.value.0, loaded.value.1, id, investor, amount, nonce, deadline, signature);
    }

    method WithdrawFees(id: RwaId, admin: Address) returns (outcome: Outcome)
      requires Valid()
      modifies this`rwas, this`events, usdc
      ensures Valid()
      ensures Commits(Spec.WithdrawFees(cfg, old(Storage()), id, admin), old(Storage()), Storage(), outcome)
    {
      if admin != cfg.admin { return Fail(Unauthorized); }
      if id !in rwas { return Fail(RwaNotFound); }
      var offering := rwas[id];
      if offering.protocolFeePool <= 0 { return Fail(InsufficientPool); }
      var amount := offering.protocolFeePool;
      outcome := PayUsdc(admin, amount);
      if outcome.Fail? { return; }
      offering := offering.(protocolFeePool := 0);
      Save(offering, FeesWithdrawn(id, admin, amount));
    }

    method EmergencyWithdraw(now: UInt32, token: Address, amount: Int128, admin: Address) returns (outcome: Outcome)
      requires Valid()
      modifies this`events, usdc, tokens.Values
      ensures Valid()
      ensures Commits(Spec.EmergencyWithdraw(cfg, old(Storage()), now, token, amount, admin),
                      old(Storage()), Storage(), outcome)
    {
      if admin != cfg.admin { return Fail(Unauthorized); }
      if amount <= 0 { return Fail(InvalidAmount); }
      if token == cfg.usdc {
        outcome := PayUsdc(admin, amount);
      } else if token in tokens {
        outcome := ShareTransfer(now, token, cfg.factory, admin, amount);
      } else if Taken(cfg, token) || !cfg.foreign(token, admin, amount) {
        outcome := Fail(ForeignToken);
      } else {
        outcome := Pass;
      }
      if outcome.Pass? {
        Publish(EmergencyWithdrawn(token, admin, amount));
      }
    }
  }
}
