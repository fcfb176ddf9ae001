/**
 * The offering escrow: what each factory entry point does to the factory's own
 * storage, to the USDC ledger, to compliance and to the share tokens it drives.
 */
module Factory {
  import opened Prelude
  import opened IdentityVerifier
  import Compliance
  import Sep57
  import Usdc

  const MAX_INTEREST_BPS: Int128 := 950
  const BPS: Int128 := 10_000
  const COMPLIANCE_MAX_BALANCE: Int128 := INT128_MAX

  type RwaId = string
  type Salt = Bytes

  datatype Status = Open | Funded | Settled

  /** One offering. */
  datatype RWA = RWA(
    id: RwaId, token: Address, shipper: Address,
    raiseAmount: Int128, interestBps: Int128, protocolFeeBps: Int128,
    interestPool: Int128, protocolFeePool: Int128, principalPool: Int128,
    sharesTotal: Int128, sharesReserved: Int128, sharesBought: Int128,
    investors: map<Address, Int128>, dueLedger: UInt32, status: Status)

  /** What the factory publishes. */
  datatype Event =
    | RwaCreated(id: RwaId, shipper: Address, token: Address, raiseAmount: Int128, interestBps: Int128, upfront: Int128)
    | SharesBought(id: RwaId, investor: Address, amount: Int128)
    | FundCollected(id: RwaId, shipper: Address, amount: Int128)
    | DebtSettled(id: RwaId, shipper: Address, amount: Int128)
    | Claimed(id: RwaId, investor: Address, principal: Int128, interest: Int128)
    | FeesWithdrawn(id: RwaId, admin: Address, amount: Int128)
    | EmergencyWithdrawn(token: Address, admin: Address, amount: Int128)

  /**
   * Fixed at deployment. `verify` is Ed25519, `deploy` the host's map from salts to
   * contract addresses, and `foreign` says whether a token from outside the system
   * pays out when the factory transfers an amount of it; all three are opaque.
   */
  datatype Config = Config(
    factory: Address, usdc: Address, identityVerifier: Address, compliance: Address,
    admin: Address, identityAdmin: Address, adminSigner: Key, protocolFeeBps: Int128,
    verify: (Key, Bytes, Signature) -> bool, deploy: Salt -> Address,
    foreign: (Address, Address, Int128) -> bool)

  function TokenConfig(cfg: Config, token: Address): Sep57.Config {
    Sep57.Config(token, cfg.adminSigner, cfg.verify)
  }

  predicate Taken(cfg: Config, a: Address) {
    a == cfg.factory || a == cfg.usdc || a == cfg.identityVerifier || a == cfg.compliance
  }

  /** All the contract storage there is. */
  datatype World = World(
    usdc: Usdc.State, users: Users, compliance: Compliance.State,
    tokens: map<Address, Sep57.State>,
    rwas: map<RwaId, RWA>, idByToken: map<Address, RwaId>, events: seq<Event>)

  function TokenEnv(w: World, now: UInt32): Sep57.Env {
    Sep57.Env(now, w.users, w.compliance)
  }

  function SharesAvailable(o: RWA): Result<Int128> {
    Plain(o.sharesTotal - o.sharesBought)
  }

  function NextStatus(o: RWA, available: Int128): Status {
    if available <= 0 then Funded else o.status
  }

  function GetRwa(rwas: map<RwaId, RWA>, id: RwaId): Result<RWA> {
    if id in rwas then Ok(rwas[id]) else Err(RwaNotFound)
  }

  /** Interest and protocol fee on a raise; the products are plain i128 arithmetic. */
  function UpfrontFees(cfg: Config, raiseAmount: Int128, interestBps: Int128): Result<(Int128, Int128, Int128)> {
    var interest :- Plain(raiseAmount * interestBps);
    var fee :- Plain(raiseAmount * cfg.protocolFeeBps);
    var upfront :- Plain(interest / BPS + fee / BPS);
    Ok((interest / BPS, fee / BPS, upfront))
  }

  function CheckCreate(w: World, now: UInt32, shipper: Address, id: RwaId, raiseAmount: Int128, interestBps: Int128,
      dueLedger: UInt32, deadline: UInt32): Outcome {
    if raiseAmount <= 0 then Fail(InvalidAmount)
    else if interestBps <= 0 || MAX_INTEREST_BPS < interestBps then Fail(InvalidBps)
    else if dueLedger <= now then Fail(InvalidDeadline)
    else if !HasRole(w.users, shipper, KYB) then Fail(NotVerified)
    else if deadline < now then Fail(InvalidDeadline)
    else Require(id !in w.rwas, RwaAlreadyExists)
  }

  function NewOffering(cfg: Config, id: RwaId, token: Address, shipper: Address, raiseAmount: Int128,
      interestBps: Int128, dueLedger: UInt32, interest: Int128, fee: Int128): RWA {
    RWA(id, token, shipper, raiseAmount, interestBps, cfg.protocolFeeBps, interest, fee, 0,
        raiseAmount, 0, 0, map[], dueLedger, Open)
  }

  function BoundAndCapped(cfg: Config, compliance: Compliance.State, token: Address): Result<Compliance.State> {
    var bound :- Compliance.BindToken(compliance, token, true, cfg.factory);
    Compliance.SetMaxBalance(bound, token, COMPLIANCE_MAX_BALANCE, cfg.factory)
  }

  /** A new share token, bound and capped, with the whole raise minted to the factory. */
  function DeployedToken(cfg: Config, users: Users, compliance: Compliance.State, now: UInt32, token: Address,
      raiseAmount: Int128, nonce: UInt64, deadline: UInt32, signature: Signature)
    : Result<(Compliance.State, Sep57.State)>
  {
    var capped :- BoundAndCapped(cfg, compliance, token);
    var minted :- Sep57.Mint(TokenConfig(cfg, token), Sep57.Env(now, users, capped), Sep57.DEPLOYED, cfg.factory,
        raiseAmount, nonce, deadline, signature);
    Ok((capped, minted))
  }

  /** The upfront fees pulled in from the shipper, and a token deployed at an address that is free. */
  function Issued(cfg: Config, w: World, now: UInt32, shipper: Address, upfront: Int128, token: Address,
      raiseAmount: Int128, nonce: UInt64, deadline: UInt32, signature: Signature)
    : Result<(Usdc.State, Compliance.State, Sep57.State)>
  {
    var usdc :- Usdc.TransferFrom(w.usdc, now, cfg.factory, shipper, cfg.factory, upfront);
    :- Require(token !in w.tokens && !Taken(cfg, token), AddressTaken);
    var (compliance, minted) :- DeployedToken(cfg, w.users, w.compliance, now, token, raiseAmount, nonce, deadline,
        signature);
    Ok((usdc, compliance, minted))
  }

  /** A creation past its guards: issued, then registered. */
  function Launched(cfg: Config, w: World, now: UInt32, shipper: Address, id: RwaId, raiseAmount: Int128,
      interestBps: Int128, dueLedger: UInt32, token: Address, fees: (Int128, Int128, Int128), nonce: UInt64,
      deadline: UInt32, signature: Signature)
    : Result<World>
  {
    var (interest, fee, upfront) := fees;
    var (usdc, compliance, minted) :- Issued(cfg, w, now, shipper, upfront, token, raiseAmount, nonce, deadline,
                                             signature);
    var offering := NewOffering(cfg, id, token, shipper, raiseAmount, interestBps, dueLedger, interest, fee);
    Ok(World(usdc, w.users, compliance, w.tokens[token := minted], w.rwas[id := offering], w.idByToken[token := id],
             w.events + [RwaCreated(id, shipper, token, raiseAmount, interestBps, upfront)]))
  }

  function CreateRwaToken(cfg: Config, w: World, now: UInt32, shipper: Address, id: RwaId, raiseAmount: Int128,
      interestBps: Int128, dueLedger: UInt32, salt: Salt, nonce: UInt64, deadline: UInt32, signature: Signature)
    : Result<World>
  {
    var token := cfg.deploy(salt);
    :- CheckCreate(w, now, shipper, id, raiseAmount, interestBps, dueLedger, deadline);
    var fees :- UpfrontFees(cfg, raiseAmount, interestBps);
    Launched(cfg, w, now, shipper, id, raiseAmount, interestBps, dueLedger, token, fees, nonce, deadline, signature)
  }

  /** The offering after a purchase has been paid and delivered. */
  function Bought(o: RWA, investor: Address, amount: Int128): Result<RWA> {
    var bought :- CheckedAdd(o.sharesBought, amount);
    var held :- CheckedAdd(Get(o.investors, investor), amount);
    var o1 := o.(sharesBought := bought, investors := o.investors[investor := held]);
    var available :- SharesAvailable(o1);
    Ok(o1.(status := NextStatus(o1, available)))
  }

  /** A share token call made by, or through, the factory. */
  function TokenTransfer(cfg: Config, tokens: map<Address, Sep57.State>, env: Sep57.Env, token: Address,
      from: Address, to: Address, amount: Int128)
    : Result<map<Address, Sep57.State>>
  {
    if token !in tokens then Err(NoSuchContract)
    else
      var t :- Sep57.Transfer(TokenConfig(cfg, token), env, tokens[token], from, to, amount);
      Ok(tokens[token := t])
  }

  function TokenBurn(cfg: Config, tokens: map<Address, Sep57.State>, env: Sep57.Env, token: Address, from: Address,
      amount: Int128, nonce: UInt64, deadline: UInt32, signature: Signature)
    : Result<map<Address, Sep57.State>>
  {
    if token !in tokens then Err(NoSuchContract)
    else
      var t :- Sep57.Burn(TokenConfig(cfg, token), env, tokens[token], from, amount, nonce, deadline, signature);
      Ok(tokens[token := t])
  }

  function TokenMint(cfg: Config, tokens: map<Address, Sep57.State>, env: Sep57.Env, token: Address, to: Address,
      amount: Int128, nonce: UInt64, deadline: UInt32, signature: Signature)
    : Result<map<Address, Sep57.State>>
  {
    if token !in tokens then Err(NoSuchContract)
    else
      var t :- Sep57.Mint(TokenConfig(cfg, token), env, tokens[token], to, amount, nonce, deadline, signature);
      Ok(tokens[token := t])
  }

  /** The offering a purchase may be made from. */
  function Buyable(w: World, id: RwaId, investor: Address, amount: Int128): Result<RWA> {
    if amount <= 0 then Err(InvalidAmount)
    else
      :- Require(HasRole(w.users, investor, KYC), NotVerified);
      var o :- GetRwa(w.rwas, id);
      :- Require(o.status == Open, RwaNotOpen);
      var available :- SharesAvailable(o);
      :- Require(amount <= available, SharesExhausted);
      Ok(o)
  }

  /** USDC in from the investor, shares out to the investor. */
  function Exchanged(cfg: Config, usdc: Usdc.State, tokens: map<Address, Sep57.State>, env: Sep57.Env,
      token: Address, investor: Address, amount: Int128)
    : Result<(Usdc.State, map<Address, Sep57.State>)>
  {
    var usdc' :- Usdc.TransferFrom(usdc, env.now, cfg.factory, investor, cfg.factory, amount);
    var tokens' :- TokenTransfer(cfg, tokens, env, token, cfg.factory, investor, amount);
    Ok((usdc', tokens'))
  }

  /** A purchase from a loaded offering: exchanged, then booked. */
  function Purchased(cfg: Config, w: World, now: UInt32, o: RWA, id: RwaId, investor: Address,
      amount: Int128)
    : Result<World>
  {
    var (usdc, tokens) :- Exchanged(cfg, w.usdc, w.tokens, TokenEnv(w, now), o.token, investor, amount);
    var o' :- Bought(o, investor, amount);
    Ok(w.(usdc := usdc, tokens := tokens, rwas := w.rwas[o'.id := o'],
          events := w.events + [SharesBought(id, investor, amount)]))
  }

  function BuyShares(cfg: Config, w: World, now: UInt32, id: RwaId, investor: Address, amount: Int128): Result<World> {
    var o :- Buyable(w, id, investor, amount);
    Purchased(cfg, w, now, o, id, investor, amount)
  }

  /** Pays out the raise; the offering itself is not written back. */
  function CollectFund(cfg: Config, w: World, id: RwaId, shipper: Address): Result<World> {
    var o :- GetRwa(w.rwas, id);
    :- Require(o.shipper == shipper, Unauthorized);
    var usdc :- Usdc.MoveBalance(w.usdc, cfg.factory, shipper, o.sharesBought);
    Ok(w.(usdc := usdc, events := w.events + [FundCollected(id, shipper, o.sharesBought)]))
  }

  function SettleDebt(cfg: Config, w: World, now: UInt32, id: RwaId, shipper: Address, amount: Int128): Result<World> {
    if amount <= 0 then Err(InvalidAmount)
    else
      var o :- GetRwa(w.rwas, id);
      :- Require(o.shipper == shipper, Unauthorized);
      var usdc :- Usdc.TransferFrom(w.usdc, now, cfg.factory, shipper, cfg.factory, amount);
      var pool :- CheckedAdd(o.principalPool, amount);
      var o' := o.(principalPool := pool, status := Settled);
      Ok(w.(usdc := usdc, rwas := w.rwas[o'.id := o'], events := w.events + [DebtSettled(id, shipper, amount)]))
  }

  /** The offering after a claim has been paid: three plain subtractions. */
  function AfterClaim(o: RWA, investor: Address, held: int, amount: Int128, interest: Int128): Result<RWA> {
    var principal :- Plain(o.principalPool - amount);
    var pool :- Plain(o.interestPool - interest);
    var left :- Plain(held - amount);
    Ok(o.(principalPool := principal, interestPool := pool, investors := o.investors[investor := left]))
  }

  /** The offering a claim may be made on, and the interest due on it. */
  function Claimable(w: World, now: UInt32, id: RwaId, investor: Address, amount: Int128,
      deadline: UInt32)
    : Result<(RWA, Int128)>
  {
    if amount <= 0 then Err(InvalidAmount)
    else
      var o :- GetRwa(w.rwas, id);
      :- Require(o.status == Settled, RwaNotSettled);
      :- Require(now <= deadline, InvalidDeadline);
      :- Require(amount <= Get(o.investors, investor), InsufficientPool);
      :- Require(amount <= o.principalPool, InsufficientPool);
      var product :- Plain(amount * o.interestBps);
      Ok((o, product / BPS))
  }

  /** Shares burned from the investor, then principal and interest out to the investor. */
  function Redeemed(cfg: Config, usdc: Usdc.State, tokens: map<Address, Sep57.State>, env: Sep57.Env, token: Address,
      investor: Address, amount: Int128, interest: Int128, nonce: UInt64, deadline: UInt32,
      signature: Signature)
    : Result<(Usdc.State, map<Address, Sep57.State>)>
  {
    var tokens' :- TokenBurn(cfg, tokens, env, token, investor, amount, nonce, deadline, signature);
    var payout :- CheckedAdd(amount, interest);
    var usdc' :- Usdc.MoveBalance(usdc, cfg.factory, investor, payout);
    Ok((usdc', tokens'))
  }

  /** A claim on a loaded offering: redeemed, then booked. */
  function PaidOut(cfg: Config, w: World, now: UInt32, o: RWA, interest: Int128, id: RwaId, investor: Address,
      amount: Int128, nonce: UInt64, deadline: UInt32, signature: Signature)
    : Result<World>
  {
    var (usdc, tokens) :- Redeemed(cfg, w.usdc, w.tokens, TokenEnv(w, now), o.token, investor, amount, interest,
        nonce, deadline, signature);
    var o' :- AfterClaim(o, investor, Get(o.investors, investor), amount, interest);
    Ok(w.(usdc := usdc, tokens := tokens, rwas := w.rwas[o'.id := o'],
          events := w.events + [Claimed(id, investor, amount, interest)]))
  }

  function Claim(cfg: Config, w: World, now: UInt32, id: RwaId, investor: Address, amount: Int128, nonce: UInt64,
      deadline: UInt32, signature: Signature)
    : Result<World>
  {
    var (o, interest) :- Claimable(w, now, id, investor, amount, deadline);
    PaidOut(cfg, w, now, o, interest, id, investor, amount, nonce, deadline, signature)
  }

  function WithdrawFees(cfg: Config, w: World, id: RwaId, admin: Address): Result<World> {
    if admin != cfg.admin then Err(Unauthorized)
    else
      var o :- GetRwa(w.rwas, id);
      :- Require(0 < o.protocolFeePool, InsufficientPool);
      var usdc :- Usdc.MoveBalance(w.usdc, cfg.factory, admin, o.protocolFeePool);
      var o' := o.(protocolFeePool := 0);
      Ok(w.(usdc := usdc, rwas := w.rwas[o'.id := o'],
            events := w.events + [FeesWithdrawn(id, admin, o.protocolFeePool)]))
  }

  /** Takes USDC, share tokens, or tokens from outside the system out of the factory. */
  function EmergencyWithdraw(cfg: Config, w: World, now: UInt32, token: Address, amount: Int128,
      admin: Address)
    : Result<World>
  {
    if admin != cfg.admin then Err(Unauthorized)
    else
      :- Require(0 < amount, InvalidAmount);
      var events := w.events + [EmergencyWithdrawn(token, admin, amount)];
      if token == cfg.usdc then
        var usdc :- Usdc.MoveBalance(w.usdc, cfg.factory, admin, amount);
        Ok(w.(usdc := usdc, events := events))
      else if token in w.tokens then
        var tokens :- TokenTransfer(cfg, w.tokens, TokenEnv(w, now), token, cfg.factory, admin, amount);
        Ok(w.(tokens := tokens, events := events))
      else
        :- Require(!Taken(cfg, token) && cfg.foreign(token, admin, amount), ForeignToken);
        Ok(w.(events := events))
  }
}
