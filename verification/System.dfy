/**
 * The deployed system: every call anyone can make on the factory, the registry,
 * compliance, the share tokens and USDC, in any order and at any ledger.
 */
module System {
  import opened Prelude
  import opened IdentityVerifier
  import Compliance
  import Sep57
  import Usdc
  import opened Factory

  datatype Call =
    // the factory's entry points
    | Create(shipper: Address, id: RwaId, raiseAmount: Int128, interestBps: Int128, dueLedger: UInt32,
             salt: Salt, nonce: UInt64, deadline: UInt32, signature: Signature)
    | Buy(id: RwaId, investor: Address, amount: Int128)
    | Collect(id: RwaId, shipper: Address)
    | Settle(id: RwaId, shipper: Address, amount: Int128)
    | ClaimShare(id: RwaId, investor: Address, amount: Int128, nonce: UInt64, deadline: UInt32, signature: Signature)
    | Withdraw(id: RwaId, admin: Address)
    | Emergency(token: Address, amount: Int128, admin: Address)
    // calls that go past the factory
    | Identify(user: Address, verified: bool, countryCode: string, role: Role, operator: Address)
    | Bind(token: Address, bound: bool, operator: Address)
    | Cap(token: Address, amount: Int128, operator: Address)
    | ShareMint(token: Address, to: Address, amount: Int128, nonce: UInt64, deadline: UInt32, signature: Signature)
    | ShareBurn(token: Address, from: Address, amount: Int128, nonce: UInt64, deadline: UInt32, signature: Signature)
    | ShareTransfer(token: Address, from: Address, to: Address, amount: Int128)
    | UsdcApprove(from: Address, spender: Address, amount: Int128, liveUntil: UInt32)
    | UsdcTransfer(from: Address, to: Address, amount: Int128)
    | UsdcTransferFrom(spender: Address, from: Address, to: Address, amount: Int128)
    | UsdcIssue(to: Address, amount: Int128)

  datatype Step = Step(now: UInt32, call: Call)

  /** Whose authorisation a call needs; the factory gives none to an outside call. */
  function Signer(c: Call): Option<Address> {
    match c
    case Create(shipper, _, _, _, _, _, _, _, _) => Some(shipper)
    case Buy(_, investor, _) => Some(investor)
    case Collect(_, shipper) => Some(shipper)
    case Settle(_, shipper, _) => Some(shipper)
    case ClaimShare(_, investor, _, _, _, _) => Some(investor)
    case Withdraw(_, admin) => Some(admin)
    case Emergency(_, _, admin) => Some(admin)
    case Identify(_, _, _, _, operator) => Some(operator)
    case Bind(_, _, operator) => Some(operator)
    case Cap(_, _, operator) => Some(operator)
    case ShareMint(_, _, _, _, _, _) => None
    case ShareBurn(_, _, _, _, _, _) => None
    case ShareTransfer(_, from, _, _) => Some(from)
    case UsdcApprove(from, _, _, _) => Some(from)
    case UsdcTransfer(from, _, _) => Some(from)
    case UsdcTransferFrom(spender, _, _, _) => Some(spender)
    case UsdcIssue(_, _) => None
  }

  predicate IsFactoryCall(c: Call) {
    c.Create? || c.Buy? || c.Collect? || c.Settle? || c.ClaimShare? || c.Withdraw? || c.Emergency?
  }

  function FactoryCall(cfg: Config, w: World, now: UInt32, c: Call): Result<World>
    requires IsFactoryCall(c)
  {
    match c
    case Create(shipper, id, raise, bps, due, salt, nonce, deadline, signature) =>
      CreateRwaToken(cfg, w, now, shipper, id, raise, bps, due, salt, nonce, deadline, signature)
    case Buy(id, investor, amount) => BuyShares(cfg, w, now, id, investor, amount)
    case Collect(id, shipper) => CollectFund(cfg, w, id, shipper)
    case Settle(id, shipper, amount) => SettleDebt(cfg, w, now, id, shipper, amount)
    case ClaimShare(id, investor, amount, nonce, deadline, signature) =>
      Claim(cfg, w, now, id, investor, amount, nonce, deadline, signature)
    case Withdraw(id, admin) => WithdrawFees(cfg, w, id, admin)
    case Emergency(token, amount, admin) => EmergencyWithdraw(cfg, w, now, token, amount, admin)
  }

  predicate IsUsdcCall(c: Call) {
    c.UsdcApprove? || c.UsdcTransfer? || c.UsdcTransferFrom? || c.UsdcIssue?
  }

  function UsdcCall(u: Usdc.State, now: UInt32, c: Call): Result<Usdc.State>
    requires IsUsdcCall(c)
  {
    match c
    case UsdcApprove(from, spender, amount, liveUntil) => Usdc.Approve(u, now, from, spender, amount, liveUntil)
    case UsdcTransfer(from, to, amount) => Usdc.MoveBalance(u, from, to, amount)
    case UsdcTransferFrom(spender, from, to, amount) => Usdc.TransferFrom(u, now, spender, from, to, amount)
    case UsdcIssue(to, amount) => Usdc.Issue(u, to, amount)
  }

  predicate IsShareCall(c: Call) {
    c.ShareMint? || c.ShareBurn? || c.ShareTransfer?
  }

  function ShareCall(cfg: Config, w: World, now: UInt32, c: Call): Result<map<Address, Sep57.State>>
    requires IsShareCall(c)
  {
    match c
    case ShareMint(token, to, amount, nonce, deadline, signature) =>
      TokenMint(cfg, w.tokens, TokenEnv(w, now), token, to, amount, nonce, deadline, signature)
    case ShareBurn(token, from, amount, nonce, deadline, signature) =>
      TokenBurn(cfg, w.tokens, TokenEnv(w, now), token, from, amount, nonce, deadline, signature)
    case ShareTransfer(token, from, to, amount) =>
      TokenTransfer(cfg, w.tokens, TokenEnv(w, now), token, from, to, amount)
  }

  function Apply(cfg: Config, w: World, s: Step): Result<World> {
    if Signer(s.call) == Some(cfg.factory) then Err(NotAuthorised)
    else if IsFactoryCall(s.call) then FactoryCall(cfg, w, s.now, s.call)
    else if IsUsdcCall(s.call) then
      var usdc :- UsdcCall(w.usdc, s.now, s.call);
      Ok(w.(usdc := usdc))
    else if IsShareCall(s.call) then
      var tokens :- ShareCall(cfg, w, s.now, s.call);
      Ok(w.(tokens := tokens))
    else
      match s.call
      case Identify(user, verified, countryCode, role, operator) =>
        var users :- SetIdentity(w.users, cfg.identityAdmin, user, verified, countryCode, role, operator);
        Ok(w.(users := users))
      case Bind(token, bound, operator) =>
        var compliance :- Compliance.BindToken(w.compliance, token, bound, operator);
        Ok(w.(compliance := compliance))
      case Cap(token, amount, operator) =>
        var compliance :- Compliance.SetMaxBalance(w.compliance, token, amount, operator);
        Ok(w.(compliance := compliance))
  }

  /** USDC that reaches the factory without its doing. */
  function Deposit(cfg: Config, s: Step): int {
    match s.call
    case UsdcTransfer(_, to, amount) => if to == cfg.factory then amount else 0
    case UsdcTransferFrom(_, _, to, amount) => if to == cfg.factory then amount else 0
    case UsdcIssue(to, amount) => if to == cfg.factory then amount else 0
    case _ => 0
  }

  /** A rejected call reverts. */
  function After(cfg: Config, w: World, s: Step): World {
    match Apply(cfg, w, s)
    case Ok(w') => w'
    case Err(_) => w
  }

  function Run(cfg: Config, w: World, steps: seq<Step>): World {
    if steps == [] then w else After(cfg, Run(cfg, w, steps[..|steps| - 1]), steps[|steps| - 1])
  }

  /** All accepted deposits of a run. */
  function Deposits(cfg: Config, w: World, steps: seq<Step>): int {
    if steps == [] then 0
    else
      var (front, last) := (steps[..|steps| - 1], steps[|steps| - 1]);
      Deposits(cfg, w, front) + if Apply(cfg, Run(cfg, w, front), last).Ok? then Deposit(cfg, last) else 0
  }

  /** Just deployed: no offering, no share token; USDC already circulates. */
  ghost predicate Genesis(cfg: Config, w: World) {
    && 0 <= cfg.protocolFeeBps <= 10_000
    && w.tokens == map[] && w.rwas == map[] && w.idByToken == map[] && w.events == []
    && (forall a | a in w.usdc.balances :: 0 <= w.usdc.balances[a])
    && (forall k | k in w.usdc.allowances && k.0 == cfg.factory :: w.usdc.allowances[k].amount == 0)
  }
}
