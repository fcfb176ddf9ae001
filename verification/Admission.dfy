/**
 * The calls that no other module settles: when a withdrawal, an emergency, a
 * call past the factory is accepted, and which error a refused factory call has.
 */
module Admission {
  import opened Prelude
  import opened IdentityVerifier
  import opened Factory
  import opened Offering
  import opened System
  import opened Effects
  import opened Invariants
  import opened ShareBooks
  import opened Liveness
  import Sep57Runs
  import Usdc

  // ---------- money out of the factory ----------

  /** USDC the factory holds, and room for it with the payee. */
  predicate CanPay(cfg: Config, u: Usdc.State, to: Address, amount: int) {
    amount <= Get(u.balances, cfg.factory) && Fits(Get(u.balances, to) + amount)
  }

  lemma {:induction false} CanPayExactly(cfg: Config, u: Usdc.State, to: Address, amount: Int128)
    requires UsdcSound(cfg.factory, u) && to != cfg.factory && 0 <= amount
    ensures Usdc.MoveBalance(u, cfg.factory, to, amount).Ok? <==> CanPay(cfg, u, to, amount)
  {
  }

  /** A fee withdrawal, exactly: only the admin, and only from a pool that holds something, that the factory has. */
  lemma {:induction false} WithdrawAcceptedExactly(cfg: Config, w: World, steps: seq<Step>, s: Step)
    requires Genesis(cfg, w) && s.call.Withdraw?
    ensures var (v, c) := (Run(cfg, w, steps), s.call);
      Apply(cfg, v, s).Ok? <==>
        && c.admin == cfg.admin != cfg.factory && c.id in v.rwas && 0 < v.rwas[c.id].protocolFeePool
        && CanPay(cfg, v.usdc, c.admin, v.rwas[c.id].protocolFeePool)
  {
    UsdcConservation(cfg, w, steps);
    var v, c := Run(cfg, w, steps), s.call;
    if c.id in v.rwas && c.admin != cfg.factory && 0 < v.rwas[c.id].protocolFeePool {
      CanPayExactly(cfg, v.usdc, c.admin, v.rwas[c.id].protocolFeePool);
    }
  }

  /** What an emergency withdrawal takes is there: USDC, shares the admin may hold, or an outside token that pays. */
  predicate Takeable(cfg: Config, w: World, now: UInt32, token: Address, amount: Int128) {
    if token == cfg.usdc then CanPay(cfg, w.usdc, cfg.admin, amount)
    else if token in w.tokens then
      Sep57Runs.Admissible(TokenConfig(cfg, token), w.tokens[token],
                           Sep57Runs.Step(TokenEnv(w, now), Sep57Runs.CallTransfer(cfg.factory, cfg.admin, amount)))
    else token !in {cfg.factory, cfg.identityVerifier, cfg.compliance} && cfg.foreign(token, cfg.admin, amount)
  }

  /** An emergency withdrawal, exactly: only the admin, and only what can be taken. */
  lemma {:induction false} EmergencyAcceptedExactly(cfg: Config, w: World, steps: seq<Step>, s: Step)
    requires Genesis(cfg, w) && s.call.Emergency?
    ensures var (v, c) := (Run(cfg, w, steps), s.call);
      Apply(cfg, v, s).Ok? <==>
        c.admin == cfg.admin != cfg.factory && 0 < c.amount && Takeable(cfg, v, s.now, c.token, c.amount)
  {
    UsdcConservation(cfg, w, steps);
    EmergencyAccepted(cfg, Run(cfg, w, steps), s);
  }

  lemma {:induction false} EmergencyAccepted(cfg: Config, w: World, s: Step)
    requires s.call.Emergency? && UsdcSound(cfg.factory, w.usdc)
    ensures Apply(cfg, w, s).Ok? <==>
      && s.call.admin == cfg.admin != cfg.factory && 0 < s.call.amount
      && Takeable(cfg, w, s.now, s.call.token, s.call.amount)
  {
    var c := s.call;
    if c.admin == cfg.admin != cfg.factory && 0 < c.amount {
      if c.token == cfg.usdc {
        CanPayExactly(cfg, w.usdc, c.admin, c.amount);
      } else if c.token in w.tokens {
        Sep57Runs.AcceptedExactly(TokenConfig(cfg, c.token), w.tokens[c.token],
          Sep57Runs.Step(TokenEnv(w, s.now), Sep57Runs.CallTransfer(cfg.factory, cfg.admin, c.amount)));
      }
    }
  }

  // ---------- calls past the factory ----------

  /** The registry is its admin's, the rules are their operator's, and a cap needs a bound token. */
  predicate RulesAdmissible(cfg: Config, w: World, c: Call)
    requires c.Identify? || c.Bind? || c.Cap?
  {
    match c
    case Identify(_, _, _, _, operator) => operator == cfg.identityAdmin
    case Bind(_, _, operator) => operator == w.compliance.operator
    case Cap(token, amount, operator) =>
      operator == w.compliance.operator && token in w.compliance.bound && w.compliance.bound[token] && 0 < amount
  }

  lemma {:induction false} RulesAcceptedExactly(cfg: Config, w: World, s: Step)
    requires s.call.Identify? || s.call.Bind? || s.call.Cap?
    ensures Apply(cfg, w, s).Ok? <==> s.call.operator != cfg.factory && RulesAdmissible(cfg, w, s.call)
  {
  }

  /** An identity is set, exactly: by the registry's admin, for that user alone, to what was said. */
  lemma {:induction false} IdentifiedExactly(cfg: Config, w: World, s: Step)
    requires s.call.Identify?
    ensures var (c, r) := (s.call, Apply(cfg, w, s));
      && (r.Ok? <==> c.operator == cfg.identityAdmin != cfg.factory)
      && (r.Ok? ==>
            && r.value.users.Keys == w.users.Keys + {c.user}
            && r.value.users[c.user].verified == c.verified && r.value.users[c.user].role == c.role
            && r.value.users[c.user].countryCode == c.countryCode && r.value.users[c.user].address == c.user
            && forall u | u in w.users && u != c.user :: r.value.users[u] == w.users[u])
  {
    RulesAcceptedExactly(cfg, w, s);
  }

  /** A call on a share token past the factory. */
  lemma {:induction false} ShareAcceptedExactly(cfg: Config, w: World, s: Step)
    requires IsShareCall(s.call)
    ensures var (token, c) := ShareCallOf(cfg, w, s.call).value;
      Apply(cfg, w, s).Ok? <==>
        && (s.call.ShareTransfer? ==> s.call.from != cfg.factory) && token in w.tokens
        && Sep57Runs.Admissible(TokenConfig(cfg, token), w.tokens[token], Sep57Runs.Step(TokenEnv(w, s.now), c))
  {
    var (token, c) := ShareCallOf(cfg, w, s.call).value;
    if token in w.tokens {
      Sep57Runs.AcceptedExactly(TokenConfig(cfg, token), w.tokens[token], Sep57Runs.Step(TokenEnv(w, s.now), c));
    }
  }

  /** The balance covers the amount, and the receiver has room. */
  predicate Movable(u: Usdc.State, from: Address, to: Address, amount: int) {
    0 <= amount <= Get(u.balances, from) && Fits(Get(u.balances, to) + amount)
  }

  predicate UsdcAdmissible(factory: Address, u: Usdc.State, now: UInt32, c: Call)
    requires IsUsdcCall(c)
  {
    match c
    case UsdcApprove(from, _, amount, liveUntil) => from != factory && (amount <= 0 || now <= liveUntil)
    case UsdcTransfer(from, to, amount) => from != factory && Movable(u, from, to, amount)
    case UsdcTransferFrom(spender, from, to, amount) =>
      spender != factory && MayDraw(u, now, from, spender, amount) && Movable(u, from, to, amount)
    case UsdcIssue(to, amount) => 0 <= amount && Fits(Get(u.balances, to) + amount)
  }

  /** A USDC call past the factory: an approval is refused only if it would be over at once. */
  lemma {:induction false} UsdcAcceptedExactly(cfg: Config, w: World, s: Step)
    requires IsUsdcCall(s.call)
    ensures Apply(cfg, w, s).Ok? <==> UsdcAdmissible(cfg.factory, w.usdc, s.now, s.call)
  {
    if s.call.UsdcTransferFrom? && s.call.spender != cfg.factory {
      DrawExactly(cfg.factory, w.usdc, s.now, s.call);
    }
  }

  lemma {:induction false} DrawExactly(factory: Address, u: Usdc.State, now: UInt32, c: Call)
    requires c.UsdcTransferFrom? && c.spender != factory
    ensures UsdcCall(u, now, c).Ok? <==> UsdcAdmissible(factory, u, now, c)
  {
  }

  // ---------- which error a refused factory call ends with ----------

  /** A creation is refused for its first failing guard; nothing of it depends on those after. */
  lemma {:induction false} CreateRefusals(cfg: Config, w: World, s: Step)
    requires s.call.Create? && s.call.shipper != cfg.factory
    ensures var (c, r) := (s.call, Apply(cfg, w, s));
      if c.raiseAmount <= 0 then r == Err(InvalidAmount)
      else if c.interestBps <= 0 || 950 < c.interestBps then r == Err(InvalidBps)
      else if c.dueLedger <= s.now then r == Err(InvalidDeadline)
      else if c.shipper !in w.users || !w.users[c.shipper].verified || w.users[c.shipper].role != KYB
        then r == Err(NotVerified)
      else if c.deadline < s.now then r == Err(InvalidDeadline)
      else if c.id in w.rwas then r == Err(RwaAlreadyExists)
      else r != Err(NotVerified)
  {
  }

  lemma {:induction false} BuyRefusals(cfg: Config, w: World, steps: seq<Step>, s: Step)
    requires Genesis(cfg, w) && s.call.Buy? && s.call.investor != cfg.factory
    ensures var (v, c, r) := (Run(cfg, w, steps), s.call, Apply(cfg, Run(cfg, w, steps), s));
      if c.amount <= 0 then r == Err(InvalidAmount)
      else if c.investor !in v.users || !v.users[c.investor].verified || v.users[c.investor].role != KYC
        then r == Err(NotVerified)
      else if c.id !in v.rwas then r == Err(RwaNotFound)
      else if v.rwas[c.id].status != Open then r == Err(RwaNotOpen)
      else r == Err(SharesExhausted) <==> v.rwas[c.id].sharesTotal < v.rwas[c.id].sharesBought + c.amount
  {
    UsdcConservation(cfg, w, steps);
    BuyRefused(cfg, Run(cfg, w, steps), s);
  }

  lemma {:induction false} BuyRefused(cfg: Config, w: World, s: Step)
    requires s.call.Buy? && s.call.investor != cfg.factory && Offerings(w)
    ensures var (c, r) := (s.call, Apply(cfg, w, s));
      if c.amount <= 0 then r == Err(InvalidAmount)
      else if c.investor !in w.users || !w.users[c.investor].verified || w.users[c.investor].role != KYC
        then r == Err(NotVerified)
      else if c.id !in w.rwas then r == Err(RwaNotFound)
      else if w.rwas[c.id].status != Open then r == Err(RwaNotOpen)
      else r == Err(SharesExhausted) <==> w.rwas[c.id].sharesTotal < w.rwas[c.id].sharesBought + c.amount
  {
    if s.call.id in w.rwas {
      SharesWithinTotal(w, s.call.id);
    }
  }

  lemma {:induction false} SharesWithinTotal(w: World, id: RwaId)
    requires Offerings(w) && id in w.rwas
    ensures 0 <= w.rwas[id].sharesBought <= w.rwas[id].sharesTotal
  {
    assert Consistent(w.rwas[id], BookOf(w.events, id));
  }

  lemma {:induction false} ClaimRefusals(cfg: Config, w: World, s: Step)
    requires s.call.ClaimShare? && s.call.investor != cfg.factory
    ensures var (c, r) := (s.call, Apply(cfg, w, s));
      if c.amount <= 0 then r == Err(InvalidAmount)
      else if c.id !in w.rwas then r == Err(RwaNotFound)
      else if w.rwas[c.id].status != Settled then r == Err(RwaNotSettled)
      else if c.deadline < s.now then r == Err(InvalidDeadline)
      else r == Err(InsufficientPool) <==>
        Get(w.rwas[c.id].investors, c.investor) < c.amount || w.rwas[c.id].principalPool < c.amount
  {
  }

  /** A shipper's calls: for a missing offering first, then for one that is not the caller's. */
  lemma {:induction false} ShipperRefusals(cfg: Config, w: World, s: Step)
    requires (s.call.Collect? || s.call.Settle?) && s.call.shipper != cfg.factory
    ensures var (c, r) := (s.call, Apply(cfg, w, s));
      if c.Settle? && c.amount <= 0 then r == Err(InvalidAmount)
      else if c.id !in w.rwas then r == Err(RwaNotFound)
      else r == Err(Unauthorized) <==> w.rwas[c.id].shipper != c.shipper
  {
  }

  /** The admin's calls: for the caller first. */
  lemma {:induction false} AdminRefusals(cfg: Config, w: World, s: Step)
    requires (s.call.Withdraw? || s.call.Emergency?) && s.call.admin != cfg.factory
    ensures var (c, r) := (s.call, Apply(cfg, w, s));
      if c.admin != cfg.admin then r == Err(Unauthorized)
      else if c.Emergency? then r == Err(InvalidAmount) <== c.amount <= 0
      else if c.id !in w.rwas then r == Err(RwaNotFound)
      else r == Err(InsufficientPool) <==> w.rwas[c.id].protocolFeePool <= 0
  {
  }
}
