/**
 * What an accepted call does, one aspect at a time: the offerings, the
 * factory's USDC, the share tokens, and the registry and compliance.
 */
module Effects {
  import opened Prelude
  import opened MapSums
  import opened IdentityVerifier
  import opened Factory
  import opened Offering
  import opened System
  import Sep57
  import Sep57Runs
  import Usdc

  // ---------- USDC, seen from the factory ----------

  /** No balance is negative, and the factory lets nobody spend for it. */
  ghost predicate UsdcSound(f: Address, u: Usdc.State) {
    && NonNegative(u.balances)
    && (forall k | k in u.allowances && k.0 == f :: u.allowances[k].amount == 0)
  }

  ghost predicate UsdcChanged(f: Address, u: Usdc.State, u': Usdc.State, delta: int) {
    UsdcSound(f, u') && Get(u'.balances, f) == Get(u.balances, f) + delta
  }

  /** USDC moved between the factory and one other account only. */
  ghost predicate PaidBetween(f: Address, party: Address, u: Usdc.State, u': Usdc.State, delta: int) {
    forall a ::
      Get(u'.balances, a) == Get(u.balances, a) + (if a == f then delta else 0) - (if a == party then delta else 0)
  }

  /** What `from` lets `spender` draw; nothing, if no approval is stored. */
  function Granted(u: Usdc.State, from: Address, spender: Address): int {
    if (from, spender) in u.allowances then u.allowances[(from, spender)].amount else 0
  }

  /** Until when; zero is for ever. */
  function GrantedUntil(u: Usdc.State, from: Address, spender: Address): UInt32 {
    if (from, spender) in u.allowances then u.allowances[(from, spender)].liveUntil else 0
  }

  /** The approval is live and covers the amount. */
  predicate MayDraw(u: Usdc.State, now: UInt32, from: Address, spender: Address, amount: int) {
    && (GrantedUntil(u, from, spender) == 0 || now <= GrantedUntil(u, from, spender))
    && amount <= Granted(u, from, spender)
  }

  /** `spender` drew on what `from` had approved, and that alone. */
  ghost predicate Drawn(spender: Address, from: Address, u: Usdc.State, u': Usdc.State, amount: int) {
    && 0 <= amount <= Granted(u, from, spender)
    && u'.allowances == u.allowances[(from, spender) :=
         Usdc.Allowance(Granted(u, from, spender) - amount, GrantedUntil(u, from, spender))]
  }

  /** Both balances are read before either is written: who sends to himself is credited. */
  ghost predicate Sent(from: Address, to: Address, u: Usdc.State, u': Usdc.State, amount: int) {
    0 <= amount <= Get(u.balances, from) && forall a ::
      Get(u'.balances, a) == Get(u.balances, a) + (if a == to then amount else 0)
                             - (if a == from && from != to then amount else 0)
  }

  /** What a call past the factory does to USDC. */
  ghost predicate OutsideMoney(c: Call, u: Usdc.State, u': Usdc.State) {
    match c
    case UsdcApprove(from, spender, amount, liveUntil) =>
      u'.balances == u.balances && u'.allowances == u.allowances[(from, spender) := Usdc.Allowance(amount, liveUntil)]
    case UsdcTransfer(from, to, amount) => Sent(from, to, u, u', amount) && u'.allowances == u.allowances
    case UsdcTransferFrom(spender, from, to, amount) =>
      Sent(from, to, u, u', amount) && Drawn(spender, from, u, u', amount)
    case UsdcIssue(to, amount) =>
      && 0 <= amount && u'.allowances == u.allowances
      && (forall a :: Get(u'.balances, a) == Get(u.balances, a) + if a == to then amount else 0)
    case _ => u' == u
  }

  lemma PulledIn(f: Address, u: Usdc.State, now: UInt32, from: Address, amount: Int128)
    requires UsdcSound(f, u) && from != f && Usdc.TransferFrom(u, now, f, from, f, amount).Ok?
    ensures var u' := Usdc.TransferFrom(u, now, f, from, f, amount).value;
      UsdcChanged(f, u, u', amount) && PaidBetween(f, from, u, u', amount) && Drawn(f, from, u, u', amount)
  {
  }

  lemma SentOut(f: Address, u: Usdc.State, to: Address, amount: Int128)
    requires UsdcSound(f, u) && to != f && Usdc.MoveBalance(u, f, to, amount).Ok?
    ensures var u' := Usdc.MoveBalance(u, f, to, amount).value;
      UsdcChanged(f, u, u', 0 - amount) && PaidBetween(f, to, u, u', 0 - amount) && u'.allowances == u.allowances
  {
  }

  lemma OutsideUsdc(cfg: Config, u: Usdc.State, s: Step)
    requires UsdcSound(cfg.factory, u) && Signer(s.call) != Some(cfg.factory)
    requires IsUsdcCall(s.call) && UsdcCall(u, s.now, s.call).Ok?
    ensures UsdcChanged(cfg.factory, u, UsdcCall(u, s.now, s.call).value, Deposit(cfg, s))
  {
  }

  lemma OutsideTransfer(u: Usdc.State, s: Step)
    requires (s.call.UsdcTransfer? || s.call.UsdcTransferFrom?) && UsdcCall(u, s.now, s.call).Ok?
    ensures OutsideMoney(s.call, u, UsdcCall(u, s.now, s.call).value)
  {
  }

  lemma OutsideCall(u: Usdc.State, s: Step)
    requires IsUsdcCall(s.call) && UsdcCall(u, s.now, s.call).Ok?
    ensures OutsideMoney(s.call, u, UsdcCall(u, s.now, s.call).value)
  {
    if s.call.UsdcTransfer? || s.call.UsdcTransferFrom? {
      OutsideTransfer(u, s);
    }
  }

  /** How much USDC the factory gains by an accepted call. */
  function UsdcDelta(cfg: Config, w: World, s: Step): int {
    match s.call
    case Create(_, _, raise, bps, _, _, _, _, _) => Share(raise, bps) + Share(raise, cfg.protocolFeeBps)
    case Buy(_, _, amount) => amount
    case Collect(id, _) => if id in w.rwas then 0 - w.rwas[id].sharesBought else 0
    case Settle(_, _, amount) => amount
    case ClaimShare(id, _, amount, _, _, _) =>
      if id in w.rwas then 0 - amount - Share(amount, w.rwas[id].interestBps) else 0
    case Withdraw(id, _) => if id in w.rwas then 0 - w.rwas[id].protocolFeePool else 0
    case Emergency(token, amount, _) => if token == cfg.usdc then 0 - amount else 0
    case _ => Deposit(cfg, s)
  }

  /** The calls by which the factory draws on an approval. */
  predicate Pulls(c: Call) {
    c.Create? || c.Buy? || c.Settle?
  }

  /** A factory call moves USDC only between the factory and whoever signed it. */
  ghost predicate MoneyEffect(cfg: Config, w: World, s: Step, w': World) {
    && UsdcChanged(cfg.factory, w.usdc, w'.usdc, UsdcDelta(cfg, w, s))
    && if !IsFactoryCall(s.call) then OutsideMoney(s.call, w.usdc, w'.usdc)
       else
         && PaidBetween(cfg.factory, Signer(s.call).value, w.usdc, w'.usdc, UsdcDelta(cfg, w, s))
         && if Pulls(s.call) then Drawn(cfg.factory, Signer(s.call).value, w.usdc, w'.usdc, UsdcDelta(cfg, w, s))
            else w'.usdc.allowances == w.usdc.allowances
  }

  // ---------- offerings ----------

  predicate Keyed(w: World) {
    forall id | id in w.rwas :: w.rwas[id].id == id
  }

  /** The offerings are those of `w` but for one, about which one event is published. */
  ghost predicate Rewritten(w: World, w': World, id: RwaId, o: RWA, e: Event) {
    && w'.rwas == w.rwas[id := o] && w'.events == w.events + [e]
    && About(e, id) && o.id == id
  }

  /** A new offering, with the terms asked for, both fees in its pools, and nothing sold. */
  ghost predicate OfferingOpened(cfg: Config, w: World, w': World, id: RwaId, token: Address, shipper: Address,
      raise: Int128, bps: Int128, due: UInt32)
  {
    var (interest, fee) := (Share(raise, bps), Share(raise, cfg.protocolFeeBps));
    && id !in w.rwas && 0 < raise && 0 < bps <= 950
    && Fits(raise * bps) && Fits(raise * cfg.protocolFeeBps) && Fits(interest + fee)
    && Rewritten(w, w', id,
                 RWA(id, token, shipper, raise, bps, cfg.protocolFeeBps, interest, fee, 0,
                     raise, 0, 0, map[], due, Open),
                 RwaCreated(id, shipper, token, raise, bps, interest + fee))
  }

  /** A sale raises the shares bought and the buyer's holding, and fills the offering when nothing is left. */
  ghost predicate SaleBooked(w: World, w': World, id: RwaId, investor: Address, amount: Int128) {
    && id in w.rwas && w.rwas[id].status == Open
    && 0 < amount <= w.rwas[id].sharesTotal - w.rwas[id].sharesBought
    && Fits(Get(w.rwas[id].investors, investor) + amount)
    && var o := w.rwas[id];
    && Rewritten(w, w', id,
                 o.(sharesBought := o.sharesBought + amount,
                    investors := o.investors[investor := Get(o.investors, investor) + amount],
                    status := if o.sharesBought + amount == o.sharesTotal then Funded else Open),
                 SharesBought(id, investor, amount))
  }

  /** A claim lowers both pools and the claimant's holding. */
  ghost predicate ClaimBooked(w: World, w': World, id: RwaId, investor: Address, amount: Int128) {
    && id in w.rwas && w.rwas[id].status == Settled
    && 0 < amount <= Get(w.rwas[id].investors, investor) && amount <= w.rwas[id].principalPool
    && var (o, interest) := (w.rwas[id], Share(amount, w.rwas[id].interestBps));
    && Fits(interest) && Fits(o.interestPool - interest)
    && Rewritten(w, w', id,
                 o.(principalPool := o.principalPool - amount, interestPool := o.interestPool - interest,
                    investors := o.investors[investor := Get(o.investors, investor) - amount]),
                 Claimed(id, investor, amount, interest))
  }

  ghost predicate OfferingEffect(cfg: Config, w: World, s: Step, w': World) {
    match s.call
    case Create(shipper, id, raise, bps, due, salt, _, _, _) =>
      OfferingOpened(cfg, w, w', id, cfg.deploy(salt), shipper, raise, bps, due)
    case Buy(id, investor, amount) => SaleBooked(w, w', id, investor, amount)
    case Collect(id, shipper) =>
      && id in w.rwas && w.rwas[id].shipper == shipper
      && Rewritten(w, w', id, w.rwas[id], FundCollected(id, shipper, w.rwas[id].sharesBought))
    case Settle(id, shipper, amount) =>
      && id in w.rwas && w.rwas[id].shipper == shipper && 0 < amount
      && Fits(w.rwas[id].principalPool + amount)
      && Rewritten(w, w', id, w.rwas[id].(principalPool := w.rwas[id].principalPool + amount, status := Settled),
                   DebtSettled(id, shipper, amount))
    case ClaimShare(id, investor, amount, _, _, _) => ClaimBooked(w, w', id, investor, amount)
    case Withdraw(id, admin) =>
      && admin == cfg.admin && id in w.rwas && 0 < w.rwas[id].protocolFeePool
      && Rewritten(w, w', id, w.rwas[id].(protocolFeePool := 0), FeesWithdrawn(id, admin, w.rwas[id].protocolFeePool))
    case Emergency(token, amount, admin) =>
      && admin == cfg.admin && 0 < amount
      && w'.rwas == w.rwas && w'.events == w.events + [EmergencyWithdrawn(token, admin, amount)]
    case _ => w'.rwas == w.rwas && w'.events == w.events
  }

  // ---------- share tokens ----------

  /** The share token call that a system call, other than a creation, comes down to. */
  function ShareCallOf(cfg: Config, w: World, c: Call): Option<(Address, Sep57Runs.Call)> {
    match c
    case Buy(id, investor, amount) =>
      if id in w.rwas then Some((w.rwas[id].token, Sep57Runs.CallTransfer(cfg.factory, investor, amount))) else None
    case ClaimShare(id, investor, amount, nonce, deadline, signature) =>
      if id in w.rwas then Some((w.rwas[id].token, Sep57Runs.CallBurn(investor, amount, nonce, deadline, signature)))
      else None
    case Emergency(token, amount, admin) =>
      if token == cfg.usdc || token !in w.tokens then None
      else Some((token, Sep57Runs.CallTransfer(cfg.factory, admin, amount)))
    case ShareMint(token, to, amount, nonce, deadline, signature) =>
      Some((token, Sep57Runs.CallMint(to, amount, nonce, deadline, signature)))
    case ShareBurn(token, from, amount, nonce, deadline, signature) =>
      Some((token, Sep57Runs.CallBurn(from, amount, nonce, deadline, signature)))
    case ShareTransfer(token, from, to, amount) => Some((token, Sep57Runs.CallTransfer(from, to, amount)))
    case _ => None
  }

  /** One deployed token takes one accepted step of its own; the others stay as they are. */
  ghost predicate TokenStepped(cfg: Config, w: World, w': World, now: UInt32, token: Address, c: Sep57Runs.Call) {
    && token in w.tokens && token in w'.tokens && w'.tokens == w.tokens[token := w'.tokens[token]]
    && var s := Sep57Runs.Step(TokenEnv(w, now), c);
    && Sep57Runs.BalancesMoved(TokenConfig(cfg, token), s, w.tokens[token], w'.tokens[token])
    && Sep57Runs.PermitConsumed(TokenConfig(cfg, token), s, w.tokens[token], w'.tokens[token])
    && (Sep57Runs.Reachable(TokenConfig(cfg, token), w.tokens[token]) ==>
          Sep57Runs.Reachable(TokenConfig(cfg, token), w'.tokens[token]))
  }

  /** A fresh token whose whole supply the factory holds. */
  ghost predicate TokenDeployed(cfg: Config, w: World, w': World, token: Address, raise: Int128) {
    && token !in w.tokens && token !in {cfg.factory, cfg.usdc, cfg.identityVerifier, cfg.compliance}
    && Verified(w.users, cfg.factory)
    && token in w'.tokens && w'.tokens == w.tokens[token := w'.tokens[token]]
    && w'.tokens[token].totalSupply == raise && w'.tokens[token].balances == map[cfg.factory := raise]
    && Sep57Runs.Reachable(TokenConfig(cfg, token), w'.tokens[token])
  }

  ghost predicate TokenEffect(cfg: Config, w: World, s: Step, w': World) {
    if s.call.Create? then TokenDeployed(cfg, w, w', cfg.deploy(s.call.salt), s.call.raiseAmount)
    else
      match ShareCallOf(cfg, w, s.call)
      case None => w'.tokens == w.tokens
      case Some((token, c)) => TokenStepped(cfg, w, w', s.now, token, c)
  }

  lemma {:induction false} StepToken(cfg: Config, w: World, now: UInt32, token: Address, c: Sep57Runs.Call,
      t': Sep57.State)
    requires token in w.tokens
    requires Sep57Runs.Apply(TokenConfig(cfg, token), w.tokens[token], Sep57Runs.Step(TokenEnv(w, now), c)) == Ok(t')
    ensures TokenStepped(cfg, w, w.(tokens := w.tokens[token := t']), now, token, c)
  {
    var s := Sep57Runs.Step(TokenEnv(w, now), c);
    Sep57Runs.AcceptedCall(TokenConfig(cfg, token), w.tokens[token], s);
    if Sep57Runs.Reachable(TokenConfig(cfg, token), w.tokens[token]) {
      Sep57Runs.ReachableStep(TokenConfig(cfg, token), w.tokens[token], s);
    }
  }

  // ---------- registry and compliance ----------

  /** Only its admin writes the registry, one entry at a time. */
  ghost predicate RegistryEffect(cfg: Config, w: World, s: Step, w': World) {
    match s.call
    case Identify(user, verified, countryCode, role, operator) =>
      && operator == cfg.identityAdmin
      && w'.users == w.users[user := Identity(user, verified, countryCode, role)]
    case _ => w'.users == w.users
  }

  /** Only its operator writes the compliance rules; a creation does so for the factory. */
  ghost predicate ComplianceEffect(cfg: Config, w: World, s: Step, w': World) {
    var (r, r') := (w.compliance, w'.compliance);
    match s.call
    case Create(_, _, _, _, _, salt, _, _, _) =>
      && r.operator == cfg.factory
      && r' == r.(bound := r.bound[cfg.deploy(salt) := true],
                  maxBalance := r.maxBalance[cfg.deploy(salt) := INT128_MAX])
    case Bind(token, bound, operator) => operator == r.operator && r' == r.(bound := r.bound[token := bound])
    case Cap(token, amount, operator) =>
      && operator == r.operator && token in r.bound && r.bound[token] && 0 < amount
      && r' == r.(maxBalance := r.maxBalance[token := amount])
    case _ => r' == r
  }

  ghost predicate RulesEffect(cfg: Config, w: World, s: Step, w': World) {
    && RegistryEffect(cfg, w, s, w') && ComplianceEffect(cfg, w, s, w')
    && w'.idByToken == if s.call.Create? then w.idByToken[cfg.deploy(s.call.salt) := s.call.id] else w.idByToken
  }

  ghost predicate Effect(cfg: Config, w: World, s: Step, w': World) {
    && Signer(s.call) != Some(cfg.factory)
    && MoneyEffect(cfg, w, s, w')
    && OfferingEffect(cfg, w, s, w')
    && TokenEffect(cfg, w, s, w')
    && RulesEffect(cfg, w, s, w')
  }

  // ---------- each call has its effect ----------

  lemma {:induction false} CreateOpens(cfg: Config, w: World, s: Step)
    requires s.call.Create? && Apply(cfg, w, s).Ok?
    ensures OfferingEffect(cfg, w, s, Apply(cfg, w, s).value)
  {
  }

  /** What an accepted creation has checked, and the writes it made. */
  lemma {:induction false} CreateWrites(cfg: Config, w: World, s: Step)
    requires s.call.Create? && Apply(cfg, w, s).Ok?
    ensures var (c, w') := (s.call, Apply(cfg, w, s).value);
      && c.shipper != cfg.factory && RulesEffect(cfg, w, s, w')
      && var (token, upfront) := (cfg.deploy(c.salt), UsdcDelta(cfg, w, s));
      && Fits(upfront)
      && Usdc.TransferFrom(w.usdc, s.now, cfg.factory, c.shipper, cfg.factory, upfront) == Ok(w'.usdc)
      && token !in w.tokens && token !in {cfg.factory, cfg.usdc, cfg.identityVerifier, cfg.compliance}
      && token in w'.tokens && w'.tokens == w.tokens[token := w'.tokens[token]]
      && Sep57.Mint(TokenConfig(cfg, token), Sep57.Env(s.now, w.users, w'.compliance), Sep57.DEPLOYED, cfg.factory,
                    c.raiseAmount, c.nonce, c.deadline, c.signature) == Ok(w'.tokens[token])
  {
  }

  lemma {:induction false} CreateDeploys(cfg: Config, w: World, s: Step)
    requires s.call.Create? && Apply(cfg, w, s).Ok?
    ensures TokenEffect(cfg, w, s, Apply(cfg, w, s).value)
  {
    CreateWrites(cfg, w, s);
    var c, token, w' := s.call, cfg.deploy(s.call.salt), Apply(cfg, w, s).value;
    var mint := Sep57Runs.CallMint(cfg.factory, c.raiseAmount, c.nonce, c.deadline, c.signature);
    Sep57Runs.ReachableDeployed(TokenConfig(cfg, token));
    Sep57Runs.ReachableStep(TokenConfig(cfg, token), Sep57.DEPLOYED,
                            Sep57Runs.Step(Sep57.Env(s.now, w.users, w'.compliance), mint));
  }

  lemma {:induction false} CreatePays(cfg: Config, w: World, s: Step)
    requires s.call.Create? && Apply(cfg, w, s).Ok? && UsdcSound(cfg.factory, w.usdc)
    ensures MoneyEffect(cfg, w, s, Apply(cfg, w, s).value)
  {
    CreateWrites(cfg, w, s);
    PulledIn(cfg.factory, w.usdc, s.now, s.call.shipper, UsdcDelta(cfg, w, s));
  }

  lemma {:induction false} CreateEffect(cfg: Config, w: World, s: Step)
    requires s.call.Create? && Apply(cfg, w, s).Ok? && UsdcSound(cfg.factory, w.usdc)
    ensures Effect(cfg, w, s, Apply(cfg, w, s).value)
  {
    CreateOpens(cfg, w, s);
    CreateWrites(cfg, w, s);
    CreateDeploys(cfg, w, s);
    CreatePays(cfg, w, s);
  }

  lemma {:induction false} BuyBooks(cfg: Config, w: World, s: Step)
    requires s.call.Buy? && Apply(cfg, w, s).Ok? && Keyed(w)
    ensures OfferingEffect(cfg, w, s, Apply(cfg, w, s).value)
  {
  }

  lemma {:induction false} BuyEffect(cfg: Config, w: World, s: Step)
    requires s.call.Buy? && Apply(cfg, w, s).Ok? && UsdcSound(cfg.factory, w.usdc) && Keyed(w)
    ensures Effect(cfg, w, s, Apply(cfg, w, s).value)
  {
    BuyBooks(cfg, w, s);
    var c, w' := s.call, Apply(cfg, w, s).value;
    var token := w.rwas[c.id].token;
    PulledIn(cfg.factory, w.usdc, s.now, c.investor, c.amount);
    StepToken(cfg, w, s.now, token, Sep57Runs.CallTransfer(cfg.factory, c.investor, c.amount), w'.tokens[token]);
  }

  lemma {:induction false} PayoutEffect(cfg: Config, w: World, s: Step)
    requires (s.call.Collect? || s.call.Withdraw?) && Apply(cfg, w, s).Ok? && UsdcSound(cfg.factory, w.usdc) && Keyed(w)
    ensures Effect(cfg, w, s, Apply(cfg, w, s).value)
  {
    var o := w.rwas[s.call.id];
    if s.call.Collect? {
      SentOut(cfg.factory, w.usdc, s.call.shipper, o.sharesBought);
    } else {
      SentOut(cfg.factory, w.usdc, s.call.admin, o.protocolFeePool);
    }
  }

  lemma {:induction false} SettleEffect(cfg: Config, w: World, s: Step)
    requires s.call.Settle? && Apply(cfg, w, s).Ok? && UsdcSound(cfg.factory, w.usdc) && Keyed(w)
    ensures Effect(cfg, w, s, Apply(cfg, w, s).value)
  {
    PulledIn(cfg.factory, w.usdc, s.now, s.call.shipper, s.call.amount);
  }

  lemma {:induction false} ClaimBooks(cfg: Config, w: World, s: Step)
    requires s.call.ClaimShare? && Apply(cfg, w, s).Ok? && Keyed(w)
    ensures OfferingEffect(cfg, w, s, Apply(cfg, w, s).value)
  {
  }

  /** What an accepted claim has checked, and what it wrote to USDC and to the token. */
  lemma {:induction false} ClaimWrites(cfg: Config, w: World, s: Step)
    requires s.call.ClaimShare? && Apply(cfg, w, s).Ok? && Keyed(w)
    ensures var (c, w') := (s.call, Apply(cfg, w, s).value);
      && c.id in w.rwas && c.investor != cfg.factory && RulesEffect(cfg, w, s, w')
      && var (token, interest) := (w.rwas[c.id].token, Share(c.amount, w.rwas[c.id].interestBps));
      && Fits(c.amount + interest)
      && Usdc.MoveBalance(w.usdc, cfg.factory, c.investor, c.amount + interest) == Ok(w'.usdc)
      && TokenBurn(cfg, w.tokens, TokenEnv(w, s.now), token, c.investor, c.amount, c.nonce, c.deadline, c.signature)
          == Ok(w'.tokens)
  {
  }

  lemma {:induction false} ClaimPaid(cfg: Config, w: World, s: Step)
    requires s.call.ClaimShare? && Apply(cfg, w, s).Ok? && UsdcSound(cfg.factory, w.usdc) && Keyed(w)
    ensures MoneyEffect(cfg, w, s, Apply(cfg, w, s).value)
  {
    ClaimWrites(cfg, w, s);
    var c := s.call;
    SentOut(cfg.factory, w.usdc, c.investor, c.amount + Share(c.amount, w.rwas[c.id].interestBps));
  }

  lemma {:induction false} ClaimBurns(cfg: Config, w: World, s: Step)
    requires s.call.ClaimShare? && Apply(cfg, w, s).Ok? && Keyed(w)
    ensures TokenEffect(cfg, w, s, Apply(cfg, w, s).value)
  {
    ClaimWrites(cfg, w, s);
    var c, w' := s.call, Apply(cfg, w, s).value;
    var token := w.rwas[c.id].token;
    StepToken(cfg, w, s.now, token, Sep57Runs.CallBurn(c.investor, c.amount, c.nonce, c.deadline, c.signature),
        w'.tokens[token]);
  }

  lemma {:induction false} ClaimEffect(cfg: Config, w: World, s: Step)
    requires s.call.ClaimShare? && Apply(cfg, w, s).Ok? && UsdcSound(cfg.factory, w.usdc) && Keyed(w)
    ensures Effect(cfg, w, s, Apply(cfg, w, s).value)
  {
    ClaimBooks(cfg, w, s);
    ClaimWrites(cfg, w, s);
    ClaimPaid(cfg, w, s);
    ClaimBurns(cfg, w, s);
  }

  lemma {:induction false} EmergencyShares(cfg: Config, w: World, s: Step)
    requires s.call.Emergency? && Apply(cfg, w, s).Ok?
    ensures TokenEffect(cfg, w, s, Apply(cfg, w, s).value)
  {
    var c, w' := s.call, Apply(cfg, w, s).value;
    if c.token != cfg.usdc && c.token in w.tokens {
      StepToken(cfg, w, s.now, c.token, Sep57Runs.CallTransfer(cfg.factory, c.admin, c.amount), w'.tokens[c.token]);
    }
  }

  lemma {:induction false} EmergencyMoney(cfg: Config, w: World, s: Step)
    requires s.call.Emergency? && Apply(cfg, w, s).Ok? && UsdcSound(cfg.factory, w.usdc)
    ensures MoneyEffect(cfg, w, s, Apply(cfg, w, s).value)
  {
    if s.call.token == cfg.usdc {
      SentOut(cfg.factory, w.usdc, s.call.admin, s.call.amount);
    }
  }

  lemma {:induction false} EmergencyEffect(cfg: Config, w: World, s: Step)
    requires s.call.Emergency? && Apply(cfg, w, s).Ok? && UsdcSound(cfg.factory, w.usdc)
    ensures Effect(cfg, w, s, Apply(cfg, w, s).value)
  {
    EmergencyMoney(cfg, w, s);
    EmergencyShares(cfg, w, s);
  }

  lemma {:induction false} ShareCallSteps(cfg: Config, w: World, s: Step)
    requires IsShareCall(s.call) && Apply(cfg, w, s).Ok?
    ensures TokenEffect(cfg, w, s, Apply(cfg, w, s).value)
  {
    var (token, c) := ShareCallOf(cfg, w, s.call).value;
    StepToken(cfg, w, s.now, token, c, Apply(cfg, w, s).value.tokens[token]);
  }

  lemma {:induction false} ShareCallKeeps(cfg: Config, w: World, s: Step)
    requires IsShareCall(s.call) && Apply(cfg, w, s).Ok?
    ensures var w' := Apply(cfg, w, s).value; Signer(s.call) != Some(cfg.factory) && w' == w.(tokens := w'.tokens)
  {
  }

  lemma {:induction false} ShareCallEffect(cfg: Config, w: World, s: Step)
    requires IsShareCall(s.call) && Apply(cfg, w, s).Ok? && UsdcSound(cfg.factory, w.usdc)
    ensures Effect(cfg, w, s, Apply(cfg, w, s).value)
  {
    ShareCallKeeps(cfg, w, s);
    ShareCallSteps(cfg, w, s);
    UntouchedByShareCall(cfg, w, s, Apply(cfg, w, s).value);
  }

  lemma {:induction false} UntouchedByShareCall(cfg: Config, w: World, s: Step, w': World)
    requires IsShareCall(s.call) && UsdcSound(cfg.factory, w.usdc) && w' == w.(tokens := w'.tokens)
    ensures MoneyEffect(cfg, w, s, w') && OfferingEffect(cfg, w, s, w') && RulesEffect(cfg, w, s, w')
  {
  }

  lemma {:induction false} UsdcCallEffect(cfg: Config, w: World, s: Step)
    requires IsUsdcCall(s.call) && Apply(cfg, w, s).Ok? && UsdcSound(cfg.factory, w.usdc)
    ensures Effect(cfg, w, s, Apply(cfg, w, s).value)
  {
    OutsideUsdc(cfg, w.usdc, s);
    OutsideCall(w.usdc, s);
  }

  lemma {:induction false} RulesCallEffect(cfg: Config, w: World, s: Step)
    requires (s.call.Identify? || s.call.Bind? || s.call.Cap?) && Apply(cfg, w, s).Ok? && UsdcSound(cfg.factory, w.usdc)
    ensures Effect(cfg, w, s, Apply(cfg, w, s).value)
  {
  }

  lemma {:induction false} StepEffect(cfg: Config, w: World, s: Step)
    requires Apply(cfg, w, s).Ok? && UsdcSound(cfg.factory, w.usdc) && Keyed(w)
    ensures Effect(cfg, w, s, Apply(cfg, w, s).value)
  {
    match s.call
    case Create(_, _, _, _, _, _, _, _, _) => CreateEffect(cfg, w, s);
    case Buy(_, _, _) => BuyEffect(cfg, w, s);
    case Collect(_, _) => PayoutEffect(cfg, w, s);
    case Settle(_, _, _) => SettleEffect(cfg, w, s);
    case ClaimShare(_, _, _, _, _, _) => ClaimEffect(cfg, w, s);
    case Withdraw(_, _) => PayoutEffect(cfg, w, s);
    case Emergency(_, _, _) => EmergencyEffect(cfg, w, s);
    case ShareMint(_, _, _, _, _, _) => ShareCallEffect(cfg, w, s);
    case ShareBurn(_, _, _, _, _, _) => ShareCallEffect(cfg, w, s);
    case ShareTransfer(_, _, _, _) => ShareCallEffect(cfg, w, s);
    case Identify(_, _, _, _, _) => RulesCallEffect(cfg, w, s);
    case Bind(_, _, _) => RulesCallEffect(cfg, w, s);
    case Cap(_, _, _) => RulesCallEffect(cfg, w, s);
    case _ => UsdcCallEffect(cfg, w, s);
  }
}
