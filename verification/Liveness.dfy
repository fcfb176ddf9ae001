/** When calls go through: no arithmetic traps, no missing stock, no missing USDC. */
module Liveness {
  import opened Prelude
  import opened MapSums
  import opened IdentityVerifier
  import opened Factory
  import opened Offering
  import opened System
  import opened Effects
  import opened Invariants
  import opened ShareBooks
  import opened Escrow
  import Permit
  import Sep57
  import Sep57Runs

  // ---------- no traps ----------

  lemma {:induction false} ShareTraps(cfg: Sep57.Config, t: Sep57.State, s: Sep57Runs.Step)
    requires Sep57Runs.Reachable(cfg, t)
    ensures Sep57Runs.Apply(cfg, t, s) == Err(Trap) <==> Sep57Runs.Overdraws(cfg, t, s)
  {
    var steps :| Sep57Runs.Run(cfg, steps) == t;
    Sep57Runs.TrapsExactly(cfg, steps, s);
  }

  /** The call, as a call on a deployed share token, is a burn that overdraws the supply. */
  predicate BurnOverdraws(cfg: Config, w: World, now: UInt32, token: Address, c: Sep57Runs.Call) {
    token in w.tokens
      && Sep57Runs.Overdraws(TokenConfig(cfg, token), w.tokens[token], Sep57Runs.Step(TokenEnv(w, now), c))
  }

  /** The guards of a creation, the one on the permit's deadline aside. */
  predicate Creatable(w: World, s: Step)
    requires s.call.Create?
  {
    var c := s.call;
    && 0 < c.raiseAmount && 0 < c.interestBps <= 950 && s.now < c.dueLedger
    && c.shipper in w.users && w.users[c.shipper].verified && w.users[c.shipper].role == KYB
    && c.id !in w.rwas
  }

  /** What traps: a fee product at creation that does not fit, or a burn that overdraws the supply. */
  predicate Traps(cfg: Config, w: World, s: Step) {
    match s.call
    case Create(_, _, raise, bps, _, _, _, deadline, _) =>
      && Creatable(w, s) && s.now <= deadline
      && (!Fits(raise * bps) || !Fits(raise * cfg.protocolFeeBps))
    case ClaimShare(id, investor, amount, nonce, deadline, signature) =>
      && id in w.rwas && ClaimGuards(w, s) && s.now <= deadline
      && BurnOverdraws(cfg, w, s.now, w.rwas[id].token,
                       Sep57Runs.CallBurn(investor, amount, nonce, deadline, signature))
    case ShareBurn(token, from, amount, nonce, deadline, signature) =>
      BurnOverdraws(cfg, w, s.now, token, Sep57Runs.CallBurn(from, amount, nonce, deadline, signature))
    case _ => false
  }

  /** Once the fees are computed, nothing later in a creation can trap. */
  lemma {:induction false} MintNoTrap(cfg: Config, w: World, s: Step)
    requires s.call.Create? && UpfrontFees(cfg, s.call.raiseAmount, s.call.interestBps).Ok?
    ensures Apply(cfg, w, s) != Err(Trap)
  {
  }

  /** A creation that passes its checks traps if and only if one of the two fee products does not fit. */
  lemma {:induction false} CreateTraps(cfg: Config, w: World, s: Step)
    requires s.call.Create? && s.call.shipper != cfg.factory && 0 <= cfg.protocolFeeBps <= 10_000
    ensures Apply(cfg, w, s) == Err(Trap) <==> Traps(cfg, w, s)
  {
    var c := s.call;
    if CheckCreate(w, s.now, c.shipper, c.id, c.raiseAmount, c.interestBps, c.dueLedger, c.deadline) == Pass {
      UpfrontTraps(cfg, c.raiseAmount, c.interestBps);
      if UpfrontFees(cfg, c.raiseAmount, c.interestBps).Ok? {
        MintNoTrap(cfg, w, s);
      }
    }
  }

  /** The arithmetic of a purchase from what is on sale goes through. */
  lemma {:induction false} BuyReady(w: World, id: RwaId, investor: Address, amount: Int128)
    requires Offerings(w) && OnSale(w, id, amount)
    ensures SharesAvailable(w.rwas[id]).Ok? && Bought(w.rwas[id], investor, amount).Ok?
  {
    assert Consistent(w.rwas[id], BookOf(w.events, id));
    BoughtOk(w.rwas[id], BookOf(w.events, id), investor, amount);
  }

  /** The arithmetic of a claim past the factory's guards goes through. */
  lemma {:induction false} ClaimReady(w: World, s: Step)
    requires s.call.ClaimShare? && s.call.id in w.rwas && Offerings(w) && ClaimGuards(w, s)
    ensures var (c, o) := (s.call, w.rwas[s.call.id]);
      && Plain(c.amount * o.interestBps).Ok? && 0 <= Share(c.amount, o.interestBps) <= o.interestPool
      && AfterClaim(o, c.investor, Get(o.investors, c.investor), c.amount, Share(c.amount, o.interestBps)).Ok?
  {
    var c, o := s.call, w.rwas[s.call.id];
    assert Consistent(o, BookOf(w.events, c.id));
    ClaimedOk(o, BookOf(w.events, c.id), c.id, c.investor, c.amount);
  }

  lemma {:induction false} BuyNoTrap(cfg: Config, w: World, s: Step)
    requires s.call.Buy? && Offerings(w) && TokensSound(cfg, w)
    ensures Apply(cfg, w, s) != Err(Trap)
  {
    var c := s.call;
    if c.id in w.rwas {
      var o := w.rwas[c.id];
      assert Consistent(o, BookOf(w.events, c.id));
      if OnSale(w, c.id, c.amount) {
        BuyReady(w, c.id, c.investor, c.amount);
      }
      ShareTraps(TokenConfig(cfg, o.token), w.tokens[o.token],
        Sep57Runs.Step(TokenEnv(w, s.now), Sep57Runs.CallTransfer(cfg.factory, c.investor, c.amount)));
    }
  }

  lemma {:induction false} ClaimTraps(cfg: Config, w: World, s: Step)
    requires s.call.ClaimShare? && s.call.investor != cfg.factory && Offerings(w) && TokensSound(cfg, w)
    ensures Apply(cfg, w, s) == Err(Trap) <==> Traps(cfg, w, s)
  {
    var c := s.call;
    if c.id in w.rwas && ClaimGuards(w, s) {
      var token := w.rwas[c.id].token;
      ClaimReady(w, s);
      ShareTraps(TokenConfig(cfg, token), w.tokens[token],
                 Sep57Runs.Step(TokenEnv(w, s.now),
                                Sep57Runs.CallBurn(c.investor, c.amount, c.nonce, c.deadline, c.signature)));
      RedeemTraps(cfg, w, s);
    } else {
      ClaimPastNoGuard(cfg, w, s);
    }
  }

  lemma {:induction false} RedeemTraps(cfg: Config, w: World, s: Step)
    requires s.call.ClaimShare? && s.call.investor != cfg.factory && s.call.id in w.rwas && ClaimGuards(w, s)
    requires var (c, o) := (s.call, w.rwas[s.call.id]);
      && Plain(c.amount * o.interestBps).Ok? && 0 <= Share(c.amount, o.interestBps)
      && AfterClaim(o, c.investor, Get(o.investors, c.investor), c.amount, Share(c.amount, o.interestBps)).Ok?
      && o.token in w.tokens
    requires var (c, token) := (s.call, w.rwas[s.call.id].token);
      var burn := Sep57Runs.CallBurn(c.investor, c.amount, c.nonce, c.deadline, c.signature);
      var r := Sep57Runs.Apply(TokenConfig(cfg, token), w.tokens[token], Sep57Runs.Step(TokenEnv(w, s.now), burn));
      r == Err(Trap) <==> BurnOverdraws(cfg, w, s.now, token, burn)
    ensures Apply(cfg, w, s) == Err(Trap) <==> Traps(cfg, w, s)
  {
  }

  lemma {:induction false} ClaimPastNoGuard(cfg: Config, w: World, s: Step)
    requires s.call.ClaimShare? && s.call.investor != cfg.factory && !(s.call.id in w.rwas && ClaimGuards(w, s))
    ensures Apply(cfg, w, s) != Err(Trap) && !Traps(cfg, w, s)
  {
  }

  lemma {:induction false} ShareCallTraps(cfg: Config, w: World, s: Step)
    requires (IsShareCall(s.call) || s.call.Emergency?) && Signer(s.call) != Some(cfg.factory) && TokensSound(cfg, w)
    ensures Apply(cfg, w, s) == Err(Trap) <==> Traps(cfg, w, s)
  {
    if ShareCallOf(cfg, w, s.call).Some? {
      var (token, c) := ShareCallOf(cfg, w, s.call).value;
      if token in w.tokens {
        ShareTraps(TokenConfig(cfg, token), w.tokens[token], Sep57Runs.Step(TokenEnv(w, s.now), c));
      }
    }
  }

  lemma {:induction false} OtherTraps(cfg: Config, w: World, s: Step)
    requires !s.call.Create? && !s.call.Buy? && !s.call.ClaimShare? && !IsShareCall(s.call) && !s.call.Emergency?
    ensures Apply(cfg, w, s) != Err(Trap) && !Traps(cfg, w, s)
  {
  }

  /**
   * Unchecked i128 arithmetic, exactly: in every reachable state a call traps if
   * and only if it is a creation past its guards with a fee product that does not
   * fit, or a burn past its checks that overdraws the token's supply.
   */
  lemma {:induction false} TrapsInRuns(cfg: Config, w: World, steps: seq<Step>, s: Step)
    requires Genesis(cfg, w)
    ensures Apply(cfg, Run(cfg, w, steps), s) == Err(Trap) <==>
              Signer(s.call) != Some(cfg.factory) && Traps(cfg, Run(cfg, w, steps), s)
  {
    var v := Run(cfg, w, steps);
    UsdcConservation(cfg, w, steps);
    RunLinked(cfg, w, steps);
    if Signer(s.call) != Some(cfg.factory) {
      match s.call
      case Create(_, _, _, _, _, _, _, _, _) => CreateTraps(cfg, v, s);
      case Buy(_, _, _) => BuyNoTrap(cfg, v, s);
      case ClaimShare(_, _, _, _, _, _) => ClaimTraps(cfg, v, s);
      case Emergency(_, _, _) => ShareCallTraps(cfg, v, s);
      case _ => if IsShareCall(s.call) { ShareCallTraps(cfg, v, s); } else { OtherTraps(cfg, v, s); }
    }
  }

  // ---------- a claim is paid ----------

  /** The burn an investor's claim needs: a fresh, live, signed permit over tokens still held. */
  ghost predicate Burnable(cfg: Config, w: World, s: Step)
    requires s.call.ClaimShare? && s.call.id in w.rwas
  {
    var (c, token) := (s.call, w.rwas[s.call.id].token);
    && token in w.tokens
    && c.amount <= Get(w.tokens[token].balances, c.investor) && Fits(w.tokens[token].totalSupply - c.amount)
    && s.now < c.deadline && c.nonce !in w.tokens[token].usedNonces
    && cfg.verify(cfg.adminSigner, BurnMessage(token, c), c.signature)
  }

  function BurnMessage(token: Address, c: Call): Bytes
    requires c.ClaimShare?
  {
    Permit.Encode(Permit.Permit(token, 2, c.investor, c.amount, c.nonce, c.deadline))
  }

  lemma {:induction false} BurnGoesThrough(cfg: Config, w: World, s: Step)
    requires s.call.ClaimShare? && s.call.id in w.rwas && 0 < s.call.amount && Linked(cfg, w)
    ensures var (c, token) := (s.call, w.rwas[s.call.id].token);
      var r := TokenBurn(cfg, w.tokens, TokenEnv(w, s.now), token,
                         c.investor, c.amount, c.nonce, c.deadline, c.signature);
      r.Ok? <==> Burnable(cfg, w, s)
  {
  }

  lemma {:induction false} PoolsNonNegative(w: World, id: RwaId)
    requires Offerings(w) && id in w.rwas
    ensures 0 <= w.rwas[id].protocolFeePool && 0 <= w.rwas[id].principalPool && 0 <= w.rwas[id].interestPool
  {
    assert Consistent(w.rwas[id], BookOf(w.events, id));
  }

  lemma {:induction false} PoolWithinTotal(w: World, id: RwaId)
    requires Offerings(w) && id in w.rwas
    ensures PoolTotal(w.rwas[id]) <= Sum(PoolsOf(w))
  {
    forall i | i in w.rwas ensures 0 <= PoolsOf(w)[i] {
      assert Consistent(w.rwas[i], BookOf(w.events, i));
    }
    SumBounds(PoolsOf(w), id, id);
  }

  /** What the factory and the token ask of a claim, the factory's own USDC aside. */
  ghost predicate ClaimAdmissible(cfg: Config, w: World, s: Step)
    requires s.call.ClaimShare?
  {
    && s.call.investor != cfg.factory && s.call.id in w.rwas
    && var (c, o) := (s.call, w.rwas[s.call.id]);
    && o.status == Settled && 0 < c.amount <= Get(o.investors, c.investor) && c.amount <= o.principalPool
    && Burnable(cfg, w, s)
    && Fits(Get(w.usdc.balances, c.investor) + Payout(o, c.amount))
  }

  /** Principal and interest, rounded down, on a claimed amount. */
  function Payout(o: RWA, amount: int): int {
    amount + Share(amount, o.interestBps)
  }

  /**
   * A claim, exactly: after any run it is accepted if and only if it is
   * admissible and the factory holds the payout.
   */
  lemma {:induction false} ClaimAcceptedExactly(cfg: Config, w: World, steps: seq<Step>, s: Step)
    requires Genesis(cfg, w) && s.call.ClaimShare?
    ensures var v := Run(cfg, w, steps);
      Apply(cfg, v, s).Ok? <==>
        ClaimAdmissible(cfg, v, s) && Payout(v.rwas[s.call.id], s.call.amount) <= Get(v.usdc.balances, cfg.factory)
  {
    UsdcConservation(cfg, w, steps);
    RunLinked(cfg, w, steps);
    ClaimAccepted(cfg, Run(cfg, w, steps), s);
  }

  lemma {:induction false} ClaimAccepted(cfg: Config, w: World, s: Step)
    requires s.call.ClaimShare? && Offerings(w) && UsdcSound(cfg.factory, w.usdc) && Linked(cfg, w)
    ensures Apply(cfg, w, s).Ok? <==>
      ClaimAdmissible(cfg, w, s) && Payout(w.rwas[s.call.id], s.call.amount) <= Get(w.usdc.balances, cfg.factory)
  {
    if s.call.investor != cfg.factory && s.call.id in w.rwas && ClaimGuards(w, s) {
      ClaimReady(w, s);
      BurnGoesThrough(cfg, w, s);
      ClaimPays(cfg, w, s);
    } else {
      ClaimRefused(cfg, w, s);
    }
  }

  predicate ClaimGuards(w: World, s: Step)
    requires s.call.ClaimShare? && s.call.id in w.rwas
  {
    var (c, o) := (s.call, w.rwas[s.call.id]);
    o.status == Settled && 0 < c.amount <= Get(o.investors, c.investor) && c.amount <= o.principalPool
  }

  lemma {:induction false} ClaimRefused(cfg: Config, w: World, s: Step)
    requires s.call.ClaimShare?
    requires !(s.call.investor != cfg.factory && s.call.id in w.rwas && ClaimGuards(w, s))
    ensures Apply(cfg, w, s).Err?
  {
  }

  lemma {:induction false} ClaimPays(cfg: Config, w: World, s: Step)
    requires s.call.ClaimShare? && s.call.investor != cfg.factory && s.call.id in w.rwas && ClaimGuards(w, s)
    requires Keyed(w) && UsdcSound(cfg.factory, w.usdc)
    requires var (c, o) := (s.call, w.rwas[s.call.id]);
      && Plain(c.amount * o.interestBps).Ok? && 0 <= Share(c.amount, o.interestBps)
      && AfterClaim(o, c.investor, Get(o.investors, c.investor), c.amount, Share(c.amount, o.interestBps)).Ok?
    requires var (c, token) := (s.call, w.rwas[s.call.id].token);
      var r := TokenBurn(cfg, w.tokens, TokenEnv(w, s.now), token,
                         c.investor, c.amount, c.nonce, c.deadline, c.signature);
      r.Ok? <==> Burnable(cfg, w, s)
    ensures Apply(cfg, w, s).Ok? <==>
      && Burnable(cfg, w, s) && Payout(w.rwas[s.call.id], s.call.amount) <= Get(w.usdc.balances, cfg.factory)
      && Fits(Get(w.usdc.balances, s.call.investor) + Payout(w.rwas[s.call.id], s.call.amount))
  {
  }

  /**
   * A claim is paid: in a solvent state, whoever makes an admissible claim gets the
   * principal plus interest rounded down, to the unit, however much was repaid,
   * bought, claimed or withdrawn before.
   */
  lemma {:induction false} ClaimIsPaid(cfg: Config, w: World, steps: seq<Step>, s: Step)
    requires Genesis(cfg, w) && s.call.ClaimShare?
    requires Solvent(cfg, Run(cfg, w, steps)) && ClaimAdmissible(cfg, Run(cfg, w, steps), s)
    ensures var (v, c) := (Run(cfg, w, steps), s.call);
      && Apply(cfg, v, s).Ok?
      && Get(Apply(cfg, v, s).value.usdc.balances, c.investor) ==
           Get(v.usdc.balances, c.investor) + Payout(v.rwas[c.id], c.amount)
  {
    var v, c := Run(cfg, w, steps), s.call;
    UsdcConservation(cfg, w, steps);
    var o := v.rwas[c.id];
    ClaimReady(v, s);
    PoolsNonNegative(v, c.id);
    PoolWithinTotal(v, c.id);
    ClaimAcceptedExactly(cfg, w, steps, s);
    ClaimWrites(cfg, v, s);
    SentOut(cfg.factory, v.usdc, c.investor, Payout(o, c.amount));
  }

  // ---------- a purchase is delivered ----------

  lemma {:induction false} DeliveryGoesThrough(cfg: Config, w: World, s: Step)
    requires s.call.Buy? && s.call.id in w.rwas && Linked(cfg, w)
    requires s.call.investor != cfg.factory && 0 < s.call.amount && Verified(w.users, s.call.investor)
    ensures var (c, token) := (s.call, w.rwas[s.call.id].token);
      var r := TokenTransfer(cfg, w.tokens, TokenEnv(w, s.now), token, cfg.factory, c.investor, c.amount);
      && (r.Ok? <==>
            && Verified(w.users, cfg.factory) && c.amount <= Get(w.tokens[token].balances, cfg.factory)
            && Fits(Get(w.tokens[token].balances, c.investor) + c.amount))
      && (r.Ok? ==> Get(r.value[token].balances, c.investor) == Get(w.tokens[token].balances, c.investor) + c.amount)
  {
  }

  /** The investor's side of a purchase: verified, with enough USDC approved. */
  ghost predicate Payable(cfg: Config, w: World, s: Step)
    requires s.call.Buy?
  {
    var c := s.call;
    && c.investor in w.users && w.users[c.investor].verified && w.users[c.investor].role == KYC
    && MayDraw(w.usdc, s.now, c.investor, cfg.factory, c.amount)
    && c.amount <= Get(w.usdc.balances, c.investor)
    && Fits(Get(w.usdc.balances, cfg.factory) + c.amount)
  }

  /** An open offering with as many unsold shares. */
  predicate OnSale(w: World, id: RwaId, amount: Int128) {
    id in w.rwas && w.rwas[id].status == Open && 0 < amount <= w.rwas[id].sharesTotal - w.rwas[id].sharesBought
  }

  /** What is asked of a purchase, the factory's own stock of shares aside. */
  ghost predicate BuyAdmissible(cfg: Config, w: World, s: Step)
    requires s.call.Buy?
  {
    && s.call.investor != cfg.factory && OnSale(w, s.call.id, s.call.amount) && Payable(cfg, w, s)
    && Verified(w.users, cfg.factory)
    && w.rwas[s.call.id].token in w.tokens
    && Fits(Get(w.tokens[w.rwas[s.call.id].token].balances, s.call.investor) + s.call.amount)
  }

  lemma {:induction false} BuyRefused(cfg: Config, w: World, s: Step)
    requires s.call.Buy?
    requires !(s.call.investor != cfg.factory && OnSale(w, s.call.id, s.call.amount) && Payable(cfg, w, s))
    requires UsdcSound(cfg.factory, w.usdc)
    ensures Apply(cfg, w, s).Err?
  {
  }

  lemma {:induction false} PurchaseGoesThrough(cfg: Config, w: World, s: Step)
    requires s.call.Buy? && s.call.investor != cfg.factory && OnSale(w, s.call.id, s.call.amount) && Payable(cfg, w, s)
    requires SharesAvailable(w.rwas[s.call.id]).Ok? && Bought(w.rwas[s.call.id], s.call.investor, s.call.amount).Ok?
    ensures var (c, token) := (s.call, w.rwas[s.call.id].token);
      var r := TokenTransfer(cfg, w.tokens, TokenEnv(w, s.now), token, cfg.factory, c.investor, c.amount);
      && (Apply(cfg, w, s).Ok? <==> r.Ok?)
      && (r.Ok? ==> Apply(cfg, w, s).value.tokens == r.value)
  {
  }

  /**
   * A purchase, exactly: after any run it is accepted if and only if it is
   * admissible and the factory holds the shares; then they are the buyer's.
   */
  lemma {:induction false} BuyAcceptedExactly(cfg: Config, w: World, steps: seq<Step>, s: Step)
    requires Genesis(cfg, w) && s.call.Buy?
    ensures var v := Run(cfg, w, steps);
      Apply(cfg, v, s).Ok? <==>
        BuyAdmissible(cfg, v, s) && s.call.amount <= Get(v.tokens[v.rwas[s.call.id].token].balances, cfg.factory)
    ensures var (v, c) := (Run(cfg, w, steps), s.call);
      Apply(cfg, v, s).Ok? ==>
        var (token, v') := (v.rwas[c.id].token, Apply(cfg, v, s).value);
        && token in v'.tokens
        && Get(v'.tokens[token].balances, c.investor) == Get(v.tokens[token].balances, c.investor) + c.amount
  {
    UsdcConservation(cfg, w, steps);
    RunLinked(cfg, w, steps);
    BuyAccepted(cfg, Run(cfg, w, steps), s);
  }

  lemma {:induction false} BuyAccepted(cfg: Config, w: World, s: Step)
    requires s.call.Buy? && Offerings(w) && UsdcSound(cfg.factory, w.usdc) && Linked(cfg, w)
    ensures Apply(cfg, w, s).Ok? <==>
      BuyAdmissible(cfg, w, s) && s.call.amount <= Get(w.tokens[w.rwas[s.call.id].token].balances, cfg.factory)
    ensures Apply(cfg, w, s).Ok? ==>
      var (c, token, w') := (s.call, w.rwas[s.call.id].token, Apply(cfg, w, s).value);
      && token in w'.tokens
      && Get(w'.tokens[token].balances, c.investor) == Get(w.tokens[token].balances, c.investor) + c.amount
  {
    var c := s.call;
    if c.investor != cfg.factory && OnSale(w, c.id, c.amount) && Payable(cfg, w, s) {
      BuyReady(w, c.id, c.investor, c.amount);
      DeliveryGoesThrough(cfg, w, s);
      PurchaseGoesThrough(cfg, w, s);
    } else {
      BuyRefused(cfg, w, s);
    }
  }

  /**
   * An admissible purchase is always delivered, up to the last share, as long as
   * no accepted call took the token out of the factory other than by a sale.
   */
  lemma {:induction false} BuyIsDelivered(cfg: Config, w: World, steps: seq<Step>, s: Step)
    requires Genesis(cfg, w) && s.call.Buy? && BuyAdmissible(cfg, Run(cfg, w, steps), s)
    requires Untapped(cfg, w, steps, Run(cfg, w, steps).rwas[s.call.id].token)
    ensures var (v, c) := (Run(cfg, w, steps), s.call);
      && Apply(cfg, v, s).Ok?
      && var (token, v') := (v.rwas[c.id].token, Apply(cfg, v, s).value);
      && token in v'.tokens
      && Get(v'.tokens[token].balances, c.investor) == Get(v.tokens[token].balances, c.investor) + c.amount
  {
    UnsoldSharesInStock(cfg, w, steps, s.call.id);
    BuyAcceptedExactly(cfg, w, steps, s);
  }
}
