/** In which order calls are accepted, and what becomes of permits that arrive too late. */
module Lifecycle {
  import opened Prelude
  import opened Factory
  import opened Offering
  import opened System
  import opened Effects
  import opened Invariants
  import opened ShareBooks
  import opened Liveness
  import Permit
  import Usdc

  // ---------- order ----------

  predicate Owns(w: World, id: RwaId, shipper: Address) {
    id in w.rwas && w.rwas[id].shipper == shipper
  }

  /** The caller's own offering, what it sold in the factory's hands, and room on the caller's account. */
  predicate Collectable(cfg: Config, w: World, c: Call)
    requires c.Collect?
  {
    && c.shipper != cfg.factory && Owns(w, c.id, c.shipper)
    && w.rwas[c.id].sharesBought <= Get(w.usdc.balances, cfg.factory)
    && Fits(Get(w.usdc.balances, c.shipper) + w.rwas[c.id].sharesBought)
  }

  /** The caller's own offering, and a positive amount that is approved, held, and fits. */
  predicate Settleable(cfg: Config, w: World, s: Step)
    requires s.call.Settle?
  {
    var c := s.call;
    && c.shipper != cfg.factory && Owns(w, c.id, c.shipper) && 0 < c.amount
    && MayDraw(w.usdc, s.now, c.shipper, cfg.factory, c.amount) && c.amount <= Get(w.usdc.balances, c.shipper)
    && Fits(Get(w.usdc.balances, cfg.factory) + c.amount) && Fits(w.rwas[c.id].principalPool + c.amount)
  }

  /**
   * A collection, exactly: only ownership and USDC decide, not the status, the
   * shares still unsold, or an earlier collection.
   */
  lemma {:induction false} CollectAcceptedExactly(cfg: Config, w: World, steps: seq<Step>, s: Step)
    requires Genesis(cfg, w) && s.call.Collect?
    ensures Apply(cfg, Run(cfg, w, steps), s).Ok? <==> Collectable(cfg, Run(cfg, w, steps), s.call)
  {
    UsdcConservation(cfg, w, steps);
    Collects(cfg, Run(cfg, w, steps), s);
  }

  lemma {:induction false} Collects(cfg: Config, w: World, s: Step)
    requires s.call.Collect? && Offerings(w) && UsdcSound(cfg.factory, w.usdc)
    ensures Apply(cfg, w, s).Ok? <==> Collectable(cfg, w, s.call)
  {
    if s.call.id in w.rwas {
      SalesNonNegative(w, s.call.id);
    }
  }

  lemma {:induction false} SalesNonNegative(w: World, id: RwaId)
    requires Offerings(w) && id in w.rwas
    ensures 0 <= w.rwas[id].sharesBought
  {
    assert Consistent(w.rwas[id], BookOf(w.events, id));
  }

  /** A settlement, exactly: again no status is asked for, nor that anything was sold or collected. */
  lemma {:induction false} SettleAcceptedExactly(cfg: Config, w: World, steps: seq<Step>, s: Step)
    requires Genesis(cfg, w) && s.call.Settle?
    ensures Apply(cfg, Run(cfg, w, steps), s).Ok? <==> Settleable(cfg, Run(cfg, w, steps), s)
  {
    UsdcConservation(cfg, w, steps);
    Settles(cfg, Run(cfg, w, steps), s);
  }

  /** The pull a settlement makes, and the addition to the pool. */
  lemma {:induction false} Settles(cfg: Config, w: World, s: Step)
    requires s.call.Settle? && UsdcSound(cfg.factory, w.usdc)
    ensures Apply(cfg, w, s).Ok? <==> Settleable(cfg, w, s)
  {
  }

  // ---------- deadlines ----------

  /**
   * A claim whose permit has expired: the factory's own error is the outcome if and
   * only if the deadline ledger is past, and at the deadline ledger itself an
   * otherwise good claim fails with the token's error instead.
   */
  lemma {:induction false} LateClaims(cfg: Config, w: World, steps: seq<Step>, s: Step)
    requires Genesis(cfg, w) && s.call.ClaimShare? && s.call.investor != cfg.factory
        && s.call.id in Run(cfg, w, steps).rwas
    ensures var (v, c) := (Run(cfg, w, steps), s.call);
      Apply(cfg, v, s) == Err(InvalidDeadline) <==>
        0 < c.amount && v.rwas[c.id].status == Settled && c.deadline < s.now
    ensures var (v, c) := (Run(cfg, w, steps), s.call);
      Apply(cfg, v, s) == Err(PermitExpired) <==> ClaimGuards(v, s) && c.deadline == s.now
  {
    var v, c := Run(cfg, w, steps), s.call;
    UsdcConservation(cfg, w, steps);
    RunLinked(cfg, w, steps);
    if ClaimGuards(v, s) {
      ClaimReady(v, s);
    }
    PastDeadline(cfg, v, s);
    AtDeadline(cfg, v, s);
  }

  lemma {:induction false} PastDeadline(cfg: Config, w: World, s: Step)
    requires s.call.ClaimShare? && s.call.investor != cfg.factory && s.call.id in w.rwas
    ensures Apply(cfg, w, s) == Err(InvalidDeadline) <==>
      0 < s.call.amount && w.rwas[s.call.id].status == Settled && s.call.deadline < s.now
  {
  }

  lemma {:induction false} AtDeadline(cfg: Config, w: World, s: Step)
    requires s.call.ClaimShare? && s.call.investor != cfg.factory && s.call.id in w.rwas
        && w.rwas[s.call.id].token in w.tokens
    requires ClaimGuards(w, s) ==> Plain(s.call.amount * w.rwas[s.call.id].interestBps).Ok?
    ensures Apply(cfg, w, s) == Err(PermitExpired) <==> ClaimGuards(w, s) && s.call.deadline == s.now
  {
  }

  /** Everything a creation does before it mints goes through. */
  predicate ReachesMint(cfg: Config, w: World, s: Step)
    requires s.call.Create?
  {
    var (c, token) := (s.call, cfg.deploy(s.call.salt));
    var upfront := c.raiseAmount * c.interestBps / 10_000 + c.raiseAmount * cfg.protocolFeeBps / 10_000;
    && Fits(c.raiseAmount * c.interestBps) && Fits(c.raiseAmount * cfg.protocolFeeBps)
    && MayDraw(w.usdc, s.now, c.shipper, cfg.factory, upfront)
    && upfront <= Get(w.usdc.balances, c.shipper) && Fits(Get(w.usdc.balances, cfg.factory) + upfront)
    && token !in w.tokens && token !in {cfg.factory, cfg.usdc, cfg.identityVerifier, cfg.compliance}
    && w.compliance.operator == cfg.factory
  }

  /** The mint permit a creation presents is live and signed for its own token, and the factory is verified. */
  predicate Mintable(cfg: Config, w: World, s: Step)
    requires s.call.Create?
  {
    var (c, token) := (s.call, cfg.deploy(s.call.salt));
    && s.now < c.deadline && cfg.factory in w.users && w.users[cfg.factory].verified
    && cfg.verify(cfg.adminSigner,
                  Permit.Encode(Permit.Permit(token, 1, cfg.factory, c.raiseAmount, c.nonce, c.deadline)),
                  c.signature)
  }

  lemma {:induction false} PullGoesThrough(f: Address, u: Usdc.State, now: UInt32, from: Address, amount: Int128)
    requires UsdcSound(f, u) && from != f && 0 <= amount
    ensures Usdc.TransferFrom(u, now, f, from, f, amount).Ok? <==>
      MayDraw(u, now, from, f, amount) && amount <= Get(u.balances, from) && Fits(Get(u.balances, f) + amount)
  {
  }

  /** The fees are computed, pulled, and the address is free. */
  predicate Prepared(cfg: Config, w: World, s: Step)
    requires s.call.Create?
  {
    var (c, fees) := (s.call, UpfrontFees(cfg, s.call.raiseAmount, s.call.interestBps));
    && fees.Ok? && Usdc.TransferFrom(w.usdc, s.now, cfg.factory, c.shipper, cfg.factory, fees.value.2).Ok?
    && cfg.deploy(c.salt) !in w.tokens && !Taken(cfg, cfg.deploy(c.salt))
    && w.compliance.operator == cfg.factory
  }

  lemma {:induction false} PreparedExactly(cfg: Config, w: World, s: Step)
    requires s.call.Create? && 0 <= cfg.protocolFeeBps <= 10_000 && UsdcSound(cfg.factory, w.usdc)
    requires s.call.shipper != cfg.factory && Creatable(w, s)
    ensures ReachesMint(cfg, w, s) <==> Prepared(cfg, w, s)
  {
    var c := s.call;
    UpfrontTraps(cfg, c.raiseAmount, c.interestBps);
    if UpfrontFees(cfg, c.raiseAmount, c.interestBps).Ok? {
      var upfront := UpfrontFees(cfg, c.raiseAmount, c.interestBps).value.2;
      ShareMonotone(0, c.raiseAmount, c.interestBps);
      ShareMonotone(0, c.raiseAmount, cfg.protocolFeeBps);
      PullGoesThrough(cfg.factory, w.usdc, s.now, c.shipper, upfront);
    }
  }

  lemma {:induction false} CreationNeeds(cfg: Config, w: World, s: Step)
    requires s.call.Create?
    ensures Apply(cfg, w, s).Ok? <==>
      s.call.shipper != cfg.factory && Creatable(w, s) && Prepared(cfg, w, s) && Mintable(cfg, w, s)
  {
  }

  lemma {:induction false} LateCreation(cfg: Config, w: World, s: Step)
    requires s.call.Create? && s.call.shipper != cfg.factory && Creatable(w, s)
    ensures Apply(cfg, w, s) == Err(InvalidDeadline) <==> s.call.deadline < s.now
    ensures Apply(cfg, w, s) == Err(PermitExpired) <==> s.call.deadline == s.now && Prepared(cfg, w, s)
  {
  }

  /** A creation, exactly: after any run it is accepted if and only if all this holds. */
  lemma {:induction false} CreateAcceptedExactly(cfg: Config, w: World, steps: seq<Step>, s: Step)
    requires Genesis(cfg, w) && s.call.Create?
    ensures var v := Run(cfg, w, steps);
      Apply(cfg, v, s).Ok? <==>
        s.call.shipper != cfg.factory && Creatable(v, s) && ReachesMint(cfg, v, s) && Mintable(cfg, v, s)
  {
    UsdcConservation(cfg, w, steps);
    CreateAccepted(cfg, Run(cfg, w, steps), s);
  }

  lemma {:induction false} CreateAccepted(cfg: Config, w: World, s: Step)
    requires s.call.Create? && 0 <= cfg.protocolFeeBps <= 10_000 && UsdcSound(cfg.factory, w.usdc)
    ensures Apply(cfg, w, s).Ok? <==>
      s.call.shipper != cfg.factory && Creatable(w, s) && ReachesMint(cfg, w, s) && Mintable(cfg, w, s)
  {
    CreationNeeds(cfg, w, s);
    if s.call.shipper != cfg.factory && Creatable(w, s) {
      PreparedExactly(cfg, w, s);
    }
  }

  /** The same for a creation past its other guards. */
  lemma {:induction false} LateCreations(cfg: Config, w: World, s: Step)
    requires s.call.Create? && 0 <= cfg.protocolFeeBps <= 10_000 && UsdcSound(cfg.factory, w.usdc)
    requires s.call.shipper != cfg.factory && Creatable(w, s)
    ensures Apply(cfg, w, s) == Err(InvalidDeadline) <==> s.call.deadline < s.now
    ensures Apply(cfg, w, s) == Err(PermitExpired) <==> s.call.deadline == s.now && ReachesMint(cfg, w, s)
  {
    PreparedExactly(cfg, w, s);
    LateCreation(cfg, w, s);
  }
}
