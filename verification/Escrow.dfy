/** What the escrow promises shippers, investors and the protocol, over every run. */
module Escrow {
  import opened Prelude
  import opened MapSums
  import opened Factory
  import opened Offering
  import opened System
  import opened Effects
  import opened Invariants
  import opened ShareBooks

  // ---------- solvency ----------

  ghost function PoolsOf(w: World): map<RwaId, int> {
    map id | id in w.rwas :: PoolTotal(w.rwas[id])
  }

  ghost function UncollectedOf(w: World): map<RwaId, int> {
    map id | id in w.rwas :: w.rwas[id].sharesBought - BookOf(w.events, id).collected
  }

  /** The factory's USDC covers the interest, fee and principal pools of all offerings together. */
  ghost predicate Solvent(cfg: Config, w: World) {
    Sum(PoolsOf(w)) <= Get(w.usdc.balances, cfg.factory)
  }

  /** Conservation, term by term. */
  lemma {:induction false} FactoryBalance(cfg: Config, w: World, steps: seq<Step>)
    requires Genesis(cfg, w)
    ensures var v := Run(cfg, w, steps);
      Get(v.usdc.balances, cfg.factory) ==
        Get(w.usdc.balances, cfg.factory) + Deposits(cfg, w, steps) - Drained(cfg, v.events)
        + Sum(PoolsOf(v)) + Sum(UncollectedOf(v))
  {
    UsdcConservation(cfg, w, steps);
    var v := Run(cfg, w, steps);
    SumSplit(HeldFor(v), PoolsOf(v), UncollectedOf(v));
  }

  /**
   * Solvency, exactly: the factory covers its pools if and only if emergencies
   * took no more than it was supplied with and has not yet paid out as raise.
   */
  lemma {:induction false} SolvencyExactly(cfg: Config, w: World, steps: seq<Step>)
    requires Genesis(cfg, w)
    ensures var v := Run(cfg, w, steps);
      Solvent(cfg, v) <==>
        Drained(cfg, v.events) <= Get(w.usdc.balances, cfg.factory) + Deposits(cfg, w, steps) + Sum(UncollectedOf(v))
  {
    FactoryBalance(cfg, w, steps);
  }

  lemma {:induction false} DepositsNonNegative(cfg: Config, w: World, steps: seq<Step>)
    requires Genesis(cfg, w)
    ensures 0 <= Deposits(cfg, w, steps)
  {
    if steps != [] {
      var front, last := steps[..|steps| - 1], steps[|steps| - 1];
      DepositsNonNegative(cfg, w, front);
      var v := Run(cfg, w, front);
      if Apply(cfg, v, last).Ok? {
        DepositNonNegative(cfg, v, last);
      }
    }
  }

  lemma DepositNonNegative(cfg: Config, w: World, s: Step)
    requires Apply(cfg, w, s).Ok?
    ensures 0 <= Deposit(cfg, s)
  {
  }

  lemma {:induction false} NothingOverCollected(w: World)
    requires Offerings(w)
    requires forall id | id in w.rwas :: BookOf(w.events, id).collects <= 1
    ensures NonNegative(UncollectedOf(w))
  {
    forall id | id in w.rwas ensures 0 <= UncollectedOf(w)[id] {
      assert Consistent(w.rwas[id], BookOf(w.events, id));
    }
  }

  /**
   * Without emergency withdrawals, and with at most one collection that paid
   * anything per offering, the factory is solvent after any run.
   */
  lemma {:induction false} CollectOnceIsSolvent(cfg: Config, w: World, steps: seq<Step>)
    requires Genesis(cfg, w)
    requires Drained(cfg, Run(cfg, w, steps).events) == 0
    requires forall id | id in Run(cfg, w, steps).rwas :: BookOf(Run(cfg, w, steps).events, id).collects <= 1
    ensures Solvent(cfg, Run(cfg, w, steps))
  {
    UsdcConservation(cfg, w, steps);
    NothingOverCollected(Run(cfg, w, steps));
    SumBounds(UncollectedOf(Run(cfg, w, steps)), "", "");
    DepositsNonNegative(cfg, w, steps);
    SolvencyExactly(cfg, w, steps);
  }

  /**
   * Nothing in `collect_fund` stops a second collection; whether one keeps the
   * factory solvent depends only on what it holds beyond its pools.
   */
  lemma {:induction false} CollectKeepsSolvency(cfg: Config, w: World, steps: seq<Step>, s: Step)
    requires Genesis(cfg, w) && s.call.Collect? && Apply(cfg, Run(cfg, w, steps), s).Ok?
    ensures var v := Run(cfg, w, steps);
      s.call.id in v.rwas &&
      (Solvent(cfg, Apply(cfg, v, s).value) <==>
        v.rwas[s.call.id].sharesBought <= Get(v.usdc.balances, cfg.factory) - Sum(PoolsOf(v)))
  {
    UsdcConservation(cfg, w, steps);
    var v := Run(cfg, w, steps);
    StepEffect(cfg, v, s);
    CollectMovesNoPool(cfg, v, s, Apply(cfg, v, s).value);
  }

  lemma {:induction false} CollectMovesNoPool(cfg: Config, w: World, s: Step, w': World)
    requires s.call.Collect? && Effect(cfg, w, s, w')
    ensures PoolsOf(w') == PoolsOf(w)
    ensures s.call.id in w.rwas
    ensures Get(w'.usdc.balances, cfg.factory) == Get(w.usdc.balances, cfg.factory) - w.rwas[s.call.id].sharesBought
  {
  }

  // ---------- interest ----------

  /**
   * After `n` claims for `S` in all, the interest left of an offering's pool lies
   * between the interest on the raise less that on `S`, and `n - 1` units more;
   * in particular the pool, reduced by plain subtraction, is never negative.
   */
  lemma {:induction false} InterestDust(cfg: Config, w: World, steps: seq<Step>, id: RwaId)
    requires Genesis(cfg, w) && id in Run(cfg, w, steps).rwas
    ensures var (o, b) := (Run(cfg, w, steps).rwas[id], BookOf(Run(cfg, w, steps).events, id));
      var least := Share(o.raiseAmount, o.interestBps) - Share(b.claimed, o.interestBps);
      0 <= least <= o.interestPool <= least + if b.claims == 0 then 0 else b.claims - 1
  {
    UsdcConservation(cfg, w, steps);
    DustLeft(Run(cfg, w, steps).rwas[id], BookOf(Run(cfg, w, steps).events, id));
  }

  lemma {:induction false} DustLeft(o: RWA, b: Book)
    requires Consistent(o, b)
    ensures var least := Share(o.raiseAmount, o.interestBps) - Share(b.claimed, o.interestBps);
      0 <= least <= o.interestPool <= least + if b.claims == 0 then 0 else b.claims - 1
  {
    DustBound(b.interest, b.claimed, o.interestBps, b.claims);
    var anyone: Address := [];
    SumBounds(o.investors, anyone, anyone);
    ShareMonotone(b.claimed, o.raiseAmount, o.interestBps);
  }

  function Total(amounts: seq<int>): int {
    if amounts == [] then 0 else Total(amounts[..|amounts| - 1]) + amounts[|amounts| - 1]
  }

  function PaidSeparately(amounts: seq<int>, bps: int): int {
    if amounts == [] then 0
    else PaidSeparately(amounts[..|amounts| - 1], bps) + Share(amounts[|amounts| - 1], bps)
  }

  lemma {:induction false} SeparateRounds(amounts: seq<int>, bps: int)
    ensures RoundedDown(PaidSeparately(amounts, bps), Total(amounts), bps, |amounts|)
  {
    if amounts != [] {
      var front := amounts[..|amounts| - 1];
      SeparateRounds(front, bps);
      ClaimRounds(PaidSeparately(front, bps), Total(front), bps, |front|, amounts[|front|]);
    }
  }

  /** Splitting a claim never pays more than claiming once, and loses at most one unit per extra part. */
  lemma {:induction false} SplittingAClaim(amounts: seq<int>, bps: int)
    requires amounts != []
    ensures PaidSeparately(amounts, bps) <= Share(Total(amounts), bps) <= PaidSeparately(amounts, bps) + |amounts| - 1
  {
    SeparateRounds(amounts, bps);
    DustBound(PaidSeparately(amounts, bps), Total(amounts), bps, |amounts|);
  }

  // ---------- principal ----------

  /** The offering is settled, and the shipper has repaid at least what was raised. */
  ghost predicate Repaid(w: World, id: RwaId) {
    && id in w.rwas && w.rwas[id].status == Settled
    && w.rwas[id].sharesBought <= BookOf(w.events, id).settled
  }

  lemma {:induction false} SettledGrows(cfg: Config, w: World, s: Step, w': World, id: RwaId)
    requires OfferingEffect(cfg, w, s, w')
    ensures BookOf(w.events, id).settled <= BookOf(w'.events, id).settled
  {
    if w'.events != w.events {
      assert |w'.events| == |w.events| + 1 && w'.events[..|w.events|] == w.events;
      assert w'.events == w.events + [w'.events[|w.events|]];
      BookPosted(w.events, w'.events[|w.events|], id);
    }
  }

  lemma {:induction false} RepaidForever(cfg: Config, w: World, steps: seq<Step>, k: nat, id: RwaId)
    requires Genesis(cfg, w) && k <= |steps| && Repaid(Run(cfg, w, steps[..k]), id)
    ensures Repaid(Run(cfg, w, steps), id)
  {
    if k == |steps| {
      assert steps[..k] == steps;
    } else {
      var front, last := steps[..|steps| - 1], steps[|steps| - 1];
      assert front[..k] == steps[..k];
      RepaidForever(cfg, w, front, k, id);
      UsdcConservation(cfg, w, steps);
      if Apply(cfg, Run(cfg, w, front), last).Ok? {
        StepEvolves(cfg, Run(cfg, w, front), last, Run(cfg, w, steps));
        SettledGrows(cfg, Run(cfg, w, front), last, Run(cfg, w, steps), id);
      }
    }
  }

  /** The principal pool covers all remaining holdings if and only if the raise has been repaid. */
  lemma {:induction false} RepaidExactly(cfg: Config, w: World, steps: seq<Step>, id: RwaId)
    requires Genesis(cfg, w) && id in Run(cfg, w, steps).rwas && Run(cfg, w, steps).rwas[id].status == Settled
    ensures var o := Run(cfg, w, steps).rwas[id];
      Sum(o.investors) <= o.principalPool <==> Repaid(Run(cfg, w, steps), id)
  {
    UsdcConservation(cfg, w, steps);
    var v := Run(cfg, w, steps);
    assert Consistent(v.rwas[id], BookOf(v.events, id));
  }

  /**
   * Claim-order independence: once an offering is repaid, then after any further
   * calls, claims in any order and split included, its principal pool covers
   * all remaining holdings, and no claim within a holding fails for the pool.
   */
  lemma {:induction false} ClaimOrderIndependence(cfg: Config, w: World, steps: seq<Step>, k: nat, s: Step)
    requires Genesis(cfg, w) && k <= |steps|
    requires s.call.ClaimShare? && Repaid(Run(cfg, w, steps[..k]), s.call.id)
    ensures var (c, v) := (s.call, Run(cfg, w, steps));
      && c.id in v.rwas && v.rwas[c.id].status == Settled
      && Sum(v.rwas[c.id].investors) <= v.rwas[c.id].principalPool
      && (c.amount <= Get(v.rwas[c.id].investors, c.investor) ==> c.amount <= v.rwas[c.id].principalPool)
      && (c.amount <= Get(v.rwas[c.id].investors, c.investor) ==>
            Apply(cfg, v, s) != Err(InsufficientPool) && Apply(cfg, v, s) != Err(RwaNotSettled))
  {
    RepaidForever(cfg, w, steps, k, s.call.id);
    UsdcConservation(cfg, w, steps);
    var v := Run(cfg, w, steps);
    var o := v.rwas[s.call.id];
    assert Consistent(o, BookOf(v.events, s.call.id));
    SumBounds(o.investors, s.call.investor, s.call.investor);
    if s.call.amount <= Get(o.investors, s.call.investor) {
      NoPoolFailure(cfg, v, s);
    }
  }

  lemma {:induction false} NoPoolFailure(cfg: Config, w: World, s: Step)
    requires s.call.ClaimShare? && s.call.id in w.rwas && w.rwas[s.call.id].status == Settled
    requires s.call.amount <= Get(w.rwas[s.call.id].investors, s.call.investor)
    requires s.call.amount <= w.rwas[s.call.id].principalPool
    ensures Apply(cfg, w, s) != Err(InsufficientPool) && Apply(cfg, w, s) != Err(RwaNotSettled)
  {
  }
}
