/** What the factory may draw from the accounts that approved it. */
module Approvals {
  import opened Prelude
  import opened Factory
  import opened Offering
  import opened System
  import opened Effects
  import opened Invariants
  import Usdc

  // ---------- the approval prepared before a creation ----------

  /** Bigint division by 10,000, which truncates toward zero. */
  function Quotient(n: int): int {
    if 0 <= n then n / 10_000 else 0 - (0 - n) / 10_000
  }

  /** The quotient is exact up to a remainder of the dividend's sign. */
  lemma {:induction false} QuotientTruncates(n: int)
    ensures var r := n - 10_000 * Quotient(n); if 0 <= n then 0 <= r < 10_000 else -10_000 < r <= 0
  {
  }

  /** The allowance the backend prepares: one product and one rounding, no width. */
  function PreparedApproval(raise: int, interestBps: int, protocolBps: int): int {
    Quotient(raise * (interestBps + protocolBps))
  }

  /** What a creation pulls: two products and two roundings. */
  function Upfront(raise: int, interestBps: int, protocolBps: int): int {
    Share(raise, interestBps) + Share(raise, protocolBps)
  }

  /** The prepared approval is enough for what a creation pulls, whatever the raise and the rates. */
  lemma {:induction false} ApprovalCoversUpfront(raise: int, interestBps: int, protocolBps: int)
    ensures Upfront(raise, interestBps, protocolBps) <= PreparedApproval(raise, interestBps, protocolBps)
  {
    assert raise * (interestBps + protocolBps) == raise * interestBps + raise * protocolBps;
  }

  /**
   * It mirrors the contract, exactly: it is what a creation pulls if and only if
   * the remainders of the two fees stay below one unit together; otherwise it is
   * one unit more.
   */
  lemma {:induction false} ApprovalMirrorsExactly(raise: int, interestBps: int, protocolBps: int)
    requires 0 <= raise && 0 <= interestBps && 0 <= protocolBps
    ensures var prepared, pulled := PreparedApproval(raise, interestBps, protocolBps),
                                    Upfront(raise, interestBps, protocolBps);
      && (prepared == pulled <==> raise * interestBps % 10_000 + raise * protocolBps % 10_000 < 10_000)
      && (prepared == pulled || prepared == pulled + 1)
  {
    assert raise * (interestBps + protocolBps) == raise * interestBps + raise * protocolBps;
    assert 0 <= raise * interestBps && 0 <= raise * protocolBps;
  }

  /** Raise 10 at 950 and 50 basis points: one unit is approved, nothing is pulled. */
  lemma ApprovalExceedsUpfront()
    ensures PreparedApproval(10, 950, 50) == 1 && Upfront(10, 950, 50) == 0
  {
  }

  predicate ForAllowance(e: Error) {
    e == AllowanceExceeded || e == AllowanceExpired
  }

  /** Only the pull of the upfront fees can fail for its allowance. */
  lemma {:induction false} PullIsApproved(cfg: Config, w: World, now: UInt32, shipper: Address, upfront: Int128,
      token: Address, raise: Int128, nonce: UInt64, deadline: UInt32, signature: Signature)
    requires MayDraw(w.usdc, now, shipper, cfg.factory, upfront)
    ensures var r := Issued(cfg, w, now, shipper, upfront, token, raise, nonce, deadline, signature);
      r.Err? ==> !ForAllowance(r.error)
  {
  }

  /** A creation cannot fail for its allowance while the prepared approval is live and unspent. */
  lemma {:induction false} CreationIsApproved(cfg: Config, w: World, s: Step)
    requires s.call.Create?
    requires MayDraw(w.usdc, s.now, s.call.shipper, cfg.factory,
                     PreparedApproval(s.call.raiseAmount, s.call.interestBps, cfg.protocolFeeBps))
    ensures Apply(cfg, w, s).Err? ==> !ForAllowance(Apply(cfg, w, s).error)
  {
    var c := s.call;
    ApprovalCoversUpfront(c.raiseAmount, c.interestBps, cfg.protocolFeeBps);
    if UpfrontFees(cfg, c.raiseAmount, c.interestBps).Ok? && 0 < c.raiseAmount && 0 < c.interestBps {
      var upfront := UpfrontFees(cfg, c.raiseAmount, c.interestBps).value.2;
      PullIsApproved(cfg, w, s.now, c.shipper, upfront, cfg.deploy(c.salt), c.raiseAmount, c.nonce, c.deadline,
          c.signature);
    }
  }

  // ---------- approvals over whole runs ----------

  function NonNeg(x: int): nat {
    if x < 0 then 0 else x
  }

  /** USDC the factory drew from an account by one call. */
  function Draw(cfg: Config, w: World, s: Step, a: Address): int {
    if Pulls(s.call) && Signer(s.call) == Some(a) then UsdcDelta(cfg, w, s) else 0
  }

  /** USDC an account newly approved to the factory by one call. */
  function Approval(cfg: Config, s: Step, a: Address): int {
    if s.call.UsdcApprove? && s.call.from == a && s.call.spender == cfg.factory then NonNeg(s.call.amount) else 0
  }

  function Draws(cfg: Config, w: World, steps: seq<Step>, a: Address): int {
    if steps == [] then 0
    else
      var (front, last) := (steps[..|steps| - 1], steps[|steps| - 1]);
      var v := Run(cfg, w, front);
      Draws(cfg, w, front, a) + if Apply(cfg, v, last).Ok? then Draw(cfg, v, last, a) else 0
  }

  function ApprovalsBy(cfg: Config, w: World, steps: seq<Step>, a: Address): int {
    if steps == [] then 0
    else
      var (front, last) := (steps[..|steps| - 1], steps[|steps| - 1]);
      ApprovalsBy(cfg, w, front, a) + if Apply(cfg, Run(cfg, w, front), last).Ok? then Approval(cfg, last, a) else 0
  }

  function Allowed(cfg: Config, w: World, a: Address): nat {
    NonNeg(Granted(w.usdc, a, cfg.factory))
  }

  lemma {:induction false} UsdcAllowance(cfg: Config, u: Usdc.State, s: Step, a: Address)
    requires IsUsdcCall(s.call) && Signer(s.call) != Some(cfg.factory) && UsdcCall(u, s.now, s.call).Ok?
    ensures NonNeg(Granted(UsdcCall(u, s.now, s.call).value, a, cfg.factory))
         <= NonNeg(Granted(u, a, cfg.factory)) + Approval(cfg, s, a)
  {
  }

  lemma {:induction false} OutsideAllowance(cfg: Config, w: World, s: Step, a: Address)
    requires !IsFactoryCall(s.call) && Apply(cfg, w, s).Ok?
    ensures Allowed(cfg, Apply(cfg, w, s).value, a) <= Allowed(cfg, w, a) + Approval(cfg, s, a)
  {
    if IsUsdcCall(s.call) {
      UsdcAllowance(cfg, w.usdc, s, a);
    }
  }

  lemma {:induction false} FactoryAllowance(cfg: Config, w: World, s: Step, w': World, a: Address)
    requires IsFactoryCall(s.call) && MoneyEffect(cfg, w, s, w')
    ensures Allowed(cfg, w', a) + Draw(cfg, w, s, a) == Allowed(cfg, w, a)
  {
  }

  /**
   * The factory never draws more USDC from an account, over a whole run, than
   * the account approved to it, what is still approved included.
   */
  lemma {:induction false} DrawsWithinApprovals(cfg: Config, w: World, steps: seq<Step>, a: Address)
    requires Genesis(cfg, w)
    ensures Draws(cfg, w, steps, a) + Allowed(cfg, Run(cfg, w, steps), a)
         <= Allowed(cfg, w, a) + ApprovalsBy(cfg, w, steps, a)
  {
    if steps != [] {
      var front, last := steps[..|steps| - 1], steps[|steps| - 1];
      var v := Run(cfg, w, front);
      DrawsWithinApprovals(cfg, w, front, a);
      UsdcConservation(cfg, w, steps);
      if Apply(cfg, v, last).Ok? {
        if IsFactoryCall(last.call) {
          FactoryAllowance(cfg, v, last, Run(cfg, w, steps), a);
        } else {
          OutsideAllowance(cfg, v, last, a);
        }
      }
    }
  }
}
