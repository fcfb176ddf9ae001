/**
 * The state of the system, read off the accepted calls of a run: what each
 * offering, each holding, each USDC balance and each registry entry must be.
 */
module History {
  import opened Prelude
  import opened IdentityVerifier
  import opened Factory
  import opened System
  import opened Effects
  import opened Invariants
  import opened ShareBooks

  predicate Accepted(cfg: Config, w: World, steps: seq<Step>, k: nat)
    requires k < |steps|
  {
    Apply(cfg, Run(cfg, w, steps[..k]), steps[k]).Ok?
  }

  // ---------- holdings ----------

  /** What an accepted call adds to an account's holding in an offering. */
  function HoldingBy(c: Call, id: RwaId, a: Address): int {
    if c.Buy? && c.id == id && c.investor == a then c.amount
    else if c.ClaimShare? && c.id == id && c.investor == a then 0 - c.amount
    else 0
  }

  /** An account's own accepted purchases less its own accepted claims. */
  function HoldingOf(cfg: Config, w: World, steps: seq<Step>, id: RwaId, a: Address): int {
    if steps == [] then 0
    else
      var (front, last) := (steps[..|steps| - 1], steps[|steps| - 1]);
      HoldingOf(cfg, w, front, id, a)
        + if Apply(cfg, Run(cfg, w, front), last).Ok? then HoldingBy(last.call, id, a) else 0
  }

  /** Whose holding a call moves, and by how much, for every account. */
  lemma {:induction false} HoldingMoves(cfg: Config, w: World, s: Step, w': World, id: RwaId, a: Address)
    requires OfferingEffect(cfg, w, s, w') && id in w.rwas
    ensures id in w'.rwas && Get(w'.rwas[id].investors, a) == Get(w.rwas[id].investors, a) + HoldingBy(s.call, id, a)
  {
  }

  /** No call moves a holding in an offering that is not there yet, and a new offering has none. */
  lemma {:induction false} NoHoldingYet(cfg: Config, w: World, s: Step, w': World, id: RwaId, a: Address)
    requires OfferingEffect(cfg, w, s, w') && id !in w.rwas
    ensures HoldingBy(s.call, id, a) == 0
    ensures id in w'.rwas ==> Get(w'.rwas[id].investors, a) == 0
  {
  }

  /** Every holding, after any run, is what its own account bought less what it claimed. */
  lemma {:induction false} HoldingsFromHistory(cfg: Config, w: World, steps: seq<Step>, id: RwaId, a: Address)
    requires Genesis(cfg, w)
    ensures HoldingOf(cfg, w, steps, id, a) ==
      if id in Run(cfg, w, steps).rwas then Get(Run(cfg, w, steps).rwas[id].investors, a) else 0
  {
    if steps != [] {
      var front, last := steps[..|steps| - 1], steps[|steps| - 1];
      var v, v' := Run(cfg, w, front), Run(cfg, w, steps);
      HoldingsFromHistory(cfg, w, front, id, a);
      UsdcConservation(cfg, w, steps);
      if Apply(cfg, v, last).Ok? {
        if id in v.rwas {
          HoldingMoves(cfg, v, last, v', id, a);
        } else {
          NoHoldingYet(cfg, v, last, v', id, a);
        }
      }
    }
  }

  // ---------- offerings ----------

  /** Totals of the accepted calls on one offering. */
  datatype Totals = Totals(sold: int, claimed: int, interest: int, settled: int, withdrawn: bool)

  const NOTHING: Totals := Totals(0, 0, 0, 0, false)

  function Tallied(t: Totals, c: Call, id: RwaId, bps: int): Totals {
    match c
    case Buy(i, _, amount) => if i == id then t.(sold := t.sold + amount) else t
    case ClaimShare(i, _, amount, _, _, _) =>
      if i == id then t.(claimed := t.claimed + amount, interest := t.interest + amount * bps / 10_000) else t
    case Settle(i, _, amount) => if i == id then t.(settled := t.settled + amount) else t
    case Withdraw(i, _) => if i == id then t.(withdrawn := true) else t
    case _ => t
  }

  function TotalsOf(cfg: Config, w: World, steps: seq<Step>, id: RwaId, bps: int): Totals {
    if steps == [] then NOTHING
    else
      var (front, last) := (steps[..|steps| - 1], steps[|steps| - 1]);
      var t := TotalsOf(cfg, w, front, id, bps);
      if Apply(cfg, Run(cfg, w, front), last).Ok? then Tallied(t, last.call, id, bps) else t
  }

  /** Every field of an offering that ever changes, in terms of its totals. */
  ghost predicate Reflects(o: RWA, t: Totals) {
    && o.sharesBought == t.sold && 0 <= t.settled
    && o.principalPool == t.settled - t.claimed
    && o.interestPool == o.raiseAmount * o.interestBps / 10_000 - t.interest
    && o.protocolFeePool == (if t.withdrawn then 0 else o.raiseAmount * o.protocolFeeBps / 10_000)
    && o.status == (if 0 < t.settled then Settled else if t.sold == o.sharesTotal then Funded else Open)
    && o.sharesTotal == o.raiseAmount && o.sharesReserved == 0
  }

  lemma {:induction false} ReflectsStep(cfg: Config, w: World, s: Step, w': World, id: RwaId, t: Totals)
    requires OfferingEffect(cfg, w, s, w') && id in w.rwas && Reflects(w.rwas[id], t)
    ensures id in w'.rwas && Reflects(w'.rwas[id], Tallied(t, s.call, id, w.rwas[id].interestBps))
  {
  }

  lemma {:induction false} ReflectsCreation(cfg: Config, w: World, s: Step, w': World, id: RwaId, bps: int)
    requires OfferingEffect(cfg, w, s, w') && id !in w.rwas
    ensures Tallied(NOTHING, s.call, id, bps) == NOTHING
    ensures id in w'.rwas ==> Reflects(w'.rwas[id], NOTHING)
  {
  }

  /** Every offering, after any run, is what the accepted calls on it make it. */
  lemma {:induction false} OfferingsFromHistory(cfg: Config, w: World, steps: seq<Step>, id: RwaId, bps: int)
    requires Genesis(cfg, w)
    ensures var (v, t) := (Run(cfg, w, steps), TotalsOf(cfg, w, steps, id, bps));
      if id !in v.rwas then t == NOTHING else v.rwas[id].interestBps == bps ==> Reflects(v.rwas[id], t)
  {
    if steps != [] {
      var front, last := steps[..|steps| - 1], steps[|steps| - 1];
      var v, v' := Run(cfg, w, front), Run(cfg, w, steps);
      OfferingsFromHistory(cfg, w, front, id, bps);
      UsdcConservation(cfg, w, steps);
      if Apply(cfg, v, last).Ok? {
        StepEvolves(cfg, v, last, v');
        if id !in v.rwas {
          ReflectsCreation(cfg, v, last, v', id, bps);
        } else if v.rwas[id].interestBps == bps {
          ReflectsStep(cfg, v, last, v', id, TotalsOf(cfg, w, front, id, bps));
        }
      }
    }
  }

  /** The terms of an offering are those of the accepted call that created it. */
  ghost predicate Asked(cfg: Config, o: RWA, c: Call) {
    && c.Create? && o.id == c.id && o.shipper == c.shipper && o.token == cfg.deploy(c.salt)
    && o.raiseAmount == c.raiseAmount && o.interestBps == c.interestBps && o.dueLedger == c.dueLedger
    && o.protocolFeeBps == cfg.protocolFeeBps
  }

  lemma {:induction false} AskedOnce(cfg: Config, w: World, s: Step, w': World, id: RwaId)
    requires OfferingEffect(cfg, w, s, w') && id !in w.rwas && id in w'.rwas
    ensures Asked(cfg, w'.rwas[id], s.call)
  {
  }

  lemma {:induction false} AskedStill(cfg: Config, w: World, s: Step, w': World, id: RwaId, c: Call)
    requires OfferingEffect(cfg, w, s, w') && id in w.rwas && Asked(cfg, w.rwas[id], c)
    ensures id in w'.rwas && Asked(cfg, w'.rwas[id], c)
  {
    StepEvolves(cfg, w, s, w');
  }

  lemma {:induction false} TermsFromCreation(cfg: Config, w: World, steps: seq<Step>, id: RwaId)
    requires Genesis(cfg, w) && id in Run(cfg, w, steps).rwas
    ensures exists k: nat ::
      k < |steps| && Accepted(cfg, w, steps, k) && Asked(cfg, Run(cfg, w, steps).rwas[id], steps[k].call)
  {
    var n := |steps| - 1;
    var front, last := steps[..n], steps[n];
    var v, v' := Run(cfg, w, front), Run(cfg, w, steps);
    UsdcConservation(cfg, w, steps);
    if id in v.rwas {
      TermsFromCreation(cfg, w, front, id);
      var k: nat :| k < n && Accepted(cfg, w, front, k) && Asked(cfg, v.rwas[id], front[k].call);
      assert front[..k] == steps[..k];
      assert Accepted(cfg, w, steps, k);
      if Apply(cfg, v, last).Ok? {
        AskedStill(cfg, v, last, v', id, steps[k].call);
      }
    } else {
      AskedOnce(cfg, v, last, v', id);
      assert Accepted(cfg, w, steps, n);
    }
  }

  // ---------- USDC ----------

  /** What an accepted call adds to an account's USDC. */
  function UsdcBy(cfg: Config, w: World, s: Step, a: Address): int {
    if IsFactoryCall(s.call) then
      (if a == cfg.factory then UsdcDelta(cfg, w, s) else 0)
        - (if Signer(s.call) == Some(a) then UsdcDelta(cfg, w, s) else 0)
    else
      match s.call
      case UsdcTransfer(from, to, amount) => (if a == to then amount else 0) - (if a == from != to then amount else 0)
      case UsdcTransferFrom(_, from, to, amount) =>
        (if a == to then amount else 0) - (if a == from != to then amount else 0)
      case UsdcIssue(to, amount) => if a == to then amount else 0
      case _ => 0
  }

  function UsdcGained(cfg: Config, w: World, steps: seq<Step>, a: Address): int {
    if steps == [] then 0
    else
      var (front, last) := (steps[..|steps| - 1], steps[|steps| - 1]);
      var v := Run(cfg, w, front);
      UsdcGained(cfg, w, front, a) + if Apply(cfg, v, last).Ok? then UsdcBy(cfg, v, last, a) else 0
  }

  lemma {:induction false} UsdcMoves(cfg: Config, w: World, s: Step, w': World, a: Address)
    requires MoneyEffect(cfg, w, s, w') && Signer(s.call) != Some(cfg.factory)
    ensures Get(w'.usdc.balances, a) == Get(w.usdc.balances, a) + UsdcBy(cfg, w, s, a)
  {
  }

  /** Every account's USDC, after any run, is what it started with plus what the accepted calls gave and took. */
  lemma {:induction false} BalancesFromHistory(cfg: Config, w: World, steps: seq<Step>, a: Address)
    requires Genesis(cfg, w)
    ensures Get(Run(cfg, w, steps).usdc.balances, a) == Get(w.usdc.balances, a) + UsdcGained(cfg, w, steps, a)
  {
    if steps != [] {
      var front, last := steps[..|steps| - 1], steps[|steps| - 1];
      BalancesFromHistory(cfg, w, front, a);
      UsdcConservation(cfg, w, steps);
      if Apply(cfg, Run(cfg, w, front), last).Ok? {
        UsdcMoves(cfg, Run(cfg, w, front), last, Run(cfg, w, steps), a);
      }
    }
  }

  // ---------- the registry ----------

  /** The entry the last accepted `Identify` on a user made, or the one there at the start. */
  function LastEntry(cfg: Config, w: World, steps: seq<Step>, user: Address): Option<Identity> {
    if steps == [] then if user in w.users then Some(w.users[user]) else None
    else
      var (front, last) := (steps[..|steps| - 1], steps[|steps| - 1]);
      if last.call.Identify? && last.call.user == user && Apply(cfg, Run(cfg, w, front), last).Ok?
      then Some(Identity(user, last.call.verified, last.call.countryCode, last.call.role))
      else LastEntry(cfg, w, front, user)
  }

  /** Every registry entry, after any run, is the last one its admin made. */
  lemma {:induction false} RegistryFromHistory(cfg: Config, w: World, steps: seq<Step>, user: Address)
    requires Genesis(cfg, w)
    ensures var users := Run(cfg, w, steps).users;
      LastEntry(cfg, w, steps, user) == if user in users then Some(users[user]) else None
  {
    if steps != [] {
      RegistryFromHistory(cfg, w, steps[..|steps| - 1], user);
      UsdcConservation(cfg, w, steps);
    }
  }

  /** A user is verified, after any run, if and only if the last word of the registry's admin on it was so. */
  lemma {:induction false} VerifiedFromHistory(cfg: Config, w: World, steps: seq<Step>, user: Address)
    requires Genesis(cfg, w)
    ensures var (users, last) := (Run(cfg, w, steps).users, LastEntry(cfg, w, steps, user));
      && (Verified(users, user) <==> last.Some? && last.value.verified)
      && (VerifyIdentity(users, user) == Pass <==> Verified(users, user))
  {
    RegistryFromHistory(cfg, w, steps, user);
  }
}
