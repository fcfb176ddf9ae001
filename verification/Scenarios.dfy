/** Concrete runs of the system, one for each way in which the code departs from its texts. */
module Scenarios {
  import opened Prelude
  import opened MapSums
  import opened IdentityVerifier
  import opened Factory
  import opened System
  import opened Escrow
  import opened Liveness
  import opened Lifecycle
  import Compliance
  import Sep57
  import Usdc

  const FACTORY: Address := [1]
  const TOKEN: Address := [2]
  const SHIPPER: Address := [3]
  const INVESTOR: Address := [4]

  function Deployment(): Config {
    Config(FACTORY, [5], [6], [7], [8], [8], [], 0, (_, _, _) => true, _ => TOKEN, (_, _, _) => true)
  }

  function Start(): World {
    World(Usdc.State(map[SHIPPER := 14, INVESTOR := 5],
                     map[(SHIPPER, FACTORY) := Usdc.Allowance(14, 0), (INVESTOR, FACTORY) := Usdc.Allowance(5, 0)]),
          map[SHIPPER := Identity(SHIPPER, true, "SGP", KYB), INVESTOR := Identity(INVESTOR, true, "SGP", KYC),
              FACTORY := Identity(FACTORY, true, "SGP", KYC)],
          Compliance.State(FACTORY, map[], map[]), map[], map[], map[], [])
  }

  const CREATE := Step(1, Create(SHIPPER, "A", 100, 950, 9, [], 0, 9, []))
  const LATE_CREATE := Step(1, Create(SHIPPER, "A", 100, 950, 9, [], 0, 1, []))
  const BUY := Step(1, Buy("A", INVESTOR, 5))
  const COLLECT := Step(1, Collect("A", SHIPPER))
  const SETTLE := Step(1, Settle("A", SHIPPER, 5))
  const CLAIM := Step(1, ClaimShare("A", INVESTOR, 5, 1, 9, []))

  /** The offering as it is created: 100 to raise, 9 of interest paid up front. */
  function Offered(): RWA {
    NewOffering(Deployment(), "A", TOKEN, SHIPPER, 100, 950, 9, 9, 0)
  }

  predicate Known(users: Users) {
    HasRole(users, SHIPPER, KYB) && HasRole(users, INVESTOR, KYC) && Verified(users, FACTORY)
  }

  ghost predicate Approved(w: World, party: Address, amount: int) {
    Usdc.AllowanceOf(w.usdc, party, FACTORY) == Usdc.Allowance(5, 0) && Get(w.usdc.balances, party) == amount
  }

  ghost predicate Created(w: World) {
    && Known(w.users)
    && w.compliance == Compliance.State(FACTORY, map[TOKEN := true], map[TOKEN := INT128_MAX])
    && Get(w.usdc.balances, FACTORY) == 9 && Approved(w, SHIPPER, 5) && Approved(w, INVESTOR, 5)
    && w.rwas == map["A" := Offered()] && TOKEN in w.tokens
    && w.tokens[TOKEN].balances == map[FACTORY := 100] && w.tokens[TOKEN].totalSupply == 100
    && w.tokens[TOKEN].usedNonces == {0}
  }

  ghost predicate Sold(w: World) {
    && Get(w.usdc.balances, FACTORY) == 14 && Approved(w, SHIPPER, 5) && Get(w.usdc.balances, INVESTOR) == 0
    && w.rwas == map["A" := Offered().(sharesBought := 5, investors := map[INVESTOR := 5])] && TOKEN in w.tokens
    && Get(w.tokens[TOKEN].balances, INVESTOR) == 5 && w.tokens[TOKEN].totalSupply == 100
    && w.tokens[TOKEN].usedNonces == {0}
  }

  lemma RunSnoc(cfg: Config, w: World, steps: seq<Step>, s: Step)
    ensures Run(cfg, w, steps + [s]) == After(cfg, Run(cfg, w, steps), s)
  {
    assert (steps + [s])[..|steps|] == steps;
  }

  // ---------- the calls, one by one ----------

  lemma PullsFees(u: Usdc.State)
    requires u == Start().usdc
    ensures var r := Usdc.TransferFrom(u, 1, FACTORY, SHIPPER, FACTORY, 9);
      && r.Ok? && r.value.balances == map[SHIPPER := 5, INVESTOR := 5, FACTORY := 9]
      && Usdc.AllowanceOf(r.value, INVESTOR, FACTORY) == Usdc.Allowance(5, 0)
      && Usdc.AllowanceOf(r.value, SHIPPER, FACTORY) == Usdc.Allowance(5, 0)
  {
  }

  lemma Deploys(cfg: Config, w: World)
    requires cfg == Deployment() && Verified(w.users, FACTORY)
        && w.compliance == Compliance.State(FACTORY, map[], map[])
    ensures var r := DeployedToken(cfg, w.users, w.compliance, 1, TOKEN, 100, 0, 9, []);
      && r.Ok? && r.value.0 == Compliance.State(FACTORY, map[TOKEN := true], map[TOKEN := INT128_MAX])
      && r.value.1.balances == map[FACTORY := 100] && r.value.1.totalSupply == 100 && r.value.1.usedNonces == {0}
  {
  }

  /** The fees are in, and the token is out. */
  ghost predicate IssuedOk(r: Result<(Usdc.State, Compliance.State, Sep57.State)>) {
    && r.Ok? && r.value.1 == Compliance.State(FACTORY, map[TOKEN := true], map[TOKEN := INT128_MAX])
    && r.value.0.balances == map[SHIPPER := 5, INVESTOR := 5, FACTORY := 9]
    && Usdc.AllowanceOf(r.value.0, INVESTOR, FACTORY) == Usdc.Allowance(5, 0)
    && Usdc.AllowanceOf(r.value.0, SHIPPER, FACTORY) == Usdc.Allowance(5, 0)
    && r.value.2.balances == map[FACTORY := 100] && r.value.2.totalSupply == 100 && r.value.2.usedNonces == {0}
  }

  lemma Issues(cfg: Config, w: World)
    requires cfg == Deployment() && w == Start()
    ensures Known(w.users) && IssuedOk(Issued(cfg, w, 1, SHIPPER, 9, TOKEN, 100, 0, 9, []))
  {
    PullsFees(w.usdc);
    Deploys(cfg, w);
  }

  lemma Registers(cfg: Config, w: World)
    requires cfg == Deployment() && Known(w.users) && w.rwas == map[]
    requires IssuedOk(Issued(cfg, w, 1, SHIPPER, 9, TOKEN, 100, 0, 9, []))
    ensures Created(After(cfg, w, CREATE))
  {
    assert UpfrontFees(cfg, 100, 950) == Ok((9, 0, 9));
  }

  lemma Creates(cfg: Config, w: World)
    requires cfg == Deployment() && w == Start()
    ensures Created(After(cfg, w, CREATE))
  {
    Issues(cfg, w);
    Registers(cfg, w);
  }

  lemma Delivers(cfg: Config, w: World)
    requires cfg == Deployment() && Created(w)
    ensures var r := TokenTransfer(cfg, w.tokens, TokenEnv(w, 1), TOKEN, FACTORY, INVESTOR, 5);
      && r.Ok? && TOKEN in r.value && Get(r.value[TOKEN].balances, INVESTOR) == 5
      && r.value[TOKEN].totalSupply == 100 && r.value[TOKEN].usedNonces == {0}
  {
  }

  lemma Buys(cfg: Config, w: World)
    requires cfg == Deployment() && Created(w)
    ensures Sold(After(cfg, w, BUY))
  {
    Delivers(cfg, w);
    assert Bought(Offered(), INVESTOR, 5) == Ok(Offered().(sharesBought := 5, investors := map[INVESTOR := 5]));
  }

  lemma Collects(cfg: Config, w: World)
    requires cfg == Deployment() && w.rwas.Keys == {"A"} && w.rwas["A"].shipper == SHIPPER
        && w.rwas["A"].sharesBought == 5
    requires 5 <= Get(w.usdc.balances, FACTORY) <= 100 && 0 <= Get(w.usdc.balances, SHIPPER) <= 100
    ensures var r := Apply(cfg, w, COLLECT);
      && r.Ok? && r.value.rwas == w.rwas
      && Get(r.value.usdc.balances, FACTORY) == Get(w.usdc.balances, FACTORY) - 5
      && Get(r.value.usdc.balances, SHIPPER) == Get(w.usdc.balances, SHIPPER) + 5
  {
  }

  lemma Settles(cfg: Config, w: World)
    requires cfg == Deployment() && "A" in w.rwas && w.rwas["A"].id == "A" && w.rwas["A"].shipper == SHIPPER
    requires w.rwas["A"].principalPool == 0 && Approved(w, SHIPPER, 5) && 0 <= Get(w.usdc.balances, FACTORY) <= 100
    ensures var w' := After(cfg, w, SETTLE);
      && w'.rwas == w.rwas["A" := w.rwas["A"].(principalPool := 5, status := Settled)] && w'.tokens == w.tokens
      && Get(w'.usdc.balances, FACTORY) == Get(w.usdc.balances, FACTORY) + 5
      && Get(w'.usdc.balances, INVESTOR) == Get(w.usdc.balances, INVESTOR)
  {
  }

  // ---------- collecting twice ----------

  lemma CollectsTwice(cfg: Config, w: World)
    requires cfg == Deployment() && Sold(w)
    ensures !Solvent(cfg, After(cfg, After(cfg, w, COLLECT), COLLECT))
  {
    Collects(cfg, w);
    var once := After(cfg, w, COLLECT);
    Collects(cfg, once);
    var twice := After(cfg, once, COLLECT);
    SumRemove(PoolsOf(twice), "A");
    assert PoolsOf(twice) - {"A"} == map[];
  }

  lemma RunCreated(cfg: Config, w: World)
    requires cfg == Deployment() && w == Start()
    ensures Created(Run(cfg, w, [CREATE]))
  {
    Creates(cfg, w);
    assert Run(cfg, w, []) == w && [] + [CREATE] == [CREATE];
    RunSnoc(cfg, w, [], CREATE);
  }

  lemma RunSold(cfg: Config, w: World)
    requires cfg == Deployment() && w == Start()
    ensures Sold(Run(cfg, w, [CREATE] + [BUY]))
  {
    RunCreated(cfg, w);
    Buys(cfg, Run(cfg, w, [CREATE]));
    RunSnoc(cfg, w, [CREATE], BUY);
  }

  /** Raise 100 with 9 of interest, sell 5, collect 5 twice: 4 USDC remain for a pool of 9. */
  lemma CollectingTwiceBreaksSolvency(cfg: Config, w: World)
    requires cfg == Deployment() && w == Start()
    ensures Genesis(cfg, w) && !Solvent(cfg, Run(cfg, w, [CREATE] + [BUY] + [COLLECT] + [COLLECT]))
  {
    RunSold(cfg, w);
    CollectsTwice(cfg, Run(cfg, w, [CREATE] + [BUY]));
    RunSnoc(cfg, w, [CREATE] + [BUY], COLLECT);
    RunSnoc(cfg, w, [CREATE] + [BUY] + [COLLECT], COLLECT);
  }

  // ---------- settling early, and claims ----------

  /** A settlement goes through before anything is sold, and closes the offering to buyers. */
  lemma SettledBeforeAnySale(cfg: Config, w: World)
    requires cfg == Deployment() && w == Start()
    ensures var v := Run(cfg, w, [CREATE] + [SETTLE]);
      "A" in v.rwas && v.rwas["A"].status == Settled && v.rwas["A"].sharesBought == 0
  {
    RunCreated(cfg, w);
    Settles(cfg, Run(cfg, w, [CREATE]));
    RunSnoc(cfg, w, [CREATE], SETTLE);
  }

  lemma RunSettled(cfg: Config, w: World)
    requires cfg == Deployment() && w == Start()
    ensures var v := Run(cfg, w, [CREATE] + [BUY] + [SETTLE]);
      && v.rwas == map["A" := Offered().(sharesBought := 5, investors := map[INVESTOR := 5], principalPool := 5,
          status := Settled)]
      && TOKEN in v.tokens && Get(v.tokens[TOKEN].balances, INVESTOR) == 5 && v.tokens[TOKEN].totalSupply == 100
      && v.tokens[TOKEN].usedNonces == {0}
      && Get(v.usdc.balances, FACTORY) == 19 && Get(v.usdc.balances, INVESTOR) == 0
  {
    RunSold(cfg, w);
    Settles(cfg, Run(cfg, w, [CREATE] + [BUY]));
    RunSnoc(cfg, w, [CREATE] + [BUY], SETTLE);
  }

  /** After five shares are sold and repaid, the claim on them is admissible, and the factory solvent. */
  lemma ClaimIsAdmissible(cfg: Config, w: World)
    requires cfg == Deployment() && w == Start()
    ensures var v := Run(cfg, w, [CREATE] + [BUY] + [SETTLE]);
      ClaimAdmissible(cfg, v, CLAIM) && Solvent(cfg, v)
  {
    RunSettled(cfg, w);
    var v := Run(cfg, w, [CREATE] + [BUY] + [SETTLE]);
    SumRemove(PoolsOf(v), "A");
    assert PoolsOf(v) - {"A"} == map[];
  }

  /** The same claim at its deadline ledger fails in the token, not in the factory. */
  lemma ClaimAtItsDeadline(cfg: Config, w: World)
    requires cfg == Deployment() && w == Start()
    ensures Apply(cfg, Run(cfg, w, [CREATE] + [BUY] + [SETTLE]), CLAIM.(now := 9)) == Err(PermitExpired)
  {
    RunSettled(cfg, w);
    LateClaims(cfg, w, [CREATE] + [BUY] + [SETTLE], CLAIM.(now := 9));
  }

  /** So does a creation at its permit's deadline ledger, with everything else in order. */
  lemma CreationAtItsDeadline(cfg: Config, w: World)
    requires cfg == Deployment() && w == Start()
    ensures Apply(cfg, w, LATE_CREATE) == Err(PermitExpired)
  {
    assert UpfrontFees(cfg, 100, 950) == Ok((9, 0, 9));
    LateCreations(cfg, w, LATE_CREATE);
  }
}
