/** The share tokens against the factory's book, over every run of the system. */
module ShareBooks {
  import opened Prelude
  import opened MapSums
  import opened Factory
  import opened Offering
  import opened System
  import opened Effects
  import opened Invariants
  import Sep57Runs

  // ---------- offerings over time ----------

  function Rank(s: Status): nat {
    match s case Open => 1 case Funded => 2 case Settled => 3
  }

  /** An offering keeps its terms; its status and sales only move forward, and sales stop once it is settled. */
  predicate Follows(o: RWA, o': RWA) {
    && o'.id == o.id && o'.token == o.token && o'.shipper == o.shipper
    && o'.raiseAmount == o.raiseAmount && o'.interestBps == o.interestBps && o'.protocolFeeBps == o.protocolFeeBps
    && o'.sharesTotal == o.sharesTotal && o'.dueLedger == o.dueLedger
    && Rank(o.status) <= Rank(o'.status)
    && o.sharesBought <= o'.sharesBought
    && (o.status == Settled ==> o'.sharesBought == o.sharesBought)
  }

  ghost predicate Evolves(w: World, w': World) {
    forall id | id in w.rwas :: id in w'.rwas && Follows(w.rwas[id], w'.rwas[id])
  }

  lemma {:induction false} StepEvolves(cfg: Config, w: World, s: Step, w': World)
    requires OfferingEffect(cfg, w, s, w')
    ensures Evolves(w, w')
    ensures w'.rwas.Keys == w.rwas.Keys + if s.call.Create? then {s.call.id} else {}
  {
  }

  /** Nothing an offering promised is ever undone, between any two points of a run. */
  lemma {:induction false} OfferingsEvolve(cfg: Config, w: World, steps: seq<Step>, k: nat)
    requires Genesis(cfg, w) && k <= |steps|
    ensures Evolves(Run(cfg, w, steps[..k]), Run(cfg, w, steps))
  {
    if k == |steps| {
      assert steps[..k] == steps;
    } else {
      var front, last := steps[..|steps| - 1], steps[|steps| - 1];
      assert front[..k] == steps[..k];
      OfferingsEvolve(cfg, w, front, k);
      UsdcConservation(cfg, w, steps);
      if Apply(cfg, Run(cfg, w, front), last).Ok? {
        StepEvolves(cfg, Run(cfg, w, front), last, Run(cfg, w, steps));
      }
    }
  }

  // ---------- the token-side invariant ----------

  /** Share tokens are runs of the token contract, and each offering has one of its own. */
  ghost predicate TokensSound(cfg: Config, w: World) {
    && (forall a | a in w.tokens :: Sep57Runs.Reachable(TokenConfig(cfg, a), w.tokens[a]))
    && (forall a | a in w.tokens :: a !in {cfg.factory, cfg.usdc, cfg.identityVerifier, cfg.compliance})
    && (forall id | id in w.rwas ::
          && w.rwas[id].token in w.tokens && w.rwas[id].token in w.idByToken
          && w.idByToken[w.rwas[id].token] == id)
  }

  /** The factory runs compliance, and every offering's token is bound and uncapped. */
  ghost predicate Uncapped(cfg: Config, w: World) {
    forall id | id in w.rwas ::
      && w.compliance.operator == cfg.factory
      && w.rwas[id].token in w.compliance.bound && w.compliance.bound[w.rwas[id].token]
      && Get(w.compliance.maxBalance, w.rwas[id].token) == INT128_MAX
  }

  ghost predicate Linked(cfg: Config, w: World) {
    TokensSound(cfg, w) && Uncapped(cfg, w)
  }

  lemma {:induction false} TokensReached(cfg: Config, w: World, s: Step, w': World)
    requires TokensSound(cfg, w) && TokenEffect(cfg, w, s, w')
    ensures forall a | a in w'.tokens :: Sep57Runs.Reachable(TokenConfig(cfg, a), w'.tokens[a])
    ensures forall a | a in w'.tokens :: a !in {cfg.factory, cfg.usdc, cfg.identityVerifier, cfg.compliance}
    ensures w.tokens.Keys <= w'.tokens.Keys
  {
    if !s.call.Create? && ShareCallOf(cfg, w, s.call).Some? {
      var a := ShareCallOf(cfg, w, s.call).value.0;
      assert a in w.tokens;
    }
  }

  /** Either there is nothing but the new offering to look at, or an old one that kept its token. */
  lemma {:induction false} OneOf(cfg: Config, w: World, s: Step, w': World, id: RwaId)
    requires Effect(cfg, w, s, w') && id in w'.rwas
    ensures (id in w.rwas && w'.rwas[id].token == w.rwas[id].token)
         || (s.call.Create? && id == s.call.id && w'.rwas[id].token == cfg.deploy(s.call.salt))
  {
    StepEvolves(cfg, w, s, w');
  }

  lemma {:induction false} StepLinked(cfg: Config, w: World, s: Step, w': World)
    requires Linked(cfg, w) && Effect(cfg, w, s, w')
    ensures Linked(cfg, w')
  {
    TokensReached(cfg, w, s, w');
    forall id | id in w'.rwas
      ensures w'.rwas[id].token in w'.tokens && w'.rwas[id].token in w'.idByToken
          && w'.idByToken[w'.rwas[id].token] == id
      ensures w'.compliance.operator == cfg.factory
      ensures w'.rwas[id].token in w'.compliance.bound && w'.compliance.bound[w'.rwas[id].token]
      ensures Get(w'.compliance.maxBalance, w'.rwas[id].token) == INT128_MAX
    {
      OneOf(cfg, w, s, w', id);
    }
  }

  lemma {:induction false} RunLinked(cfg: Config, w: World, steps: seq<Step>)
    requires Genesis(cfg, w)
    ensures Linked(cfg, Run(cfg, w, steps))
  {
    if steps != [] {
      var front, last := steps[..|steps| - 1], steps[|steps| - 1];
      RunLinked(cfg, w, front);
      UsdcConservation(cfg, w, steps);
      if Apply(cfg, Run(cfg, w, front), last).Ok? {
        StepLinked(cfg, Run(cfg, w, front), last, Run(cfg, w, steps));
      }
    }
  }

  // ---------- agreement ----------

  /** How far calls that bypass the book have moved a token's supply, and the factory's stock of it. */
  datatype Gap = Gap(supply: int, stock: int)

  function Widen(g: Gap, d: Gap): Gap {
    Gap(g.supply + d.supply, g.stock + d.stock)
  }

  function GapOf(cfg: Config, w: World, c: Call, token: Address): Gap {
    match c
    case ShareMint(a, to, amount, _, _, _) =>
      if a == token then Gap(amount, if to == cfg.factory then amount else 0) else Gap(0, 0)
    case ShareBurn(a, from, amount, _, _, _) =>
      if a == token then Gap(0 - amount, if from == cfg.factory then 0 - amount else 0) else Gap(0, 0)
    case ShareTransfer(a, _, to, amount) =>
      Gap(0, if a == token && to == cfg.factory then amount else 0)
    case Emergency(a, amount, _) =>
      Gap(0, if a == token && a != cfg.usdc && a in w.tokens then 0 - amount else 0)
    case _ => Gap(0, 0)
  }

  function GapSum(cfg: Config, w: World, steps: seq<Step>, token: Address): Gap {
    if steps == [] then Gap(0, 0)
    else
      var (front, last) := (steps[..|steps| - 1], steps[|steps| - 1]);
      var g := GapSum(cfg, w, front, token);
      if Apply(cfg, Run(cfg, w, front), last).Ok? then Widen(g, GapOf(cfg, Run(cfg, w, front), last.call, token)) else g
  }

  /** Shares not yet sold plus shares still held, and the stock of unsold shares, up to a gap. */
  ghost predicate BookedUpTo(cfg: Config, w: World, id: RwaId, g: Gap) {
    && id in w.rwas && w.rwas[id].token in w.tokens
    && var (o, t) := (w.rwas[id], w.tokens[w.rwas[id].token]);
    && t.totalSupply == o.sharesTotal - o.sharesBought + Sum(o.investors) + g.supply
    && Get(t.balances, cfg.factory) == o.sharesTotal - o.sharesBought + g.stock
  }

  function SoldBy(c: Call, id: RwaId): int {
    if c.Buy? && c.id == id then c.amount else 0
  }

  function ClaimedBy(c: Call, id: RwaId): int {
    if c.ClaimShare? && c.id == id then c.amount else 0
  }

  /** What a call does to the book of an offering that is already there. */
  lemma {:induction false} BookEffect(cfg: Config, w: World, s: Step, w': World, id: RwaId)
    requires id in w.rwas && OfferingEffect(cfg, w, s, w')
    ensures id in w'.rwas
    ensures w'.rwas[id].sharesBought == w.rwas[id].sharesBought + SoldBy(s.call, id)
    ensures Sum(w'.rwas[id].investors) == Sum(w.rwas[id].investors) + SoldBy(s.call, id) - ClaimedBy(s.call, id)
  {
    var c, o := s.call, w.rwas[id];
    if c.Buy? && c.id == id {
      SumUpdate(o.investors, c.investor, Get(o.investors, c.investor) + c.amount);
    } else if c.ClaimShare? && c.id == id {
      SumUpdate(o.investors, c.investor, Get(o.investors, c.investor) - c.amount);
    }
  }

  /** How the call that a token takes moves its supply, and the factory's stock of it. */
  lemma {:induction false} SupplyMoved(cfg: Config, w: World, s: Step, w': World, token: Address, c: Sep57Runs.Call)
    requires ShareCallOf(cfg, w, s.call) == Some((token, c)) && TokenStepped(cfg, w, w', s.now, token, c)
    ensures w'.tokens[token].totalSupply
         == w.tokens[token].totalSupply + GapOf(cfg, w, s.call, token).supply
            - (if s.call.ClaimShare? then s.call.amount else 0)
  {
  }

  lemma {:induction false} StockMoved(cfg: Config, w: World, s: Step, w': World, token: Address, c: Sep57Runs.Call)
    requires Signer(s.call) != Some(cfg.factory) && ShareCallOf(cfg, w, s.call) == Some((token, c))
    requires TokenStepped(cfg, w, w', s.now, token, c)
    ensures Get(w'.tokens[token].balances, cfg.factory)
         == Get(w.tokens[token].balances, cfg.factory) + GapOf(cfg, w, s.call, token).stock
            - (if s.call.Buy? then s.call.amount else 0)
  {
    var (b, b') := (w.tokens[token].balances, w'.tokens[token].balances);
    assert Get(b', cfg.factory) == Get(Sep57Runs.Moved(b, c), cfg.factory);
  }

  /** A call that does not reach a deployed token leaves it, and bypasses no book of it. */
  lemma {:induction false} NotReached(cfg: Config, w: World, s: Step, w': World, id: RwaId)
    requires TokensSound(cfg, w) && id in w.rwas && TokenEffect(cfg, w, s, w')
    requires s.call.Create? || ShareCallOf(cfg, w, s.call).None?
        || ShareCallOf(cfg, w, s.call).value.0 != w.rwas[id].token
    ensures var token := w.rwas[id].token;
      && token in w'.tokens && w'.tokens[token] == w.tokens[token] && GapOf(cfg, w, s.call, token) == Gap(0, 0)
      && SoldBy(s.call, id) == 0 == ClaimedBy(s.call, id)
  {
  }

  /** The token's own move is the gap and the book's move together. */
  lemma {:induction false} TokenBooked(cfg: Config, w: World, s: Step, w': World, id: RwaId)
    requires TokensSound(cfg, w) && id in w.rwas && Signer(s.call) != Some(cfg.factory)
    requires TokenEffect(cfg, w, s, w')
    ensures var (token, d) := (w.rwas[id].token, GapOf(cfg, w, s.call, w.rwas[id].token));
      && token in w.tokens && token in w'.tokens
      && w'.tokens[token].totalSupply == w.tokens[token].totalSupply + d.supply - ClaimedBy(s.call, id)
      && Get(w'.tokens[token].balances, cfg.factory) == Get(w.tokens[token].balances, cfg.factory)
          + d.stock - SoldBy(s.call, id)
  {
    var token := w.rwas[id].token;
    if s.call.Create? || ShareCallOf(cfg, w, s.call).None? || ShareCallOf(cfg, w, s.call).value.0 != token {
      NotReached(cfg, w, s, w', id);
    } else {
      var c := ShareCallOf(cfg, w, s.call).value.1;
      SupplyMoved(cfg, w, s, w', token, c);
      StockMoved(cfg, w, s, w', token, c);
    }
  }

  lemma {:induction false} StepBooked(cfg: Config, w: World, s: Step, w': World, id: RwaId, g: Gap)
    requires TokensSound(cfg, w) && BookedUpTo(cfg, w, id, g) && Effect(cfg, w, s, w')
    ensures BookedUpTo(cfg, w', id, Widen(g, GapOf(cfg, w, s.call, w.rwas[id].token)))
  {
    StepEvolves(cfg, w, s, w');
    BookEffect(cfg, w, s, w', id);
    TokenBooked(cfg, w, s, w', id);
  }

  /** A call that leaves a token undeployed found it so, and does not bypass its book. */
  lemma {:induction false} NoGapByCall(cfg: Config, w: World, s: Step, w': World, token: Address)
    requires TokenEffect(cfg, w, s, w') && token !in w'.tokens
    ensures token !in w.tokens && GapOf(cfg, w, s.call, token) == Gap(0, 0)
  {
  }

  /** Nothing bypasses the book of a token that is not deployed yet. */
  lemma {:induction false} NoGapBeforeDeployment(cfg: Config, w: World, steps: seq<Step>, token: Address)
    requires Genesis(cfg, w) && token !in Run(cfg, w, steps).tokens
    ensures GapSum(cfg, w, steps, token) == Gap(0, 0)
  {
    if steps != [] {
      var front, last := steps[..|steps| - 1], steps[|steps| - 1];
      UsdcConservation(cfg, w, steps);
      if Apply(cfg, Run(cfg, w, front), last).Ok? {
        NoGapByCall(cfg, Run(cfg, w, front), last, Run(cfg, w, steps), token);
      }
      NoGapBeforeDeployment(cfg, w, front, token);
    }
  }

  /** A creation starts the book with no gap. */
  lemma {:induction false} CreatedBooked(cfg: Config, w: World, s: Step, w': World)
    requires s.call.Create? && Effect(cfg, w, s, w')
    ensures BookedUpTo(cfg, w', s.call.id, Gap(0, 0)) && w'.rwas[s.call.id].token == cfg.deploy(s.call.salt)
    ensures cfg.deploy(s.call.salt) !in w.tokens
  {
  }

  /**
   * The token ledger agrees with the share book, exactly: in every run, an
   * offering's supply is its unsold shares plus all holdings plus what was minted
   * and burned past the factory, and the factory's own stock is the unsold shares
   * plus what reached it from outside less what was taken in emergencies.
   */
  lemma {:induction false} TokenLedgerAgrees(cfg: Config, w: World, steps: seq<Step>, id: RwaId)
    requires Genesis(cfg, w) && id in Run(cfg, w, steps).rwas
    ensures BookedUpTo(cfg, Run(cfg, w, steps), id, GapSum(cfg, w, steps, Run(cfg, w, steps).rwas[id].token))
  {
    var front, last := steps[..|steps| - 1], steps[|steps| - 1];
    var v := Run(cfg, w, front);
    UsdcConservation(cfg, w, steps);
    RunLinked(cfg, w, front);
    if id in v.rwas {
      TokenLedgerAgrees(cfg, w, front, id);
      if Apply(cfg, v, last).Ok? {
        StepEvolves(cfg, v, last, Run(cfg, w, steps));
        StepBooked(cfg, v, last, Run(cfg, w, steps), id, GapSum(cfg, w, front, v.rwas[id].token));
      }
    } else {
      StepEvolves(cfg, v, last, Run(cfg, w, steps));
      CreatedBooked(cfg, v, last, Run(cfg, w, steps));
      NoGapBeforeDeployment(cfg, w, front, cfg.deploy(last.call.salt));
    }
  }

  /** Takes shares of a token out of the factory other than by a sale. */
  predicate Depletes(cfg: Config, c: Call, token: Address) {
    (c.Emergency? && c.token == token) || (c.ShareBurn? && c.token == token && c.from == cfg.factory)
  }

  /** No accepted call of the run took the deployed token out of the factory other than by a sale. */
  ghost predicate Untapped(cfg: Config, w: World, steps: seq<Step>, token: Address) {
    forall k | 0 <= k < |steps| && Depletes(cfg, steps[k].call, token) && token in Run(cfg, w, steps[..k]).tokens ::
      Apply(cfg, Run(cfg, w, steps[..k]), steps[k]).Err?
  }

  lemma {:induction false} StockGapNonNegative(cfg: Config, w: World, steps: seq<Step>, token: Address)
    requires Genesis(cfg, w) && Untapped(cfg, w, steps, token)
    ensures 0 <= GapSum(cfg, w, steps, token).stock
  {
    if steps != [] {
      var front, last := steps[..|steps| - 1], steps[|steps| - 1];
      assert forall k | 0 <= k < |front| :: front[k] == steps[k] && front[..k] == steps[..k];
      StockGapNonNegative(cfg, w, front, token);
      UsdcConservation(cfg, w, steps);
      RunLinked(cfg, w, front);
    }
  }

  /**
   * If no accepted call withdraws a token in an emergency or burns it from the
   * factory's own balance, the factory always holds at least the unsold shares.
   */
  lemma {:induction false} UnsoldSharesInStock(cfg: Config, w: World, steps: seq<Step>, id: RwaId)
    requires Genesis(cfg, w) && id in Run(cfg, w, steps).rwas
    requires Untapped(cfg, w, steps, Run(cfg, w, steps).rwas[id].token)
    ensures var (v, o) := (Run(cfg, w, steps), Run(cfg, w, steps).rwas[id]);
      o.token in v.tokens && o.sharesTotal - o.sharesBought <= Get(v.tokens[o.token].balances, cfg.factory)
  {
    TokenLedgerAgrees(cfg, w, steps, id);
    StockGapNonNegative(cfg, w, steps, Run(cfg, w, steps).rwas[id].token);
  }
}
