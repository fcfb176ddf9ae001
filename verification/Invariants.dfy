/** What every reachable state of the system satisfies: the accounts in USDC. */
module Invariants {
  import opened Prelude
  import opened MapSums
  import opened Factory
  import opened Offering
  import opened System
  import opened Effects

  ghost predicate Offerings(w: World) {
    && Keyed(w)
    && (forall id | id in w.rwas :: Consistent(w.rwas[id], BookOf(w.events, id)))
    && (forall id | id !in w.rwas :: BookOf(w.events, id) == BLANK)
  }

  ghost function HeldFor(w: World): map<RwaId, int> {
    map id | id in w.rwas :: Held(w.rwas[id], BookOf(w.events, id))
  }

  /** USDC withdrawn in emergencies. */
  function Drained(cfg: Config, es: seq<Event>): int {
    if es == [] then 0 else Drained(cfg, es[..|es| - 1]) + DrainedBy(cfg, es[|es| - 1])
  }

  function DrainedBy(cfg: Config, e: Event): int {
    if e.EmergencyWithdrawn? && e.token == cfg.usdc then e.amount else 0
  }

  lemma DrainedPosted(cfg: Config, es: seq<Event>, e: Event)
    ensures Drained(cfg, es + [e]) == Drained(cfg, es) + DrainedBy(cfg, e)
  {
    assert (es + [e])[..|es|] == es;
  }

  /** `supplied` is what the factory had at the start plus what it was given since. */
  ghost predicate Accounted(cfg: Config, w: World, supplied: int) {
    && Offerings(w)
    && UsdcSound(cfg.factory, w.usdc)
    && Get(w.usdc.balances, cfg.factory) == supplied - Drained(cfg, w.events) + Sum(HeldFor(w))
  }

  lemma {:induction false} BooksMove(w: World, w': World, id: RwaId, o: RWA, e: Event)
    requires Rewritten(w, w', id, o, e)
    ensures forall i :: BookOf(w'.events, i) == if i == id then Post(BookOf(w.events, i), e) else BookOf(w.events, i)
  {
    forall i: RwaId
      ensures BookOf(w'.events, i) == if i == id then Post(BookOf(w.events, i), e) else BookOf(w.events, i)
    {
      BookPosted(w.events, e, i);
    }
  }

  lemma {:induction false} OfferingsMove(w: World, w': World, id: RwaId, o: RWA, e: Event)
    requires Offerings(w) && Rewritten(w, w', id, o, e)
    requires Consistent(o, Post(BookOf(w.events, id), e))
    ensures Offerings(w')
  {
    BooksMove(w, w', id, o, e);
    forall i | i in w'.rwas ensures w'.rwas[i].id == i && Consistent(w'.rwas[i], BookOf(w'.events, i)) {
      if i != id {
        assert i in w.rwas && w'.rwas[i] == w.rwas[i] && BookOf(w'.events, i) == BookOf(w.events, i);
      }
    }
  }

  lemma {:induction false} HeldMove(w: World, w': World, id: RwaId, o: RWA, e: Event)
    requires Rewritten(w, w', id, o, e)
    ensures HeldFor(w') == HeldFor(w)[id := Held(o, Post(BookOf(w.events, id), e))]
  {
    BooksMove(w, w', id, o, e);
  }

  /** One offering is written and one event about it published; the others do not move. */
  lemma {:induction false} PoolMove(cfg: Config, w: World, w': World, supplied: int, id: RwaId, o: RWA, e: Event,
      delta: int)
    requires Accounted(cfg, w, supplied) && Rewritten(w, w', id, o, e)
    requires Consistent(o, Post(BookOf(w.events, id), e))
    requires Held(o, Post(BookOf(w.events, id), e)) == Get(HeldFor(w), id) + delta
    requires UsdcChanged(cfg.factory, w.usdc, w'.usdc, delta)
    ensures Accounted(cfg, w', supplied)
  {
    OfferingsMove(w, w', id, o, e);
    HeldMove(w, w', id, o, e);
    DrainedPosted(cfg, w.events, e);
    SumUpdate(HeldFor(w), id, Held(o, Post(BookOf(w.events, id), e)));
  }

  /** No offering is written, and no book changes. */
  lemma {:induction false} Untouched(w: World, w': World, es: seq<Event>)
    requires w'.rwas == w.rwas && w'.events == w.events + es
    requires es == [] || (|es| == 1 && es[0].EmergencyWithdrawn?)
    ensures Offerings(w) ==> Offerings(w')
    ensures HeldFor(w') == HeldFor(w)
  {
    forall i: RwaId ensures BookOf(w'.events, i) == BookOf(w.events, i) {
      if es != [] {
        BookPosted(w.events, es[0], i);
        assert es == [es[0]];
      } else {
        assert w'.events == w.events;
      }
    }
  }

  lemma {:induction false} CreateAccounted(cfg: Config, w: World, supplied: int, s: Step, w': World)
    requires Accounted(cfg, w, supplied) && s.call.Create?
    requires MoneyEffect(cfg, w, s, w') && OfferingEffect(cfg, w, s, w') && 0 <= cfg.protocolFeeBps <= 10_000
    ensures Accounted(cfg, w', supplied)
  {
    var c, o := s.call, w'.rwas[s.call.id];
    Created(o);
    PoolMove(cfg, w, w', supplied, c.id, o, w'.events[|w.events|], UsdcDelta(cfg, w, s));
  }

  lemma {:induction false} SaleMove(w: World, w': World, id: RwaId, investor: Address, amount: Int128)
    requires Offerings(w) && SaleBooked(w, w', id, investor, amount)
    ensures var (o, e) := (w'.rwas[id], SharesBought(id, investor, amount));
      && Rewritten(w, w', id, o, e) && Consistent(o, Post(BookOf(w.events, id), e))
      && Held(o, Post(BookOf(w.events, id), e)) == Get(HeldFor(w), id) + amount
  {
    BoughtOk(w.rwas[id], BookOf(w.events, id), investor, amount);
  }

  lemma {:induction false} BuyAccounted(cfg: Config, w: World, supplied: int, s: Step, w': World)
    requires Accounted(cfg, w, supplied) && s.call.Buy?
    requires MoneyEffect(cfg, w, s, w') && OfferingEffect(cfg, w, s, w')
    ensures Accounted(cfg, w', supplied)
  {
    var c := s.call;
    SaleMove(w, w', c.id, c.investor, c.amount);
    PoolMove(cfg, w, w', supplied, c.id, w'.rwas[c.id], SharesBought(c.id, c.investor, c.amount), c.amount);
  }

  lemma {:induction false} CollectAccounted(cfg: Config, w: World, supplied: int, s: Step, w': World)
    requires Accounted(cfg, w, supplied) && s.call.Collect?
    requires MoneyEffect(cfg, w, s, w') && OfferingEffect(cfg, w, s, w')
    ensures Accounted(cfg, w', supplied)
  {
    var c, o := s.call, w.rwas[s.call.id];
    CollectedOk(o, BookOf(w.events, c.id), c.id, c.shipper);
    PoolMove(cfg, w, w', supplied, c.id, o, FundCollected(c.id, c.shipper, o.sharesBought), 0 - o.sharesBought);
  }

  lemma {:induction false} SettleAccounted(cfg: Config, w: World, supplied: int, s: Step, w': World)
    requires Accounted(cfg, w, supplied) && s.call.Settle?
    requires MoneyEffect(cfg, w, s, w') && OfferingEffect(cfg, w, s, w')
    ensures Accounted(cfg, w', supplied)
  {
    var c, o := s.call, w.rwas[s.call.id];
    SettledOk(o, BookOf(w.events, c.id), c.id, c.shipper, c.amount);
    PoolMove(cfg, w, w', supplied, c.id, w'.rwas[c.id], DebtSettled(c.id, c.shipper, c.amount), c.amount);
  }

  lemma {:induction false} ClaimMove(w: World, w': World, id: RwaId, investor: Address, amount: Int128, e: Event)
    requires Offerings(w) && ClaimBooked(w, w', id, investor, amount)
    requires e == Claimed(id, investor, amount, Share(amount, w.rwas[id].interestBps))
    ensures var o := w'.rwas[id];
      && Rewritten(w, w', id, o, e) && Consistent(o, Post(BookOf(w.events, id), e))
      && Held(o, Post(BookOf(w.events, id), e)) == Get(HeldFor(w), id) - amount - Share(amount, w.rwas[id].interestBps)
  {
    ClaimedOk(w.rwas[id], BookOf(w.events, id), id, investor, amount);
  }

  lemma {:induction false} ClaimAccounted(cfg: Config, w: World, supplied: int, s: Step, w': World)
    requires Accounted(cfg, w, supplied) && s.call.ClaimShare?
    requires MoneyEffect(cfg, w, s, w') && OfferingEffect(cfg, w, s, w')
    ensures Accounted(cfg, w', supplied)
  {
    var c := s.call;
    var e := Claimed(c.id, c.investor, c.amount, Share(c.amount, w.rwas[c.id].interestBps));
    ClaimMove(w, w', c.id, c.investor, c.amount, e);
    PoolMove(cfg, w, w', supplied, c.id, w'.rwas[c.id], e, 0 - c.amount - Share(c.amount, w.rwas[c.id].interestBps));
  }

  lemma {:induction false} WithdrawAccounted(cfg: Config, w: World, supplied: int, s: Step, w': World)
    requires Accounted(cfg, w, supplied) && s.call.Withdraw?
    requires MoneyEffect(cfg, w, s, w') && OfferingEffect(cfg, w, s, w')
    ensures Accounted(cfg, w', supplied)
  {
    var c, o := s.call, w.rwas[s.call.id];
    FeesOk(o, BookOf(w.events, c.id), c.id, c.admin);
    PoolMove(cfg, w, w', supplied, c.id, o.(protocolFeePool := 0), FeesWithdrawn(c.id, c.admin, o.protocolFeePool),
        0 - o.protocolFeePool);
  }

  lemma {:induction false} AsideAccounted(cfg: Config, w: World, supplied: int, s: Step, w': World)
    requires Accounted(cfg, w, supplied) && MoneyEffect(cfg, w, s, w') && OfferingEffect(cfg, w, s, w')
    requires s.call.Emergency? || !IsFactoryCall(s.call)
    ensures Accounted(cfg, w', supplied + Deposit(cfg, s))
  {
    if s.call.Emergency? {
      var e := EmergencyWithdrawn(s.call.token, s.call.admin, s.call.amount);
      Untouched(w, w', [e]);
      DrainedPosted(cfg, w.events, e);
    } else {
      Untouched(w, w', []);
    }
  }

  lemma {:induction false} StepAccounted(cfg: Config, w: World, supplied: int, s: Step, w': World)
    requires Accounted(cfg, w, supplied) && MoneyEffect(cfg, w, s, w') && OfferingEffect(cfg, w, s, w')
        && 0 <= cfg.protocolFeeBps <= 10_000
    ensures Accounted(cfg, w', supplied + Deposit(cfg, s))
  {
    match s.call
    case Create(_, _, _, _, _, _, _, _, _) => CreateAccounted(cfg, w, supplied, s, w');
    case Buy(_, _, _) => BuyAccounted(cfg, w, supplied, s, w');
    case Collect(_, _) => CollectAccounted(cfg, w, supplied, s, w');
    case Settle(_, _, _) => SettleAccounted(cfg, w, supplied, s, w');
    case ClaimShare(_, _, _, _, _, _) => ClaimAccounted(cfg, w, supplied, s, w');
    case Withdraw(_, _) => WithdrawAccounted(cfg, w, supplied, s, w');
    case _ => AsideAccounted(cfg, w, supplied, s, w');
  }

  /** The last call of a run was rejected and changed nothing, or it had its effect. */
  ghost predicate LastStep(cfg: Config, w: World, steps: seq<Step>)
    requires steps != []
  {
    var (front, last) := (steps[..|steps| - 1], steps[|steps| - 1]);
    if Apply(cfg, Run(cfg, w, front), last).Ok? then Effect(cfg, Run(cfg, w, front), last, Run(cfg, w, steps))
    else Run(cfg, w, steps) == Run(cfg, w, front)
  }

  /**
   * USDC conservation over every run and any number of interleaved offerings,
   * together with each offering's accounts: the factory's balance is what it
   * started with, plus deposits, less emergency withdrawals, plus all pools and
   * all of the raise that was not collected.
   */
  lemma {:induction false} UsdcConservation(cfg: Config, w: World, steps: seq<Step>)
    requires Genesis(cfg, w)
    ensures Accounted(cfg, Run(cfg, w, steps), Get(w.usdc.balances, cfg.factory) + Deposits(cfg, w, steps))
    ensures steps != [] ==> LastStep(cfg, w, steps)
  {
    if steps == [] {
      assert HeldFor(w) == map[];
    } else {
      var front, last := steps[..|steps| - 1], steps[|steps| - 1];
      var supplied := Get(w.usdc.balances, cfg.factory) + Deposits(cfg, w, front);
      UsdcConservation(cfg, w, front);
      if Apply(cfg, Run(cfg, w, front), last).Ok? {
        StepEffect(cfg, Run(cfg, w, front), last);
        StepAccounted(cfg, Run(cfg, w, front), supplied, last, Run(cfg, w, steps));
      }
    }
  }
}
