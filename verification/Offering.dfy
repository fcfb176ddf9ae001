/**
 * One offering's accounts. The factory's published events are its history;
 * `Consistent` ties the stored offering to that history, and every entry point that
 * writes an offering keeps it so, with no unchecked operation trapping.
 */
module Offering {
  import opened Prelude
  import opened MapSums
  import opened Factory

  /** Totals of an offering's published events. */
  datatype Book = Book(collected: int, collects: nat, settled: int,
                       claimed: int, interest: int, claims: nat, fees: int)

  const BLANK: Book := Book(0, 0, 0, 0, 0, 0, 0)

  predicate About(e: Event, id: RwaId) {
    !e.EmergencyWithdrawn? && e.id == id
  }

  function Post(b: Book, e: Event): Book {
    match e
    case FundCollected(_, _, amount) =>
      b.(collected := b.collected + amount, collects := b.collects + if amount == 0 then 0 else 1)
    case DebtSettled(_, _, amount) => b.(settled := b.settled + amount)
    case Claimed(_, _, principal, interest) =>
      b.(claimed := b.claimed + principal, interest := b.interest + interest, claims := b.claims + 1)
    case FeesWithdrawn(_, _, amount) => b.(fees := b.fees + amount)
    case _ => b
  }

  function BookOf(es: seq<Event>, id: RwaId): Book {
    if es == [] then BLANK
    else
      var b := BookOf(es[..|es| - 1], id);
      if About(es[|es| - 1], id) then Post(b, es[|es| - 1]) else b
  }

  lemma BookPosted(es: seq<Event>, e: Event, id: RwaId)
    ensures BookOf(es + [e], id) == if About(e, id) then Post(BookOf(es, id), e) else BookOf(es, id)
  {
    assert (es + [e])[..|es|] == es;
  }

  // ---------- interest ----------

  function Share(amount: int, bps: int): int {
    amount * bps / 10_000
  }

  /** `paid` is what `n` claims totalling `claimed` have paid out: rounded down, once a claim. */
  predicate RoundedDown(paid: int, claimed: int, bps: int, n: nat) {
    10_000 * paid <= claimed * bps <= 10_000 * paid + 9_999 * n
  }

  lemma {:induction false} ClaimRounds(paid: int, claimed: int, bps: int, n: nat, amount: int)
    requires RoundedDown(paid, claimed, bps, n)
    ensures RoundedDown(paid + Share(amount, bps), claimed + amount, bps, n + 1)
  {
    assert (claimed + amount) * bps == claimed * bps + amount * bps;
  }

  lemma {:induction false} ShareMonotone(a: int, b: int, bps: int)
    requires a <= b && 0 <= bps
    ensures a * bps <= b * bps && Share(a, bps) <= Share(b, bps)
  {
    assert b * bps == a * bps + (b - a) * bps;
    assert 0 <= (b - a) * bps;
  }

  /** Rounding never overpays, and each claim after the first loses at most one unit. */
  lemma {:induction false} DustBound(paid: int, claimed: int, bps: int, n: nat)
    requires RoundedDown(paid, claimed, bps, n) && (n == 0 ==> claimed == 0)
    ensures paid <= Share(claimed, bps) <= paid + if n == 0 then 0 else n - 1
  {
  }

  // ---------- the invariant of one offering ----------

  ghost predicate Terms(o: RWA) {
    && 0 < o.raiseAmount == o.sharesTotal
    && 0 < o.interestBps <= 950 && 0 <= o.protocolFeeBps <= 10_000
    && Fits(o.raiseAmount * o.interestBps)
  }

  ghost predicate ShareBook(o: RWA, b: Book) {
    && 0 <= o.sharesBought <= o.sharesTotal
    && NonNegative(o.investors)
    && 0 <= b.claimed
    && Sum(o.investors) + b.claimed == o.sharesBought
  }

  ghost predicate Pools(o: RWA, b: Book) {
    && RoundedDown(b.interest, b.claimed, o.interestBps, b.claims)
    && (b.claims == 0 ==> b.claimed == 0)
    && 0 <= o.interestPool == Share(o.raiseAmount, o.interestBps) - b.interest
    && 0 <= o.principalPool == b.settled - b.claimed
    && 0 <= o.protocolFeePool == Share(o.raiseAmount, o.protocolFeeBps) - b.fees
    && 0 <= b.collected
    && (b.collects == 0 ==> b.collected == 0)
    && (b.collects <= 1 ==> b.collected <= o.sharesBought)
  }

  ghost predicate StatusOk(o: RWA, b: Book) {
    && (o.status == Open ==> o.sharesBought < o.sharesTotal)
    && (o.status == Funded ==> o.sharesBought == o.sharesTotal)
    && (o.status == Settled <==> 0 < b.settled)
    && 0 <= b.settled
  }

  ghost predicate Consistent(o: RWA, b: Book) {
    Terms(o) && ShareBook(o, b) && Pools(o, b) && StatusOk(o, b)
  }

  function PoolTotal(o: RWA): int {
    o.interestPool + o.protocolFeePool + o.principalPool
  }

  /** USDC the factory should hold for an offering: its pools, and the raise not yet collected. */
  function Held(o: RWA, b: Book): int {
    PoolTotal(o) + (o.sharesBought - b.collected)
  }

  // ---------- what each entry point does to it ----------

  lemma {:induction false} Created(o: RWA)
    requires 0 < o.raiseAmount == o.sharesTotal && 0 < o.interestBps <= 950 && 0 <= o.protocolFeeBps <= 10_000
    requires Fits(o.raiseAmount * o.interestBps) && o.sharesBought == 0 && o.investors == map[] && o.status == Open
    requires o.interestPool == Share(o.raiseAmount, o.interestBps) && o.principalPool == 0
    requires o.protocolFeePool == Share(o.raiseAmount, o.protocolFeeBps)
    ensures Consistent(o, BLANK) && Held(o, BLANK) == o.interestPool + o.protocolFeePool && 0 <= Held(o, BLANK)
  {
    ShareMonotone(0, o.raiseAmount, o.interestBps);
    ShareMonotone(0, o.raiseAmount, o.protocolFeeBps);
  }

  /** Interest and fee together are no more than the raise scaled, so their sum cannot trap. */
  lemma {:induction false} UpfrontTraps(cfg: Config, raise: Int128, bps: Int128)
    requires 0 < raise && 0 < bps <= 950 && 0 <= cfg.protocolFeeBps <= 10_000
    ensures UpfrontFees(cfg, raise, bps).Ok? <==> Fits(raise * bps) && Fits(raise * cfg.protocolFeeBps)
    ensures UpfrontFees(cfg, raise, bps).Err? ==> UpfrontFees(cfg, raise, bps) == Err(Trap)
  {
    ShareMonotone(0, raise, bps);
    ShareMonotone(0, raise, cfg.protocolFeeBps);
  }

  lemma {:induction false} BoughtOk(o: RWA, b: Book, investor: Address, amount: Int128)
    requires Consistent(o, b) && o.status == Open && 0 < amount <= o.sharesTotal - o.sharesBought
    ensures SharesAvailable(o).Ok?
    ensures Bought(o, investor, amount).Ok?
    ensures Fits(Get(o.investors, investor) + amount)
    ensures var o' := Bought(o, investor, amount).value;
      && o' == o.(sharesBought := o.sharesBought + amount,
                  investors := o.investors[investor := Get(o.investors, investor) + amount],
                  status := if o.sharesBought + amount == o.sharesTotal then Funded else Open)
      && Consistent(o', b) && Held(o', b) == Held(o, b) + amount
  {
    SumBounds(o.investors, investor, investor);
    SumUpdate(o.investors, investor, Get(o.investors, investor) + amount);
  }

  lemma {:induction false} CollectedOk(o: RWA, b: Book, id: RwaId, shipper: Address)
    requires Consistent(o, b)
    ensures var b' := Post(b, FundCollected(id, shipper, o.sharesBought));
      Consistent(o, b') && Held(o, b') == Held(o, b) - o.sharesBought
  {
  }

  lemma {:induction false} SettledOk(o: RWA, b: Book, id: RwaId, shipper: Address, amount: Int128)
    requires Consistent(o, b) && 0 < amount && Fits(o.principalPool + amount)
    ensures var (o', b') := (o.(principalPool := o.principalPool + amount, status := Settled),
        Post(b, DebtSettled(id, shipper, amount)));
      Consistent(o', b') && Held(o', b') == Held(o, b) + amount
  {
  }

  /** No subtraction in a claim traps or makes a pool negative. */
  lemma {:induction false} ClaimedOk(o: RWA, b: Book, id: RwaId, investor: Address, amount: Int128)
    requires Consistent(o, b) && 0 < amount <= Get(o.investors, investor) && amount <= o.principalPool
    ensures 0 <= Share(amount, o.interestBps) <= o.interestPool
    ensures Plain(amount * o.interestBps).Ok?
    ensures var interest := Share(amount, o.interestBps);
      && AfterClaim(o, investor, Get(o.investors, investor), amount, interest).Ok?
      && var (o', b') := (AfterClaim(o, investor, Get(o.investors, investor), amount, interest).value,
                          Post(b, Claimed(id, investor, amount, interest)));
         && o' == o.(principalPool := o.principalPool - amount, interestPool := o.interestPool - interest,
                     investors := o.investors[investor := Get(o.investors, investor) - amount])
         && Consistent(o', b') && Held(o', b') == Held(o, b) - amount - interest
  {
    var bps := o.interestBps;
    SumBounds(o.investors, investor, investor);
    SumUpdate(o.investors, investor, Get(o.investors, investor) - amount);
    ShareMonotone(0, amount, bps);
    ShareMonotone(amount, o.raiseAmount, bps);
    ClaimRounds(b.interest, b.claimed, bps, b.claims, amount);
    ShareMonotone(b.claimed + amount, o.raiseAmount, bps);
  }

  lemma {:induction false} FeesOk(o: RWA, b: Book, id: RwaId, admin: Address)
    requires Consistent(o, b)
    ensures var (o', b') := (o.(protocolFeePool := 0), Post(b, FeesWithdrawn(id, admin, o.protocolFeePool)));
      Consistent(o', b') && Held(o', b') == Held(o, b) - o.protocolFeePool
  {
  }
}
