/**
 * Whole runs of one share token: any sequence of calls, accepted or rejected,
 * each in whatever environment (clock, registry, compliance rules) it meets.
 */
module Sep57Runs {
  import opened Prelude
  import opened MapSums
  import opened IdentityVerifier
  import opened Sep57
  import Compliance
  import Permit

  datatype Call =
    | CallMint(to: Address, amount: Int128, nonce: UInt64, deadline: UInt32, signature: Signature)
    | CallBurn(from: Address, amount: Int128, nonce: UInt64, deadline: UInt32, signature: Signature)
    | CallTransfer(from: Address, to: Address, amount: Int128)

  datatype Step = Step(env: Env, call: Call)

  function Apply(cfg: Config, t: State, s: Step): Result<State> {
    match s.call
    case CallMint(to, amount, nonce, deadline, signature) =>
      Mint(cfg, s.env, t, to, amount, nonce, deadline, signature)
    case CallBurn(from, amount, nonce, deadline, signature) =>
      Burn(cfg, s.env, t, from, amount, nonce, deadline, signature)
    case CallTransfer(from, to, amount) => Transfer(cfg, s.env, t, from, to, amount)
  }

  /** A run from deployment; a rejected call changes nothing. */
  function Run(cfg: Config, steps: seq<Step>): State {
    if steps == [] then DEPLOYED
    else
      var t := Run(cfg, steps[..|steps| - 1]);
      match Apply(cfg, t, steps[|steps| - 1])
      case Ok(t') => t'
      case Err(_) => t
  }

  /** The accepted calls of a run, in order. */
  function Accepted(cfg: Config, steps: seq<Step>): seq<Step> {
    if steps == [] then []
    else
      var (front, last) := (steps[..|steps| - 1], steps[|steps| - 1]);
      if Apply(cfg, Run(cfg, front), last).Ok? then Accepted(cfg, front) + [last] else Accepted(cfg, front)
  }

  ghost predicate Reachable(cfg: Config, t: State) {
    exists steps :: Run(cfg, steps) == t
  }

  lemma ReachableDeployed(cfg: Config)
    ensures Reachable(cfg, DEPLOYED)
  {
    assert Run(cfg, []) == DEPLOYED;
  }

  lemma ReachableStep(cfg: Config, t: State, s: Step)
    requires Reachable(cfg, t) && Apply(cfg, t, s).Ok?
    ensures Reachable(cfg, Apply(cfg, t, s).value)
  {
    var steps :| Run(cfg, steps) == t;
    var steps' := steps + [s];
    assert steps'[..|steps|] == steps;
    assert Run(cfg, steps') == Apply(cfg, t, s).value;
  }

  // ---------- what an accepted call has checked and changed ----------

  predicate Permitted(c: Call) {
    c.CallMint? || c.CallBurn?
  }

  /** The permit a mint or burn call presents to the token. */
  function PermitOf(cfg: Config, c: Call): Permit.Permit
    requires Permitted(c)
  {
    if c.CallMint? then Permit.Permit(cfg.self, 1, c.to, c.amount, c.nonce, c.deadline)
    else Permit.Permit(cfg.self, 2, c.from, c.amount, c.nonce, c.deadline)
  }

  predicate Receives(c: Call, user: Address) {
    (c.CallMint? || c.CallTransfer?) && c.to == user
  }

  /** At step `s`, `user` was verified, received tokens, and its cap was at least `balance`. */
  predicate Vouches(cfg: Config, s: Step, user: Address, balance: int) {
    && Receives(s.call, user)
    && user in s.env.users && s.env.users[user].verified
    && cfg.self in s.env.compliance.bound && s.env.compliance.bound[cfg.self]
    && balance <= Get(s.env.compliance.maxBalance, cfg.self)
  }

  function EventOf(c: Call): Event {
    match c
    case CallMint(to, amount, _, _, _) => Minted(to, amount)
    case CallBurn(from, amount, _, _, _) => Burned(from, amount)
    case CallTransfer(from, to, amount) => Transferred(from, to, amount)
  }

  /** The balances after a call that reads them all before it writes. */
  ghost function Moved(b: map<Address, int>, c: Call): map<Address, int> {
    match c
    case CallMint(to, amount, _, _, _) => b[to := Get(b, to) + amount]
    case CallBurn(from, amount, _, _, _) => b[from := Get(b, from) - amount]
    case CallTransfer(from, to, amount) => b[from := Get(b, from) - amount][to := Get(b, to) + amount]
  }

  /** The permit is live, its nonce unused, and its message signed by the admin signer. */
  predicate Permissible(cfg: Config, t: State, s: Step)
    requires Permitted(s.call)
  {
    && s.env.now < s.call.deadline
    && s.call.nonce !in t.usedNonces
    && cfg.verify(cfg.adminSigner, Permit.Encode(PermitOf(cfg, s.call)), s.call.signature)
  }

  ghost predicate PermitConsumed(cfg: Config, s: Step, t: State, t': State) {
    if Permitted(s.call) then
      && Permissible(cfg, t, s)
      && t'.usedNonces == t.usedNonces + {s.call.nonce}
    else t'.usedNonces == t.usedNonces
  }

  ghost predicate BalancesMoved(cfg: Config, s: Step, t: State, t': State) {
    && 0 < s.call.amount
    && (!s.call.CallMint? ==> s.call.amount <= Get(t.balances, s.call.from))
    && (s.call.CallTransfer? ==> Verified(s.env.users, s.call.from))
    && (!s.call.CallBurn? ==> Vouches(cfg, s, s.call.to, Get(t.balances, s.call.to) + s.call.amount))
    && t'.balances == Moved(t.balances, s.call)
    && t'.totalSupply == t.totalSupply + Issued(EventOf(s.call))
    && t'.events == t.events + [EventOf(s.call)]
  }

  lemma {:induction false} AcceptedMint(cfg: Config, t: State, s: Step)
    requires s.call.CallMint? && Apply(cfg, t, s).Ok?
    ensures PermitConsumed(cfg, s, t, Apply(cfg, t, s).value)
    ensures BalancesMoved(cfg, s, t, Apply(cfg, t, s).value)
  {
  }

  lemma {:induction false} AcceptedBurn(cfg: Config, t: State, s: Step)
    requires s.call.CallBurn? && Apply(cfg, t, s).Ok?
    ensures PermitConsumed(cfg, s, t, Apply(cfg, t, s).value)
    ensures BalancesMoved(cfg, s, t, Apply(cfg, t, s).value)
  {
  }

  lemma {:induction false} AcceptedTransfer(cfg: Config, t: State, s: Step)
    requires s.call.CallTransfer? && Apply(cfg, t, s).Ok?
    ensures PermitConsumed(cfg, s, t, Apply(cfg, t, s).value)
    ensures BalancesMoved(cfg, s, t, Apply(cfg, t, s).value)
  {
  }

  lemma {:induction false} AcceptedCall(cfg: Config, t: State, s: Step)
    requires Apply(cfg, t, s).Ok?
    ensures PermitConsumed(cfg, s, t, Apply(cfg, t, s).value)
    ensures BalancesMoved(cfg, s, t, Apply(cfg, t, s).value)
  {
    match s.call
    case CallMint(_, _, _, _, _) => AcceptedMint(cfg, t, s);
    case CallBurn(_, _, _, _, _) => AcceptedBurn(cfg, t, s);
    case CallTransfer(_, _, _) => AcceptedTransfer(cfg, t, s);
  }

  predicate Registered(users: Users, user: Address) {
    user in users && users[user].verified
  }

  /** The receiver stays within the cap of a bound token, and its balance fits. */
  predicate Welcome(cfg: Config, env: Env, t: State, to: Address, amount: int) {
    && Registered(env.users, to) && Fits(Get(t.balances, to) + amount)
    && cfg.self in env.compliance.bound && env.compliance.bound[cfg.self]
    && Get(t.balances, to) + amount <= Get(env.compliance.maxBalance, cfg.self)
  }

  /** What a call asks for. */
  predicate Admissible(cfg: Config, t: State, s: Step) {
    match s.call
    case CallMint(to, amount, _, _, _) =>
      0 < amount && Permissible(cfg, t, s) && Welcome(cfg, s.env, t, to, amount) && Fits(t.totalSupply + amount)
    case CallBurn(from, amount, _, _, _) =>
      && 0 < amount <= Get(t.balances, from) && Permissible(cfg, t, s) && Fits(t.totalSupply - amount)
      && cfg.self in s.env.compliance.bound && s.env.compliance.bound[cfg.self]
    case CallTransfer(from, to, amount) =>
      0 < amount <= Get(t.balances, from) && Registered(s.env.users, from) && Welcome(cfg, s.env, t, to, amount)
  }

  /** A token call, exactly: in any state it is accepted if and only if it is admissible. */
  lemma {:induction false} AcceptedExactly(cfg: Config, t: State, s: Step)
    ensures Apply(cfg, t, s).Ok? <==> Admissible(cfg, t, s)
  {
    match s.call
    case CallMint(_, _, _, _, _) => MintExactly(cfg, t, s);
    case CallBurn(_, _, _, _, _) => BurnExactly(cfg, t, s);
    case CallTransfer(_, _, _) => TransferExactly(cfg, t, s);
  }

  lemma {:induction false} MintExactly(cfg: Config, t: State, s: Step)
    requires s.call.CallMint?
    ensures Apply(cfg, t, s).Ok? <==> Admissible(cfg, t, s)
  {
  }

  lemma {:induction false} BurnExactly(cfg: Config, t: State, s: Step)
    requires s.call.CallBurn?
    ensures Apply(cfg, t, s).Ok? <==> Admissible(cfg, t, s)
  {
  }

  lemma {:induction false} TransferExactly(cfg: Config, t: State, s: Step)
    requires s.call.CallTransfer?
    ensures Apply(cfg, t, s).Ok? <==> Admissible(cfg, t, s)
  {
  }

  // ---------- which error a refused call ends with ----------

  /** A permit is refused for its deadline first, then for its nonce, then for its signature. */
  lemma {:induction false} PermitRefusals(cfg: Config, t: State, s: Step)
    requires Permitted(s.call)
    ensures var (c, r) := (s.call, Apply(cfg, t, s));
      if c.amount <= 0 then r == Err(InvalidAmount)
      else if c.deadline <= s.env.now then r == Err(PermitExpired)
      else if c.nonce in t.usedNonces then r == Err(PermitAlreadyUsed)
      else r == Err(BadSignature) <==>
        !cfg.verify(cfg.adminSigner, Permit.Encode(PermitOf(cfg, c)), c.signature)
  {
  }

  /** A permitted mint is refused for its receiver, for an overflow, and by compliance, in that order. */
  lemma {:induction false} MintRefusals(cfg: Config, t: State, s: Step)
    requires s.call.CallMint? && 0 < s.call.amount && Permissible(cfg, t, s)
    ensures var (c, r, users, rules) := (s.call, Apply(cfg, t, s), s.env.users, s.env.compliance);
      if c.to !in users then r == Err(IdentityNotFound)
      else if !users[c.to].verified then r == Err(IdentityNotVerified)
      else if !Fits(Get(t.balances, c.to) + c.amount) || !Fits(t.totalSupply + c.amount)
        then r == Err(ArithmeticOverflow)
      else if cfg.self !in rules.bound || !rules.bound[cfg.self] then r == Err(TokenNotBound)
      else if Get(rules.maxBalance, cfg.self) < Get(t.balances, c.to) + c.amount then r == Err(MaxBalanceExceeded)
      else r.Ok?
  {
  }

  lemma {:induction false} BurnRefusals(cfg: Config, t: State, s: Step)
    requires s.call.CallBurn? && 0 < s.call.amount && Permissible(cfg, t, s)
    ensures var (c, r, rules) := (s.call, Apply(cfg, t, s), s.env.compliance);
      if Get(t.balances, c.from) < c.amount then r == Err(InsufficientBalance)
      else if !Fits(t.totalSupply - c.amount) then r == Err(Trap)
      else if cfg.self !in rules.bound || !rules.bound[cfg.self] then r == Err(TokenNotBound)
      else r.Ok?
  {
  }

  lemma {:induction false} TransferRefusals(cfg: Config, t: State, s: Step)
    requires s.call.CallTransfer?
    ensures var (c, r, users, rules) := (s.call, Apply(cfg, t, s), s.env.users, s.env.compliance);
      if c.amount <= 0 then r == Err(InvalidAmount)
      else if c.from !in users then r == Err(IdentityNotFound)
      else if !users[c.from].verified then r == Err(IdentityNotVerified)
      else if c.to !in users then r == Err(IdentityNotFound)
      else if !users[c.to].verified then r == Err(IdentityNotVerified)
      else if Get(t.balances, c.from) < c.amount then r == Err(InsufficientBalance)
      else if !Fits(Get(t.balances, c.to) + c.amount) then r == Err(ArithmeticOverflow)
      else if cfg.self !in rules.bound || !rules.bound[cfg.self] then r == Err(TokenNotBound)
      else if Get(rules.maxBalance, cfg.self) < Get(t.balances, c.to) + c.amount then r == Err(MaxBalanceExceeded)
      else r.Ok?
  {
  }

  /** The last call of a run either was rejected, or had its specified effect. */
  lemma {:induction false} RunStep(cfg: Config, steps: seq<Step>)
    requires steps != []
    ensures var (front, last) := (steps[..|steps| - 1], steps[|steps| - 1]);
      || (Run(cfg, steps) == Run(cfg, front) && Accepted(cfg, steps) == Accepted(cfg, front))
      || (&& Accepted(cfg, steps) == Accepted(cfg, front) + [last]
          && PermitConsumed(cfg, last, Run(cfg, front), Run(cfg, steps))
          && BalancesMoved(cfg, last, Run(cfg, front), Run(cfg, steps)))
  {
    var front, last := steps[..|steps| - 1], steps[|steps| - 1];
    if Apply(cfg, Run(cfg, front), last).Ok? {
      AcceptedCall(cfg, Run(cfg, front), last);
    }
  }

  // ---------- supply ----------

  /** How an event changes the supply. */
  function Issued(e: Event): int {
    if e.Minted? then e.amount else if e.Burned? then 0 - e.amount else 0
  }

  function Circulation(es: seq<Event>): int {
    if es == [] then 0 else Circulation(es[..|es| - 1]) + Issued(es[|es| - 1])
  }

  predicate MovesToSelf(e: Event) {
    e.Transferred? && e.from == e.to
  }

  function SelfMoved(es: seq<Event>): int {
    if es == [] then 0
    else
      var e := es[|es| - 1];
      SelfMoved(es[..|es| - 1]) + if MovesToSelf(e) then e.amount else 0
  }

  /** What the balances, the supply and the published events have to do with each other. */
  ghost predicate Accounts(t: State) {
    && NonNegative(t.balances)
    && t.totalSupply == Circulation(t.events)
    && Sum(t.balances) == t.totalSupply + SelfMoved(t.events)
    && (forall e | e in t.events :: 0 < e.amount)
  }

  /** How a call changes the sum of the balances. */
  function Added(c: Call): int {
    match c
    case CallMint(_, amount, _, _, _) => amount
    case CallBurn(_, amount, _, _, _) => 0 - amount
    case CallTransfer(from, to, amount) => if from == to then amount else 0
  }

  lemma {:induction false} MovedSum(b: map<Address, int>, c: Call)
    ensures Sum(Moved(b, c)) == Sum(b) + Added(c)
  {
    match c
    case CallMint(to, amount, _, _, _) =>
      SumUpdate(b, to, Get(b, to) + amount);
    case CallBurn(from, amount, _, _, _) =>
      SumUpdate(b, from, Get(b, from) - amount);
    case CallTransfer(from, to, amount) =>
      SumUpdate(b, from, Get(b, from) - amount);
      SumUpdate(b[from := Get(b, from) - amount], to, Get(b, to) + amount);
  }

  /** A published event adds to the totals of the events before it. */
  lemma {:induction false} TotalsStep(es: seq<Event>, e: Event)
    ensures Circulation(es + [e]) == Circulation(es) + Issued(e)
    ensures SelfMoved(es + [e]) == SelfMoved(es) + if MovesToSelf(e) then e.amount else 0
  {
    assert (es + [e])[..|es|] == es;
  }

  lemma {:induction false} AccountsStep(cfg: Config, t: State, s: Step, t': State)
    requires Accounts(t) && BalancesMoved(cfg, s, t, t')
    ensures Accounts(t')
  {
    var b: map<Address, int> := t.balances;
    MovedSum(b, s.call);
    TotalsStep(t.events, EventOf(s.call));
  }

  lemma {:induction false} RunAccounts(cfg: Config, steps: seq<Step>)
    ensures Accounts(Run(cfg, steps))
  {
    if steps != [] {
      var front, last := steps[..|steps| - 1], steps[|steps| - 1];
      RunAccounts(cfg, front);
      RunStep(cfg, steps);
      if Accepted(cfg, steps) != Accepted(cfg, front) {
        AccountsStep(cfg, Run(cfg, front), last, Run(cfg, steps));
      }
    }
  }

  lemma {:induction false} SelfMovedZero(es: seq<Event>)
    requires forall e | e in es :: 0 < e.amount
    ensures 0 <= SelfMoved(es)
    ensures SelfMoved(es) == 0 <==> forall e | e in es :: !MovesToSelf(e)
  {
    if es != [] {
      var front := es[..|es| - 1];
      SelfMovedZero(front);
      assert forall e :: e in es <==> e in front || e == es[|es| - 1];
    }
  }

  /**
   * Supply conservation, exactly: the balances of any run are non-negative and
   * sum to the supply if and only if no account ever transferred to itself.
   */
  lemma {:induction false} SupplyConservation(cfg: Config, steps: seq<Step>)
    ensures var t := Run(cfg, steps);
      && NonNegative(t.balances)
      && (Sum(t.balances) == t.totalSupply <==> forall e | e in t.events :: !MovesToSelf(e))
  {
    RunAccounts(cfg, steps);
    SelfMovedZero(Run(cfg, steps).events);
  }

  /** A burn that passes every check of its own, and takes the supply below the least i128. */
  predicate Overdraws(cfg: Config, t: State, s: Step) {
    && s.call.CallBurn? && 0 < s.call.amount
    && Permissible(cfg, t, s)
    && s.call.amount <= Get(t.balances, s.call.from)
    && !Fits(t.totalSupply - s.call.amount)
  }

  /**
   * Plain arithmetic, exactly: in any run a call traps if and only if it is a burn
   * that overdraws the supply. Compliance's plain addition never does, because the
   * token's checked one comes first.
   */
  lemma {:induction false} TrapsExactly(cfg: Config, steps: seq<Step>, s: Step)
    ensures Apply(cfg, Run(cfg, steps), s) == Err(Trap) <==> Overdraws(cfg, Run(cfg, steps), s)
  {
    RunAccounts(cfg, steps);
  }

  /** Only a token that some account sent to itself can be overdrawn. */
  lemma {:induction false} OverdrawnAfterSelfTransfer(cfg: Config, steps: seq<Step>, s: Step)
    requires Overdraws(cfg, Run(cfg, steps), s)
    ensures exists e | e in Run(cfg, steps).events :: MovesToSelf(e)
  {
    var t := Run(cfg, steps);
    RunAccounts(cfg, steps);
    SelfMovedZero(t.events);
    SumBounds(t.balances, s.call.from, s.call.from);
  }

  /** An environment in which `holder` is verified and the token is bound and uncapped. */
  predicate Welcomes(cfg: Config, env: Env, holder: Address) {
    && env.now == 1 && Verified(env.users, holder)
    && Compliance.IsBound(env.compliance, cfg.self) && Get(env.compliance.maxBalance, cfg.self) == INT128_MAX
  }

  function WelcomingEnv(cfg: Config, holder: Address): (env: Env)
    ensures Welcomes(cfg, env, holder)
  {
    Env(1, map[holder := Identity(holder, true, "SGP", KYC)],
        Compliance.State(holder, map[cfg.self := true], map[cfg.self := INT128_MAX]))
  }

  lemma HolderMints(cfg: Config, env: Env, t: State, holder: Address, amount: Int128, nonce: UInt64)
    requires (forall k, m, s :: cfg.verify(k, m, s)) && Welcomes(cfg, env, holder)
    requires t.balances.Keys <= {holder} && Get(t.balances, holder) == 0 && nonce !in t.usedNonces
    requires 0 < amount && Fits(t.totalSupply + amount)
    ensures var r := Apply(cfg, t, Step(env, CallMint(holder, amount, nonce, 2, [])));
      && r.Ok? && r.value.balances == map[holder := amount] && r.value.totalSupply == t.totalSupply + amount
      && r.value.usedNonces == t.usedNonces + {nonce}
  {
  }

  lemma HolderTransfersToSelf(cfg: Config, env: Env, t: State, holder: Address, amount: Int128)
    requires Welcomes(cfg, env, holder) && t.balances == map[holder := amount] && 0 < amount && Fits(2 * amount)
    ensures var r := Apply(cfg, t, Step(env, CallTransfer(holder, holder, amount)));
      && r.Ok? && r.value.balances == map[holder := 2 * amount]
      && r.value.totalSupply == t.totalSupply && r.value.usedNonces == t.usedNonces
  {
  }

  /** The holder has burned everything, and nonces from `next` on are unused. */
  ghost predicate Emptied(cfg: Config, t: State, holder: Address, supply: int, next: nat) {
    && Reachable(cfg, t) && t.totalSupply == supply
    && t.balances.Keys <= {holder} && Get(t.balances, holder) == 0
    && forall n | n in t.usedNonces :: n < next
  }

  /** Mint an amount and send it to oneself: twice as much is held as the supply grew by. */
  lemma {:induction false} Doubled(cfg: Config, env: Env, t: State, holder: Address, supply: int, next: UInt64,
      amount: Int128)
    returns (t': State)
    requires (forall k, m, s :: cfg.verify(k, m, s)) && Welcomes(cfg, env, holder)
    requires Emptied(cfg, t, holder, supply, next) && supply <= 0 < amount && Fits(2 * amount)
    ensures Reachable(cfg, t') && t'.totalSupply == supply + amount && t'.balances == map[holder := 2 * amount]
    ensures forall n | n in t'.usedNonces :: n <= next
  {
    var s1, s2 := Step(env, CallMint(holder, amount, next, 2, [])), Step(env, CallTransfer(holder, holder, amount));
    HolderMints(cfg, env, t, holder, amount, next);
    var t1 := Apply(cfg, t, s1).value;
    ReachableStep(cfg, t, s1);
    HolderTransfersToSelf(cfg, env, t1, holder, amount);
    ReachableStep(cfg, t1, s2);
    t' := Apply(cfg, t1, s2).value;
  }

  /** A concrete run in which a self-transfer breaks conservation: 7 minted, 14 held. */
  lemma SelfTransferInflates(cfg: Config)
    requires forall k, m, s :: cfg.verify(k, m, s)
    ensures exists t :: Reachable(cfg, t) && Sum(t.balances) == 14 && t.totalSupply == 7
  {
    var holder: Address := [1];
    var env := WelcomingEnv(cfg, holder);
    ReachableDeployed(cfg);
    var t := Doubled(cfg, env, DEPLOYED, holder, 0, 0, 7);
    SingleSum(holder, 14);
    assert t.balances == map[holder := 14];
    assert Sum(t.balances) == 14;
  }

  lemma SingleSum(holder: Address, amount: int)
    ensures Sum(map[holder := amount]) == amount
  {
    var b: map<Address, int> := map[holder := amount];
    SumRemove(b, holder);
    assert b - {holder} == map[];
  }

  // ---------- a burn that traps ----------

  /** 2^126 - 1: twice this is the most an i128 lets one hold, but for one unit. */
  const LOT: int := 0x3FFF_FFFF_FFFF_FFFF_FFFF_FFFF_FFFF_FFFF

  lemma {:induction false} HolderBurns(cfg: Config, env: Env, t: State, holder: Address, nonce: UInt64)
    requires (forall k, m, s :: cfg.verify(k, m, s)) && Welcomes(cfg, env, holder)
    requires t.balances == map[holder := 2 * LOT] && nonce !in t.usedNonces
    ensures var s := Step(env, CallBurn(holder, 2 * LOT, nonce, 2, []));
      if Fits(t.totalSupply - 2 * LOT) then
        && Apply(cfg, t, s).Ok? && Apply(cfg, t, s).value.balances == map[holder := 0]
        && Apply(cfg, t, s).value.totalSupply == t.totalSupply - 2 * LOT
        && Apply(cfg, t, s).value.usedNonces == t.usedNonces + {nonce}
      else Apply(cfg, t, s) == Err(Trap)
  {
  }

  /** Each round of mint, self-transfer and burn lowers the supply by `LOT`. */
  lemma {:induction false} Sunk(cfg: Config, env: Env, t: State, holder: Address, supply: int, next: UInt64)
    returns (t': State)
    requires (forall k, m, s :: cfg.verify(k, m, s)) && Welcomes(cfg, env, holder)
    requires Emptied(cfg, t, holder, supply, next) && supply <= 0 && Fits(supply - LOT) && next < 10
    ensures Emptied(cfg, t', holder, supply - LOT, next + 2)
  {
    var held := Doubled(cfg, env, t, holder, supply, next, LOT);
    var s := Step(env, CallBurn(holder, 2 * LOT, next + 1, 2, []));
    HolderBurns(cfg, env, held, holder, next + 1);
    ReachableStep(cfg, held, s);
    t' := Apply(cfg, held, s).value;
  }

  /** A run after which a burn traps: two rounds that sink the supply, and a third. */
  lemma {:induction false} BurnCanTrap(cfg: Config)
    requires forall k, m, s :: cfg.verify(k, m, s)
    ensures exists steps, s :: Overdraws(cfg, Run(cfg, steps), s) && Apply(cfg, Run(cfg, steps), s) == Err(Trap)
  {
    var holder: Address := [1];
    var env := WelcomingEnv(cfg, holder);
    ReachableDeployed(cfg);
    var t1 := Sunk(cfg, env, DEPLOYED, holder, 0, 0);
    var t2 := Sunk(cfg, env, t1, holder, 0 - LOT, 2);
    var t3 := Doubled(cfg, env, t2, holder, 0 - 2 * LOT, 4, LOT);
    HolderBurns(cfg, env, t3, holder, 5);
    var steps :| Run(cfg, steps) == t3;
    TrapsExactly(cfg, steps, Step(env, CallBurn(holder, 2 * LOT, 5, 2, [])));
  }

  // ---------- every balance ----------

  /** What an accepted call adds to an account's balance; who sends to himself is credited. */
  function Gain(c: Call, a: Address): int {
    match c
    case CallMint(to, amount, _, _, _) => if a == to then amount else 0
    case CallBurn(from, amount, _, _, _) => if a == from then 0 - amount else 0
    case CallTransfer(from, to, amount) => (if a == to then amount else 0) - (if a == from != to then amount else 0)
  }

  function Gained(cs: seq<Step>, a: Address): int {
    if cs == [] then 0 else Gained(cs[..|cs| - 1], a) + Gain(cs[|cs| - 1].call, a)
  }

  /** Every balance, after any run, is what the accepted calls gave the account and took from it. */
  lemma {:induction false} BalancesFromHistory(cfg: Config, steps: seq<Step>, a: Address)
    ensures Get(Run(cfg, steps).balances, a) == Gained(Accepted(cfg, steps), a)
  {
    if steps != [] {
      var front, last := steps[..|steps| - 1], steps[|steps| - 1];
      BalancesFromHistory(cfg, front, a);
      RunStep(cfg, steps);
      if Accepted(cfg, steps) != Accepted(cfg, front) {
        assert Accepted(cfg, steps)[..|Accepted(cfg, front)|] == Accepted(cfg, front);
        assert Get(Run(cfg, steps).balances, a) == Get(Moved(Run(cfg, front).balances, last.call), a);
      }
    }
  }

  // ---------- permits ----------

  /** The one effect a permit may have. */
  predicate IsEffectOf(e: Event, p: Permit.Permit) {
    if p.action == 1 then e == Minted(p.account, p.amount)
    else p.action == 2 && e == Burned(p.account, p.amount)
  }

  ghost predicate PermitsUsedOnce(cfg: Config, a: seq<Step>, t: State) {
    && |t.events| == |a|
    && (forall i | 0 <= i < |a| && Permitted(a[i].call) ::
          && a[i].call.nonce in t.usedNonces
          && a[i].env.now < a[i].call.deadline
          && IsEffectOf(t.events[i], PermitOf(cfg, a[i].call))
          && cfg.verify(cfg.adminSigner, Permit.Encode(PermitOf(cfg, a[i].call)), a[i].call.signature))
    && (forall i | 0 <= i < |a| && !Permitted(a[i].call) :: t.events[i].Transferred?)
    && (forall i, j | 0 <= i < j < |a| && Permitted(a[i].call) && Permitted(a[j].call) ::
          a[i].call.nonce != a[j].call.nonce)
  }

  lemma {:induction false} PermitsStep(cfg: Config, a: seq<Step>, t: State, s: Step, t': State)
    requires PermitsUsedOnce(cfg, a, t)
    requires PermitConsumed(cfg, s, t, t') && BalancesMoved(cfg, s, t, t')
    ensures PermitsUsedOnce(cfg, a + [s], t')
  {
    var a' := a + [s];
    assert forall i | 0 <= i < |a| :: a'[i] == a[i] && t'.events[i] == t.events[i];
  }

  lemma {:induction false} RunPermits(cfg: Config, steps: seq<Step>)
    ensures PermitsUsedOnce(cfg, Accepted(cfg, steps), Run(cfg, steps))
  {
    if steps != [] {
      var front, last := steps[..|steps| - 1], steps[|steps| - 1];
      RunPermits(cfg, front);
      RunStep(cfg, steps);
      if Accepted(cfg, steps) != Accepted(cfg, front) {
        PermitsStep(cfg, Accepted(cfg, front), Run(cfg, front), last, Run(cfg, steps));
      }
    }
  }

  /**
   * One signature, one effect. Take any accepted mints or burns of any two runs
   * of any two tokens. If they rest on the same signed message, they are on the
   * same token and have the same effect, the one the message spells out; and
   * within one run they are one and the same call.
   */
  lemma {:induction false} OneSignatureOneEffect(cfg: Config, steps: seq<Step>, i: nat, cfg': Config,
      steps': seq<Step>, j: nat)
    requires i < |Accepted(cfg, steps)| && Permitted(Accepted(cfg, steps)[i].call)
    requires j < |Accepted(cfg', steps')| && Permitted(Accepted(cfg', steps')[j].call)
    requires Permit.Encode(PermitOf(cfg, Accepted(cfg, steps)[i].call))
        == Permit.Encode(PermitOf(cfg', Accepted(cfg', steps')[j].call))
    ensures |Run(cfg, steps).events| == |Accepted(cfg, steps)| && |Run(cfg', steps').events| == |Accepted(cfg', steps')|
    ensures cfg.self == cfg'.self && Run(cfg, steps).events[i] == Run(cfg', steps').events[j]
    ensures cfg == cfg' && steps == steps' ==> i == j
  {
    RunPermits(cfg, steps);
    RunPermits(cfg', steps');
    Permit.Injective(PermitOf(cfg, Accepted(cfg, steps)[i].call), PermitOf(cfg', Accepted(cfg', steps')[j].call));
  }

  /** Every accepted mint or burn was live, and carries a signature over its own message. */
  lemma {:induction false} AcceptedPermitsAreSigned(cfg: Config, steps: seq<Step>, i: nat)
    requires i < |Accepted(cfg, steps)| && Permitted(Accepted(cfg, steps)[i].call)
    ensures var s := Accepted(cfg, steps)[i];
      && s.env.now < s.call.deadline
      && exists m :: cfg.verify(cfg.adminSigner, m, s.call.signature) && Permit.Decode(m) == Some(PermitOf(cfg, s.call))
  {
    RunPermits(cfg, steps);
    Permit.RoundTrip(PermitOf(cfg, Accepted(cfg, steps)[i].call));
    assert cfg.verify(cfg.adminSigner, Permit.Encode(PermitOf(cfg, Accepted(cfg, steps)[i].call)),
        Accepted(cfg, steps)[i].call.signature);
  }

  ghost function Messages(cfg: Config, a: seq<Step>): set<Bytes> {
    set i | 0 <= i < |a| && Permitted(a[i].call) :: Permit.Encode(PermitOf(cfg, a[i].call))
  }

  function SupplyChanges(es: seq<Event>): nat {
    if es == [] then 0 else SupplyChanges(es[..|es| - 1]) + if es[|es| - 1].Transferred? then 0 else 1
  }

  /** One more accepted call adds its message, a new one, if it has any. */
  lemma {:induction false} MessagesStep(cfg: Config, a: seq<Step>, s: Step, t: State)
    requires PermitsUsedOnce(cfg, a, t)
    requires Permitted(s.call) ==> s.call.nonce !in t.usedNonces
    ensures |Messages(cfg, a + [s])| == |Messages(cfg, a)| + if Permitted(s.call) then 1 else 0
  {
    var a' := a + [s];
    assert forall i | 0 <= i < |a| :: a'[i] == a[i];
    if Permitted(s.call) {
      var m := Permit.Encode(PermitOf(cfg, s.call));
      assert a'[|a|] == s;
      assert Messages(cfg, a') == Messages(cfg, a) + {m};
      if i :| 0 <= i < |a| && Permitted(a[i].call) && Permit.Encode(PermitOf(cfg, a[i].call)) == m {
        Permit.Injective(PermitOf(cfg, a[i].call), PermitOf(cfg, s.call));
      }
    } else {
      assert Messages(cfg, a') == Messages(cfg, a);
    }
  }

  /** Each accepted mint or burn used up a message of its own. */
  lemma {:induction false} MessagesCounted(cfg: Config, steps: seq<Step>)
    ensures |Messages(cfg, Accepted(cfg, steps))| == SupplyChanges(Run(cfg, steps).events)
  {
    if steps == [] {
      assert Messages(cfg, []) == {};
    } else {
      var front, last := steps[..|steps| - 1], steps[|steps| - 1];
      MessagesCounted(cfg, front);
      RunPermits(cfg, front);
      RunStep(cfg, steps);
      if Accepted(cfg, steps) != Accepted(cfg, front) {
        MessagesStep(cfg, Accepted(cfg, front), last, Run(cfg, front));
        SupplyChangesStep(Run(cfg, front).events, EventOf(last.call));
      }
    }
  }

  lemma SupplyChangesStep(es: seq<Event>, e: Event)
    ensures SupplyChanges(es + [e]) == SupplyChanges(es) + if e.Transferred? then 0 else 1
  {
    assert (es + [e])[..|es|] == es;
  }

  /** If only signed messages verify, a token's supply changes at most once per signed message. */
  lemma {:induction false} EffectsBoundedBySignatures(cfg: Config, steps: seq<Step>, signed: set<Bytes>)
    requires forall m, s :: cfg.verify(cfg.adminSigner, m, s) ==> m in signed
    ensures SupplyChanges(Run(cfg, steps).events) <= |signed|
  {
    MessagesCounted(cfg, steps);
    RunPermits(cfg, steps);
    var ms := Messages(cfg, Accepted(cfg, steps));
    assert ms <= signed;
    SubsetSize(ms, signed);
  }

  lemma {:induction false} SubsetSize<T(!new)>(a: set<T>, b: set<T>)
    requires a <= b
    ensures |a| <= |b|
    decreases |a|
  {
    if a != {} {
      var x :| x in a;
      SubsetSize(a - {x}, b - {x});
    }
  }

  // ---------- identity and caps ----------

  ghost predicate HoldersVouched(cfg: Config, a: seq<Step>, t: State) {
    forall user | 0 < Get(t.balances, user) ::
      exists i :: 0 <= i < |a| && Vouches(cfg, a[i], user, Get(t.balances, user))
  }

  lemma {:induction false} HoldersStep(cfg: Config, a: seq<Step>, t: State, s: Step, t': State)
    requires HoldersVouched(cfg, a, t) && BalancesMoved(cfg, s, t, t')
    ensures HoldersVouched(cfg, a + [s], t')
  {
    var a' := a + [s];
    forall user | 0 < Get(t'.balances, user)
      ensures exists i :: 0 <= i < |a'| && Vouches(cfg, a'[i], user, Get(t'.balances, user))
    {
      if Receives(s.call, user) {
        assert Vouches(cfg, a'[|a|], user, Get(t'.balances, user));
      } else {
        assert Get(t'.balances, user) == Get(Moved(t.balances, s.call), user) <= Get(t.balances, user);
        var i :| 0 <= i < |a| && Vouches(cfg, a[i], user, Get(t.balances, user));
        assert Vouches(cfg, a'[i], user, Get(t'.balances, user));
      }
    }
  }

  /**
   * Whoever holds tokens after any run was verified at a step where it received
   * some, and holds no more than the cap in force at that step.
   */
  lemma {:induction false} HoldersAreVerifiedAndCapped(cfg: Config, steps: seq<Step>)
    ensures HoldersVouched(cfg, Accepted(cfg, steps), Run(cfg, steps))
  {
    if steps != [] {
      var front, last := steps[..|steps| - 1], steps[|steps| - 1];
      HoldersAreVerifiedAndCapped(cfg, front);
      RunStep(cfg, steps);
      if Accepted(cfg, steps) != Accepted(cfg, front) {
        HoldersStep(cfg, Accepted(cfg, front), Run(cfg, front), last, Run(cfg, steps));
      }
    }
  }

  ghost predicate PartiesVerified(a: seq<Step>) {
    forall i | 0 <= i < |a| ::
      && (!a[i].call.CallBurn? ==> Verified(a[i].env.users, a[i].call.to))
      && (a[i].call.CallTransfer? ==> Verified(a[i].env.users, a[i].call.from))
  }

  /** No mint reaches, and no transfer leaves or reaches, an account that is not verified at that moment. */
  lemma {:induction false} PartiesAreVerified(cfg: Config, steps: seq<Step>)
    ensures PartiesVerified(Accepted(cfg, steps))
  {
    if steps != [] {
      PartiesAreVerified(cfg, steps[..|steps| - 1]);
      RunStep(cfg, steps);
    }
  }
}
