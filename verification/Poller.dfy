/** The event poller: which chain events end up stored, over any run of polls and crashes. */
module Poller {
  import opened Prelude

  const EVENT_PAGE_LIMIT: nat := 100
  const INITIAL_LOOKBACK: nat := 2_000
  const MAX_RETENTION_LOOKBACK: nat := 17_000

  datatype EventType = RWA_CREATED | SHARES_BOUGHT | FUND_COLLECTED | DEBT_SETTLED | CLAIMED

  /** A contract event as the RPC serves it, its topics already decoded; `decodes` says whether they can be. */
  datatype ChainEvent = ChainEvent(id: string, ledger: nat, txHash: string, topics: seq<string>,
      amount: Option<string>, decodes: bool)

  datatype Parsed = Parsed(rwaId: string, eventType: EventType, investorAddress: Option<string>, amount: Option<string>)

  datatype Row = Row(rwaId: string, eventType: EventType, investorAddress: Option<string>, amount: Option<string>,
      txHash: string, ledger: nat)

  /** What makes two rows the same event for the poller. */
  datatype EventKey = EventKey(txHash: string, rwaId: string, eventType: EventType)

  function EventTypeOf(name: string): Option<EventType> {
    if name == "rwa_created" then Some(RWA_CREATED)
    else if name == "shares_bought" then Some(SHARES_BOUGHT)
    else if name == "fund_collected" then Some(FUND_COLLECTED)
    else if name == "debt_settled" then Some(DEBT_SETTLED)
    else if name == "claimed" then Some(CLAIMED)
    else None
  }

  function ParseEvent(e: ChainEvent): Option<Parsed> {
    if !e.decodes || |e.topics| < 2 then None
    else
      match EventTypeOf(e.topics[0])
      case None => None
      case Some(eventType) =>
        if e.topics[1] == "" then None
        else
          var named := |e.topics| > 2 && (eventType == SHARES_BOUGHT || eventType == CLAIMED);
          Some(Parsed(e.topics[1], eventType, if named then Some(e.topics[2]) else None, e.amount))
  }

  function RowOf(e: ChainEvent): Row
    requires ParseEvent(e).Some?
  {
    var p := ParseEvent(e).value;
    Row(p.rwaId, p.eventType, p.investorAddress, p.amount, e.txHash, e.ledger)
  }

  function KeyOf(r: Row): EventKey {
    EventKey(r.txHash, r.rwaId, r.eventType)
  }

  predicate Matches(r: Row, k: EventKey) {
    r.txHash == k.txHash && r.rwaId == k.rwaId && r.eventType == k.eventType
  }

  predicate Stored(rows: seq<Row>, k: EventKey) {
    exists i :: 0 <= i < |rows| && Matches(rows[i], k)
  }

  /** A cursor of zero and no cursor are the same to the poller. */
  datatype Store = Store(rows: seq<Row>, cursor: nat)

  const EMPTY: Store := Store([], 0)

  datatype Page = Page(events: seq<ChainEvent>, latestLedger: nat)

  /**
   * One round: the latest ledger as reported, the page the RPC served for the
   * start ledger, and how many of its events were handled before a crash; a
   * `stop` past the last event is a round that ran to its end.
   */
  datatype Poll = Poll(latest: nat, page: Page, stop: nat)

  function Max(a: int, b: int): int {
    if a < b then b else a
  }

  function MinStart(latest: nat): nat {
    Max(1, latest - MAX_RETENTION_LOOKBACK)
  }

  function StartLedger(cursor: nat, latest: nat): nat {
    Max(if cursor != 0 then cursor + 1 else Max(1, latest - INITIAL_LOOKBACK), MinStart(latest))
  }

  function Ingest(rows: seq<Row>, e: ChainEvent): seq<Row> {
    if ParseEvent(e).None? || Stored(rows, KeyOf(RowOf(e))) then rows else rows + [RowOf(e)]
  }

  function IngestAll(rows: seq<Row>, es: seq<ChainEvent>): seq<Row> {
    if es == [] then rows else Ingest(IngestAll(rows, es[..|es| - 1]), es[|es| - 1])
  }

  /** The highest ledger among the events, or `floor`. */
  function MaxLedger(floor: int, es: seq<ChainEvent>): int {
    if es == [] then floor else Max(MaxLedger(floor, es[..|es| - 1]), es[|es| - 1].ledger)
  }

  function NextCursor(cursor: nat, start: nat, page: Page): nat {
    var next := if |page.events| < EVENT_PAGE_LIMIT then page.latestLedger
        else Max(MaxLedger(start - 1, page.events), start);
    if cursor < next then next else cursor
  }

  function PollOnce(s: Store, p: Poll): Store {
    var start := StartLedger(s.cursor, p.latest);
    if p.latest < start then s
    else if |p.page.events| < p.stop then Store(IngestAll(s.rows, p.page.events), NextCursor(s.cursor, start, p.page))
    else s.(rows := IngestAll(s.rows, p.page.events[..p.stop]))
  }

  function Run(s: Store, polls: seq<Poll>): Store {
    if polls == [] then s else PollOnce(Run(s, polls[..|polls| - 1]), polls[|polls| - 1])
  }

  // ---------- where a round starts, and what it reads of an event ----------

  /** The ledger after the cursor, or 2,000 ledgers back while there is no cursor. */
  function Due(s: Store, latest: nat): nat {
    if s.cursor != 0 then s.cursor + 1 else if latest <= 2_000 then 1 else latest - 2_000
  }

  /** A round starts where it is due, unless that is more than 17,000 ledgers back. */
  function Begin(s: Store, latest: nat): nat {
    if s.cursor != 0 && s.cursor + 17_001 < latest then latest - 17_000 else Due(s, latest)
  }

  /** The start, exactly: a round is clamped, and skips ledgers, if and only if its cursor is too far behind. */
  lemma {:induction false} StartExactly(s: Store, latest: nat)
    ensures StartLedger(s.cursor, latest) == Begin(s, latest)
    ensures StartLedger(s.cursor, latest) == Due(s, latest) <==> s.cursor == 0 || latest <= s.cursor + 17_001
    ensures Due(s, latest) <= StartLedger(s.cursor, latest)
  {
  }

  predicate Completes(s: Store, p: Poll) {
    Begin(s, p.latest) <= p.latest && |p.page.events| < p.stop
  }

  predicate Named(t: EventType, name: string) {
    match t
    case RWA_CREATED => name == "rwa_created"
    case SHARES_BOUGHT => name == "shares_bought"
    case FUND_COLLECTED => name == "fund_collected"
    case DEBT_SETTLED => name == "debt_settled"
    case CLAIMED => name == "claimed"
  }

  /** The row says what the event says: its kind, its offering, its investor if it has one, and where it stood. */
  predicate Says(e: ChainEvent, r: Row) {
    && e.decodes && 2 <= |e.topics| && Named(r.eventType, e.topics[0])
    && r.rwaId == e.topics[1] != "" && r.amount == e.amount && r.txHash == e.txHash && r.ledger == e.ledger
    && r.investorAddress ==
         if (r.eventType == SHARES_BOUGHT || r.eventType == CLAIMED) && 2 < |e.topics| then Some(e.topics[2]) else None
  }

  /** An event is parsed if and only if some row says what it says, and then that row is stored for it. */
  lemma {:induction false} ParsedExactly(e: ChainEvent)
    ensures ParseEvent(e).Some? <==> exists r :: Says(e, r)
    ensures forall r :: Says(e, r) <==> ParseEvent(e).Some? && RowOf(e) == r
  {
    if ParseEvent(e).Some? {
      assert Says(e, RowOf(e));
    }
  }

  // ---------- rows are unique, the cursor only advances, and nothing stored is lost ----------

  ghost predicate Unique(rows: seq<Row>) {
    forall i, j | 0 <= i < j < |rows| ::
      !(rows[i].txHash == rows[j].txHash && rows[i].rwaId == rows[j].rwaId && rows[i].eventType == rows[j].eventType)
  }

  lemma {:induction false} IngestKeeps(rows: seq<Row>, es: seq<ChainEvent>)
    ensures rows <= IngestAll(rows, es)
    ensures Unique(rows) ==> Unique(IngestAll(rows, es))
    ensures forall i | 0 <= i < |es| && ParseEvent(es[i]).Some? :: Stored(IngestAll(rows, es), KeyOf(RowOf(es[i])))
  {
    if es != [] {
      var front, last := es[..|es| - 1], es[|es| - 1];
      IngestKeeps(rows, front);
      var before, after := IngestAll(rows, front), IngestAll(rows, es);
      assert before <= after;
      forall i | 0 <= i < |es| && ParseEvent(es[i]).Some? ensures Stored(after, KeyOf(RowOf(es[i]))) {
        if i < |front| {
          assert front[i] == es[i];
          StoredStays(before, after, KeyOf(RowOf(es[i])));
        } else if after != before {
          assert Matches(after[|before|], KeyOf(RowOf(last)));
        }
      }
    }
  }

  lemma {:induction false} StoredStays(rows: seq<Row>, rows': seq<Row>, k: EventKey)
    requires Stored(rows, k) && rows <= rows'
    ensures Stored(rows', k)
  {
    var i :| 0 <= i < |rows| && Matches(rows[i], k);
    assert rows'[i] == rows[i];
  }

  /** In every run, crashes included: no two rows share a key, the cursor never goes back, no row is lost. */
  lemma {:induction false} RowsUniqueCursorMonotone(s: Store, polls: seq<Poll>, k: nat)
    requires Unique(s.rows) && k <= |polls|
    ensures Unique(Run(s, polls).rows)
    ensures Run(s, polls[..k]).cursor <= Run(s, polls).cursor && Run(s, polls[..k]).rows <= Run(s, polls).rows
    decreases |polls|
  {
    if polls == [] {
      assert polls[..k] == polls;
    } else {
      var front, last := polls[..|polls| - 1], polls[|polls| - 1];
      RowsUniqueCursorMonotone(s, front, if k < |polls| then k else 0);
      IngestKeeps(Run(s, front).rows, last.page.events);
      if |last.page.events| >= last.stop {
        IngestKeeps(Run(s, front).rows, last.page.events[..last.stop]);
      }
      if k < |polls| {
        assert front[..k] == polls[..k];
      } else {
        assert polls[..k] == polls;
      }
    }
  }

  // ---------- the chain and what the RPC serves of it ----------

  ghost predicate Sorted(log: seq<ChainEvent>) {
    forall i, j | 0 <= i < j < |log| :: log[i].ledger <= log[j].ledger
  }

  /** The page is the stretch of the log that starts at `lo`, the first event not before `start`. */
  ghost predicate Stretch(log: seq<ChainEvent>, start: nat, page: Page, lo: nat) {
    && lo + |page.events| <= |log|
    && page.events == log[lo..lo + |page.events|]
    && (forall i | 0 <= i < lo :: log[i].ledger < start)
    && (forall i | lo <= i < |log| :: start <= log[i].ledger)
  }

  /** A short page is complete up to the ledger it reports. */
  ghost predicate CompleteToLatest(log: seq<ChainEvent>, page: Page, hi: nat) {
    |page.events| < 100 ==> forall i | hi <= i < |log| :: page.latestLedger < log[i].ledger
  }

  /** A parseable event that a full page leaves out, although it belongs to the page's last ledger. */
  ghost predicate LeftOut(log: seq<ChainEvent>, page: Page, lo: nat, i: nat) {
    && 100 <= |page.events| && lo + |page.events| <= i < |log|
    && ParseEvent(log[i]).Some? && log[i].ledger <= page.events[|page.events| - 1].ledger
  }

  /** Every parseable event from ledger `from` up to ledger `to` has its key stored. */
  ghost predicate Complete(log: seq<ChainEvent>, rows: seq<Row>, from: nat, to: nat) {
    forall i | 0 <= i < |log| && ParseEvent(log[i]).Some? && from <= log[i].ledger <= to ::
      Stored(rows, KeyOf(RowOf(log[i])))
  }

  lemma {:induction false} MaxLedgerOf(log: seq<ChainEvent>, lo: nat, hi: nat, floor: int)
    requires Sorted(log) && lo < hi <= |log| && floor < log[lo].ledger
    ensures MaxLedger(floor, log[lo..hi]) == log[hi - 1].ledger
    decreases hi - lo
  {
    var es := log[lo..hi];
    assert es[..|es| - 1] == log[lo..hi - 1];
    if lo + 1 < hi {
      MaxLedgerOf(log, lo, hi - 1, floor);
    }
  }

  /** What lies between the start and the next cursor is on the page, or left out by it. */
  lemma {:induction false} OnPage(log: seq<ChainEvent>, cursor: nat, start: nat, page: Page, lo: nat, i: nat)
    requires Sorted(log) && 0 < start && cursor < start
    requires Stretch(log, start, page, lo) && CompleteToLatest(log, page, lo + |page.events|)
    requires i < |log| && ParseEvent(log[i]).Some? && start <= log[i].ledger <= NextCursor(cursor, start, page)
    ensures lo <= i < lo + |page.events| || LeftOut(log, page, lo, i)
  {
    if 100 <= |page.events| {
      MaxLedgerOf(log, lo, lo + |page.events|, start - 1);
    }
  }

  /** All rows stem from events of the log before position `lo`. */
  ghost predicate StoredBefore(log: seq<ChainEvent>, rows: seq<Row>, lo: nat) {
    forall r | r in rows :: exists i :: 0 <= i < lo && i < |log| && ParseEvent(log[i]).Some? && RowOf(log[i]) == r
  }

  lemma {:induction false} IngestedBefore(log: seq<ChainEvent>, rows: seq<Row>, lo: nat, hi: nat, bound: nat)
    requires lo <= hi <= bound <= |log| && StoredBefore(log, rows, bound)
    ensures StoredBefore(log, IngestAll(rows, log[lo..hi]), bound)
    decreases hi - lo
  {
    if lo < hi {
      var es := log[lo..hi];
      assert es[..|es| - 1] == log[lo..hi - 1] && es[|es| - 1] == log[hi - 1];
      IngestedBefore(log, rows, lo, hi - 1, bound);
    }
  }

  /** A round whose page, if it fetches one, is what the chain holds. */
  ghost predicate Honest(log: seq<ChainEvent>, s: Store, p: Poll) {
    Begin(s, p.latest) <= p.latest ==>
      exists lo: nat ::
        Stretch(log, Begin(s, p.latest), p.page, lo) && CompleteToLatest(log, p.page, lo + |p.page.events|)
  }

  /** A parseable event that a clamped round skips, because its ledger is too far back. */
  predicate Skipped(log: seq<ChainEvent>, s: Store, p: Poll, i: nat) {
    && i < |log| && ParseEvent(log[i]).Some?
    && s.cursor != 0 && s.cursor < log[i].ledger && log[i].ledger + 17_000 < p.latest
  }

  ghost predicate Misses(log: seq<ChainEvent>, s: Store, p: Poll, lo: nat, i: nat) {
    LeftOut(log, p.page, lo, i) || Skipped(log, s, p, i)
  }

  /** A round that ran to its end and missed an event that no earlier, cut-off round had stored. */
  ghost predicate Loses(log: seq<ChainEvent>, s: Store, p: Poll) {
    Completes(s, p) && exists lo: nat, i: nat ::
      && Stretch(log, Begin(s, p.latest), p.page, lo) && Misses(log, s, p, lo, i)
      && !Stored(s.rows, KeyOf(RowOf(log[i])))
  }

  ghost predicate AllHonest(log: seq<ChainEvent>, polls: seq<Poll>) {
    forall k | 0 <= k < |polls| :: Honest(log, Run(EMPTY, polls[..k]), polls[k])
  }

  ghost predicate NoneLoses(log: seq<ChainEvent>, polls: seq<Poll>) {
    forall k | 0 <= k < |polls| :: !Loses(log, Run(EMPTY, polls[..k]), polls[k])
  }

  /** The start ledger of the round that first set the cursor; until then, of nothing. */
  function Origin(s: Store, polls: seq<Poll>): nat {
    if polls == [] then 0
    else
      var front := polls[..|polls| - 1];
      if Run(s, front).cursor != 0 then Origin(s, front)
      else Due(EMPTY, polls[|polls| - 1].latest)
  }

  lemma {:induction false} NotLost(log: seq<ChainEvent>, s: Store, p: Poll, lo: nat, i: nat)
    requires Completes(s, p) && !Loses(log, s, p) && Stretch(log, Begin(s, p.latest), p.page, lo)
    requires i < |log| && ParseEvent(log[i]).Some? && Misses(log, s, p, lo, i)
    ensures Stored(PollOnce(s, p).rows, KeyOf(RowOf(log[i])))
  {
    StartExactly(s, p.latest);
    IngestKeeps(s.rows, p.page.events);
    StoredStays(s.rows, PollOnce(s, p).rows, KeyOf(RowOf(log[i])));
  }

  /** A round that loses nothing covers everything from its start to the next cursor. */
  lemma {:induction false} PageCovers(log: seq<ChainEvent>, s: Store, p: Poll, lo: nat, i: nat)
    requires Sorted(log) && Completes(s, p) && !Loses(log, s, p)
    requires Stretch(log, Begin(s, p.latest), p.page, lo) && CompleteToLatest(log, p.page, lo + |p.page.events|)
    requires i < |log| && ParseEvent(log[i]).Some? && Begin(s, p.latest) <= log[i].ledger <= PollOnce(s, p).cursor
    ensures Stored(PollOnce(s, p).rows, KeyOf(RowOf(log[i])))
  {
    StartExactly(s, p.latest);
    OnPage(log, s.cursor, Begin(s, p.latest), p.page, lo, i);
    if lo <= i < lo + |p.page.events| {
      IngestKeeps(s.rows, p.page.events);
      assert p.page.events[i - lo] == log[i];
    } else {
      NotLost(log, s, p, lo, i);
    }
  }

  /** Neither does a cut-off round lose a row, nor one that has nothing to read. */
  lemma {:induction false} RowsStay(s: Store, p: Poll)
    ensures s.rows <= PollOnce(s, p).rows && s.cursor <= PollOnce(s, p).cursor
    ensures !Completes(s, p) ==> PollOnce(s, p).cursor == s.cursor
  {
    StartExactly(s, p.latest);
    IngestKeeps(s.rows, p.page.events);
    if p.stop <= |p.page.events| {
      IngestKeeps(s.rows, p.page.events[..p.stop]);
    }
  }

  lemma {:induction false} StepComplete(log: seq<ChainEvent>, s: Store, p: Poll, origin: nat)
    requires Sorted(log) && Honest(log, s, p) && !Loses(log, s, p)
    requires s.cursor != 0 ==> Complete(log, s.rows, origin, s.cursor)
    ensures PollOnce(s, p).cursor != 0 ==>
      Complete(log, PollOnce(s, p).rows, if s.cursor != 0 then origin else Due(EMPTY, p.latest), PollOnce(s, p).cursor)
  {
    var from, s' := if s.cursor != 0 then origin else Due(EMPTY, p.latest), PollOnce(s, p);
    RowsStay(s, p);
    forall i | 0 <= i < |log| && ParseEvent(log[i]).Some? && s'.cursor != 0 && from <= log[i].ledger <= s'.cursor
      ensures Stored(s'.rows, KeyOf(RowOf(log[i])))
    {
      if s.cursor != 0 && log[i].ledger <= s.cursor {
        StoredStays(s.rows, s'.rows, KeyOf(RowOf(log[i])));
      } else {
        BeyondCursor(log, s, p, i);
      }
    }
  }

  /** What lies between the old cursor and the new is stored by a round that loses nothing. */
  lemma {:induction false} BeyondCursor(log: seq<ChainEvent>, s: Store, p: Poll, i: nat)
    requires Sorted(log) && Honest(log, s, p) && Completes(s, p) && !Loses(log, s, p)
    requires i < |log| && ParseEvent(log[i]).Some?
    requires (if s.cursor != 0 then s.cursor + 1 else Due(EMPTY, p.latest)) <= log[i].ledger <= PollOnce(s, p).cursor
    ensures Stored(PollOnce(s, p).rows, KeyOf(RowOf(log[i])))
  {
    var lo: nat :| Stretch(log, Begin(s, p.latest), p.page, lo) && CompleteToLatest(log, p.page, lo + |p.page.events|);
    if Begin(s, p.latest) <= log[i].ledger {
      PageCovers(log, s, p, lo, i);
    } else {
      assert Skipped(log, s, p, i);
      NotLost(log, s, p, lo, i);
    }
  }

  lemma {:induction false} ReadFromChain(log: seq<ChainEvent>, rows: seq<Row>, es: seq<ChainEvent>, lo: nat, n: nat)
    requires n <= |es| && lo + |es| <= |log| && es == log[lo..lo + |es|] && StoredBefore(log, rows, |log|)
    ensures StoredBefore(log, IngestAll(rows, es[..n]), |log|)
  {
    assert es[..n] == log[lo..lo + n];
    IngestedBefore(log, rows, lo, lo + n, |log|);
  }

  /** A round stores rows of chain events only. */
  lemma {:induction false} StepFromChain(log: seq<ChainEvent>, s: Store, p: Poll)
    requires Honest(log, s, p) && StoredBefore(log, s.rows, |log|)
    ensures StoredBefore(log, PollOnce(s, p).rows, |log|)
  {
    var start, es := Begin(s, p.latest), p.page.events;
    if start <= p.latest {
      var lo: nat :| Stretch(log, start, p.page, lo);
      if p.stop <= |es| {
        ReadFromChain(log, s.rows, es, lo, p.stop);
      } else {
        ReadFromChain(log, s.rows, es, lo, |es|);
        assert es[..|es|] == es;
      }
    }
  }

  lemma {:induction false} FrontHonest(log: seq<ChainEvent>, polls: seq<Poll>)
    requires polls != [] && AllHonest(log, polls)
    ensures AllHonest(log, polls[..|polls| - 1])
    ensures Honest(log, Run(EMPTY, polls[..|polls| - 1]), polls[|polls| - 1])
    ensures NoneLoses(log, polls) ==>
      NoneLoses(log, polls[..|polls| - 1]) && !Loses(log, Run(EMPTY, polls[..|polls| - 1]), polls[|polls| - 1])
  {
    var front := polls[..|polls| - 1];
    assert forall k | 0 <= k < |front| :: front[..k] == polls[..k] && front[k] == polls[k];
  }

  /** No event is stored twice, and every row is the row of an event of the chain, over any run of honest rounds. */
  lemma {:induction false} RowsFromChain(log: seq<ChainEvent>, polls: seq<Poll>)
    requires AllHonest(log, polls)
    ensures Unique(Run(EMPTY, polls).rows) && StoredBefore(log, Run(EMPTY, polls).rows, |log|)
  {
    RowsUniqueCursorMonotone(EMPTY, polls, 0);
    if polls != [] {
      FrontHonest(log, polls);
      RowsFromChain(log, polls[..|polls| - 1]);
      StepFromChain(log, Run(EMPTY, polls[..|polls| - 1]), polls[|polls| - 1]);
    }
  }

  /** Every row says what some event of the chain says, and no two rows are of one event. */
  lemma {:induction false} RowsSayWhatHappened(log: seq<ChainEvent>, polls: seq<Poll>)
    requires AllHonest(log, polls)
    ensures Unique(Run(EMPTY, polls).rows)
    ensures forall r | r in Run(EMPTY, polls).rows :: exists i :: 0 <= i < |log| && Says(log[i], r)
  {
    RowsFromChain(log, polls);
    forall r | r in Run(EMPTY, polls).rows ensures exists i :: 0 <= i < |log| && Says(log[i], r) {
      var i :| 0 <= i < |log| && ParseEvent(log[i]).Some? && RowOf(log[i]) == r;
      ParsedExactly(log[i]);
      assert Says(log[i], r);
    }
  }

  /**
   * Completeness under crashes: after any run of honest rounds that lose nothing,
   * each cut off at any point or not, every parseable event between the ledger of
   * the round that first set the cursor and the cursor is stored.
   */
  lemma {:induction false} PollerIsComplete(log: seq<ChainEvent>, polls: seq<Poll>)
    requires Sorted(log) && AllHonest(log, polls) && NoneLoses(log, polls)
    ensures var s := Run(EMPTY, polls);
      s.cursor != 0 ==> Complete(log, s.rows, Origin(EMPTY, polls), s.cursor)
  {
    if polls != [] {
      var front, last := polls[..|polls| - 1], polls[|polls| - 1];
      FrontHonest(log, polls);
      PollerIsComplete(log, front);
      StepComplete(log, Run(EMPTY, front), last, Origin(EMPTY, front));
    }
  }

  // ---------- what one round stores, and where it leaves the cursor ----------

  /** Every parseable event a round got to is stored, whether or not the round ran to its end. */
  lemma {:induction false} ReadIsStored(s: Store, p: Poll, i: nat)
    requires Begin(s, p.latest) <= p.latest && i < p.stop && i < |p.page.events| && ParseEvent(p.page.events[i]).Some?
    ensures Stored(PollOnce(s, p).rows, KeyOf(RowOf(p.page.events[i])))
  {
    StartExactly(s, p.latest);
    if p.stop <= |p.page.events| {
      IngestKeeps(s.rows, p.page.events[..p.stop]);
      assert p.page.events[..p.stop][i] == p.page.events[i];
    } else {
      IngestKeeps(s.rows, p.page.events);
    }
  }

  /**
   * The cursor, exactly: a round that ran to its end moves it up to the ledger the RPC
   * reports, after a short page, or to the ledger of the last event, after a full
   * one; a round that was cut off, or had nothing to read, leaves it.
   */
  lemma {:induction false} CursorExactly(log: seq<ChainEvent>, s: Store, p: Poll, lo: nat)
    requires Sorted(log) && Stretch(log, Begin(s, p.latest), p.page, lo)
    ensures var (cursor, es) := (PollOnce(s, p).cursor, p.page.events);
      if !Completes(s, p) then cursor == s.cursor
      else if 100 <= |es| then cursor == es[|es| - 1].ledger
      else cursor == if s.cursor < p.page.latestLedger then p.page.latestLedger else s.cursor
  {
    StartExactly(s, p.latest);
    if 100 <= |p.page.events| {
      MaxLedgerOf(log, lo, lo + |p.page.events|, Begin(s, p.latest) - 1);
    }
  }

  // ---------- a full page that ends inside a ledger ----------

  /** No two parseable events of the log share a key. */
  ghost predicate DistinctKeys(log: seq<ChainEvent>) {
    forall i, j | 0 <= i < j < |log| && ParseEvent(log[i]).Some? && ParseEvent(log[j]).Some? ::
      KeyOf(RowOf(log[i])) != KeyOf(RowOf(log[j]))
  }

  /** A key that is neither stored nor on the page is not stored by reading the page. */
  lemma {:induction false} NotIngested(rows: seq<Row>, es: seq<ChainEvent>, key: EventKey)
    requires !Stored(rows, key)
    requires forall i | 0 <= i < |es| && ParseEvent(es[i]).Some? :: KeyOf(RowOf(es[i])) != key
    ensures !Stored(IngestAll(rows, es), key)
  {
    if es != [] {
      NotIngested(rows, es[..|es| - 1], key);
    }
  }

  /** A round does not store an event that its page does not hold. */
  lemma {:induction false} NotRead(log: seq<ChainEvent>, s: Store, p: Poll, lo: nat, i: nat)
    requires DistinctKeys(log) && Stretch(log, Begin(s, p.latest), p.page, lo)
    requires i < |log| && ParseEvent(log[i]).Some? && !(lo <= i < lo + |p.page.events|)
    requires !Stored(s.rows, KeyOf(RowOf(log[i])))
    ensures !Stored(PollOnce(s, p).rows, KeyOf(RowOf(log[i])))
  {
    var es, key := p.page.events, KeyOf(RowOf(log[i]));
    forall j | 0 <= j < |es| && ParseEvent(es[j]).Some? ensures KeyOf(RowOf(es[j])) != key {
      assert es[j] == log[lo + j];
    }
    NotIngested(s.rows, es, key);
    if p.stop <= |es| {
      NotIngested(s.rows, es[..p.stop], key);
    }
  }

  lemma {:induction false} LaterNotStored(log: seq<ChainEvent>, rows: seq<Row>, hi: nat, i: nat)
    requires DistinctKeys(log) && StoredBefore(log, rows, hi) && hi <= i < |log| && ParseEvent(log[i]).Some?
    ensures !Stored(rows, KeyOf(RowOf(log[i])))
  {
    forall k | 0 <= k < |rows| ensures !Matches(rows[k], KeyOf(RowOf(log[i]))) {
      assert rows[k] in rows;
      var j :| 0 <= j < hi && j < |log| && ParseEvent(log[j]).Some? && RowOf(log[j]) == rows[k];
    }
  }

  /**
   * A round with a full page, exactly: it leaves everything up to the new cursor
   * stored if and only if no parseable event of the page's last ledger comes after
   * the page. The rows there before may stem from the page itself, read by a round
   * that was cut off inside it.
   */
  lemma {:induction false} FullPageExactly(log: seq<ChainEvent>, s: Store, p: Poll, lo: nat)
    requires Sorted(log) && DistinctKeys(log) && Completes(s, p) && |p.page.events| == 100
    requires Stretch(log, Begin(s, p.latest), p.page, lo)
        && StoredBefore(log, s.rows, lo + 100)
    ensures var (start, last, hi) := (Begin(s, p.latest), p.page.events[99].ledger,
        lo + 100);
      && PollOnce(s, p).cursor == last
      && (Complete(log, PollOnce(s, p).rows, start, last) <==>
            forall i | hi <= i < |log| && ParseEvent(log[i]).Some? :: last < log[i].ledger)
  {
    var start, hi := Begin(s, p.latest), lo + 100;
    var last, rows := p.page.events[99].ledger, PollOnce(s, p).rows;
    MaxLedgerOf(log, lo, hi, start - 1);
    IngestKeeps(s.rows, p.page.events);
    IngestedBefore(log, s.rows, lo, hi, hi);
    forall i | hi <= i < |log| && ParseEvent(log[i]).Some? && log[i].ledger <= last
      ensures !Complete(log, rows, start, last)
    {
      LaterNotStored(log, rows, hi, i);
    }
    forall i | lo <= i < hi && ParseEvent(log[i]).Some? ensures Stored(rows, KeyOf(RowOf(log[i]))) {
      assert p.page.events[i - lo] == log[i];
    }
  }

  // ---------- what a run loses ----------

  /** The RPC serves a page only up to a ledger that is not before the start it was asked for. */
  predicate InWindow(s: Store, p: Poll) {
    var start := Begin(s, p.latest);
    start <= p.latest ==> start <= p.page.latestLedger
  }

  ghost predicate AllInWindow(polls: seq<Poll>) {
    forall k | 0 <= k < |polls| :: InWindow(Run(EMPTY, polls[..k]), polls[k])
  }

  lemma {:induction false} FrontInWindow(polls: seq<Poll>)
    requires polls != [] && AllInWindow(polls)
    ensures AllInWindow(polls[..|polls| - 1]) && InWindow(Run(EMPTY, polls[..|polls| - 1]), polls[|polls| - 1])
  {
    var front := polls[..|polls| - 1];
    assert forall k | 0 <= k < |front| :: front[..k] == polls[..k] && front[k] == polls[k];
  }

  lemma {:induction false} OriginWithinCursor(polls: seq<Poll>)
    requires AllInWindow(polls)
    ensures Run(EMPTY, polls).cursor != 0 ==> Origin(EMPTY, polls) <= Run(EMPTY, polls).cursor
  {
    if polls != [] {
      FrontInWindow(polls);
      OriginWithinCursor(polls[..|polls| - 1]);
      RowsUniqueCursorMonotone(EMPTY, polls, |polls| - 1);
    }
  }

  /** The event is left behind: the cursor has passed it, and it is not stored. */
  predicate Behind(log: seq<ChainEvent>, s: Store, i: nat)
    requires i < |log| && ParseEvent(log[i]).Some?
  {
    log[i].ledger <= s.cursor && !Stored(s.rows, KeyOf(RowOf(log[i])))
  }

  lemma {:induction false} LostNow(log: seq<ChainEvent>, s: Store, p: Poll, lo: nat, i: nat)
    requires Sorted(log) && DistinctKeys(log) && Completes(s, p) && InWindow(s, p)
    requires Stretch(log, Begin(s, p.latest), p.page, lo) && i < |log| && ParseEvent(log[i]).Some?
    requires Misses(log, s, p, lo, i) && !Stored(s.rows, KeyOf(RowOf(log[i])))
    ensures (if s.cursor != 0 then s.cursor else Due(EMPTY, p.latest)) <= log[i].ledger
    ensures Behind(log, PollOnce(s, p), i)
  {
    StartExactly(s, p.latest);
    if LeftOut(log, p.page, lo, i) {
      MaxLedgerOf(log, lo, lo + |p.page.events|, Begin(s, p.latest) - 1);
    }
    NotRead(log, s, p, lo, i);
  }

  /** What is left behind is never stored later: all later rounds start beyond its ledger. */
  lemma {:induction false} LostLater(log: seq<ChainEvent>, s: Store, p: Poll, i: nat)
    requires DistinctKeys(log) && Honest(log, s, p) && s.cursor != 0
    requires i < |log| && ParseEvent(log[i]).Some? && Behind(log, s, i)
    ensures Behind(log, PollOnce(s, p), i)
  {
    if Begin(s, p.latest) <= p.latest {
      var lo: nat :| Stretch(log, Begin(s, p.latest), p.page, lo);
      NotRead(log, s, p, lo, i);
    }
  }

  lemma {:induction false} LostForever(log: seq<ChainEvent>, polls: seq<Poll>, k: nat, lo: nat, i: nat)
    requires Sorted(log) && DistinctKeys(log) && AllHonest(log, polls) && AllInWindow(polls) && k < |polls|
    requires var (s, p) := (Run(EMPTY, polls[..k]), polls[k]);
      && Completes(s, p) && Stretch(log, Begin(s, p.latest), p.page, lo) && Misses(log, s, p, lo, i)
      && i < |log| && ParseEvent(log[i]).Some? && !Stored(s.rows, KeyOf(RowOf(log[i])))
    ensures Behind(log, Run(EMPTY, polls), i) && Origin(EMPTY, polls) <= log[i].ledger
    ensures Run(EMPTY, polls).cursor != 0
    decreases |polls|
  {
    var front, last := polls[..|polls| - 1], polls[|polls| - 1];
    FrontHonest(log, polls);
    FrontInWindow(polls);
    RowsUniqueCursorMonotone(EMPTY, polls, |front|);
    if k < |front| {
      assert front[..k] == polls[..k] && front[k] == polls[k];
      LostForever(log, front, k, lo, i);
      LostLater(log, Run(EMPTY, front), last, i);
    } else {
      assert polls[..k] == front;
      OriginWithinCursor(front);
      LostNow(log, Run(EMPTY, front), last, lo, i);
    }
  }

  /** A run in which a round lost an event is not complete at its end. */
  lemma {:induction false} LossShows(log: seq<ChainEvent>, polls: seq<Poll>, k: nat)
    requires Sorted(log) && DistinctKeys(log) && AllHonest(log, polls) && AllInWindow(polls) && k < |polls|
    requires Loses(log, Run(EMPTY, polls[..k]), polls[k])
    ensures !Complete(log, Run(EMPTY, polls).rows, Origin(EMPTY, polls), Run(EMPTY, polls).cursor)
  {
    var s, p := Run(EMPTY, polls[..k]), polls[k];
    var lo: nat, i: nat :|
      && Stretch(log, Begin(s, p.latest), p.page, lo) && Misses(log, s, p, lo, i)
      && !Stored(s.rows, KeyOf(RowOf(log[i])));
    LostForever(log, polls, k, lo, i);
    assert Behind(log, Run(EMPTY, polls), i);
  }

  /**
   * Completeness, exactly: over any run of honest rounds, crashes and clamped starts
   * included, every parseable event up to the cursor is stored if and only if no
   * round lost one, by reading a full page to its end and leaving out an event of the
   * page's last ledger, or by running to its end from more than 17,000 ledgers behind.
   */
  lemma {:induction false} PollerCompleteExactly(log: seq<ChainEvent>, polls: seq<Poll>)
    requires Sorted(log) && DistinctKeys(log) && AllHonest(log, polls) && AllInWindow(polls)
    requires Run(EMPTY, polls).cursor != 0
    ensures var s := Run(EMPTY, polls);
      Complete(log, s.rows, Origin(EMPTY, polls), s.cursor) <==> NoneLoses(log, polls)
  {
    if NoneLoses(log, polls) {
      PollerIsComplete(log, polls);
    } else {
      var k: nat :| k < |polls| && Loses(log, Run(EMPTY, polls[..k]), polls[k]);
      LossShows(log, polls, k);
    }
  }

  /** A ledger with 101 purchases, in as many transactions. */
  function BusyLedger(): seq<ChainEvent> {
    seq(101, i requires 0 <= i < 101 => ChainEvent(seq(i, _ => 'e'), 7, seq(i, _ => 'x'), ["shares_bought", "A"],
        None, true))
  }

  lemma {:induction false} BusyLedgerKeys(log: seq<ChainEvent>)
    requires log == BusyLedger()
    ensures DistinctKeys(log) && Sorted(log)
  {
    forall i, j | 0 <= i < j < |log| ensures log[i].txHash != log[j].txHash {
      assert |log[i].txHash| == i && |log[j].txHash| == j;
    }
  }

  lemma {:induction false} BusyLedgerPage(log: seq<ChainEvent>, page: Page)
    requires log == BusyLedger() && page == Page(log[..100], 7)
    ensures Begin(EMPTY, 7) == 1 && Stretch(log, 1, page, 0)
  {
    assert log[0..100] == log[..100];
  }

  lemma {:induction false} BusyLedgerCursor(log: seq<ChainEvent>, p: Poll)
    requires log == BusyLedger() && p == Poll(7, Page(log[..100], 7), 101)
    ensures PollOnce(EMPTY, p).cursor == 7
  {
    BusyLedgerKeys(log);
    BusyLedgerPage(log, p.page);
    FullPageExactly(log, EMPTY, p, 0);
  }

  /** The first poll of such a chain stores 100 of them, and moves on past the last. */
  lemma {:induction false} BusyLedgerLosesAnEvent(log: seq<ChainEvent>, p: Poll)
    requires log == BusyLedger() && p == Poll(7, Page(log[..100], 7), 101)
    ensures PollOnce(EMPTY, p).cursor == 7
    ensures ParseEvent(log[100]).Some? && !Stored(PollOnce(EMPTY, p).rows, KeyOf(RowOf(log[100])))
  {
    BusyLedgerCursor(log, p);
    BusyLedgerKeys(log);
    BusyLedgerPage(log, p.page);
    NotRead(log, EMPTY, p, 0, 100);
  }
}

/** The poller service and its store, written row by row. */
module EventsService {
  import opened Prelude
  import opened Poller

  /** How far the events of one contract have been read, and the last event a round ended with. */
  datatype EventListenerCursor = EventListenerCursor(lastLedger: nat, lastEventId: Option<string>)

  /** Two database tables: the stored rows, and a cursor for each polled contract. */
  class RwaRepository {
    var rows: seq<Row>
    var cursors: map<string, EventListenerCursor>

    constructor ()
      ensures rows == [] && cursors == map[]
    {
      rows, cursors := [], map[];
    }

    method EventExists(key: EventKey) returns (found: bool)
      ensures found == Stored(rows, key)
    {
      var count := 0;
      for i := 0 to |rows|
        invariant 0 <= count
        invariant 0 < count <==> exists k :: 0 <= k < i && Matches(rows[k], key)
      {
        if Matches(rows[i], key) { count := count + 1; }
      }
      return count > 0;
    }

    method CreateEvent(row: Row)
      modifies `rows
      ensures rows == old(rows) + [row]
    {
      rows := rows + [row];
    }

    /** The last ledger that was read; none is zero. */
    function LastLedger(contractId: string): nat
      reads this
    { if contractId in cursors then cursors[contractId].lastLedger else 0 }

    /** Creates or updates one cursor; an update without an event id keeps the one stored. */
    method UpsertCursor(contractId: string, lastLedger: nat, lastEventId: Option<string>)
      modifies `cursors
      ensures LastLedger(contractId) == lastLedger
      ensures contractId in cursors && cursors - {contractId} == old(cursors) - {contractId}
      ensures cursors[contractId].lastEventId ==
        if lastEventId == None && contractId in old(cursors) then old(cursors[contractId].lastEventId) else lastEventId
    {
      if contractId in cursors && lastEventId == None {
        cursors := cursors[contractId := cursors[contractId].(lastLedger := lastLedger)];
      } else {
        cursors := cursors[contractId := EventListenerCursor(lastLedger, lastEventId)];
      }
    }
  }

  class Service {
    const rwaRepository: RwaRepository
    const contractId: string

    constructor (rwaRepository: RwaRepository, contractId: string)
      ensures this.rwaRepository == rwaRepository && this.contractId == contractId
    {
      this.rwaRepository, this.contractId := rwaRepository, contractId;
    }

    ghost function Storage(): Store
      reads rwaRepository
    { Store(rwaRepository.rows, rwaRepository.LastLedger(contractId)) }

    /** Stores the events of a page one by one, up to `stop` of them; counts the new rows, and the highest ledger. */
    method StorePage(events: seq<ChainEvent>, stop: nat, floor: int) returns (processed: nat, maxLedger: int)
      modifies rwaRepository`rows
      ensures var read := if |events| < stop then events else events[..stop];
        && maxLedger == MaxLedger(floor, read)
        && rwaRepository.rows == IngestAll(old(rwaRepository.rows), read)
      ensures |rwaRepository.rows| == |old(rwaRepository.rows)| + processed
    {
      processed, maxLedger := 0, floor;
      var i := 0;
      while i < |events| && i < stop
        invariant 0 <= i <= |events| && i <= stop
        invariant maxLedger == MaxLedger(floor, events[..i])
        invariant rwaRepository.rows == IngestAll(old(rwaRepository.rows), events[..i])
        invariant |rwaRepository.rows| == |old(rwaRepository.rows)| + processed
      {
        assert events[..i + 1][..i] == events[..i];
        var event := events[i];
        i := i + 1;
        if maxLedger < event.ledger { maxLedger := event.ledger; }
        var parsed := ParseEvent(event);
        if parsed.None? { continue; }
        var key := EventKey(event.txHash, parsed.value.rwaId, parsed.value.eventType);
        var alreadyStored := rwaRepository.EventExists(key);
        if alreadyStored { continue; }
        rwaRepository.CreateEvent(Row(parsed.value.rwaId, parsed.value.eventType, parsed.value.investorAddress,
                                      parsed.value.amount, event.txHash, event.ledger));
        processed := processed + 1;
      }
      assert i == |events| ==> events[..i] == events;
    }

    /** One round, which the process may not survive past `p.stop` events; true if it stored anything. */
    method PollOnce(p: Poll) returns (hadEvents: bool)
      modifies rwaRepository
      ensures Storage() == Poller.PollOnce(old(Storage()), p)
      ensures rwaRepository.cursors - {contractId} == old(rwaRepository.cursors) - {contractId}
      ensures Completes(old(Storage()), p) ==> (hadEvents <==> old(rwaRepository.rows) != rwaRepository.rows)
    {
      var cursor := rwaRepository.LastLedger(contractId);
      var startLedger := if cursor != 0 then cursor + 1 else Max(1, p.latest - INITIAL_LOOKBACK);
      var minStart := Max(1, p.latest - MAX_RETENTION_LOOKBACK);
      if startLedger < minStart {
        startLedger := minStart;
      }
      if p.latest < startLedger { return false; }
      var events := p.page.events;
      var processed, maxLedger := StorePage(events, p.stop, startLedger - 1);
      if p.stop <= |events| { return processed > 0; }
      IngestKeeps(old(rwaRepository.rows), events);
      var drained := |events| < EVENT_PAGE_LIMIT;
      var nextLedger := if drained then p.page.latestLedger else Max(maxLedger, startLedger);
      if cursor < nextLedger {
        var lastEventId := if events == [] then None else Some(events[|events| - 1].id);
        rwaRepository.UpsertCursor(contractId, nextLedger, lastEventId);
      }
      return processed > 0;
    }
  }
}
