/**
 The per-period signal machine of the complete-set bot: each poll looks for a
 long (both asks below a dollar) or a short (both bids above it), and trades
 it unless the period's trade cap or the cooldown holds it back.
 */
module Signals {
  import opened Common
  import opened Decimals
  import opened CompleteSet

  // ----- configuration -----

  datatype Mode = Paper | Live | Shadow

  const I64_LIMIT: int := 0x8000_0000_0000_0000

  /** An unsigned 64-bit setting as a configuration file can hold it: its integers are signed. */
  type FileNat = n: int | 0 <= n < I64_LIMIT

  /** The configuration file, with its decimals parsed or found unreadable. */
  datatype RawConfig = RawConfig(
    mode: string, eoaMode: Option<bool>, assetKnown: bool,
    maxLongAsk: Option<real>, minShortBid: Option<real>, feeBuffer: Option<real>, pairsPerTrade: Option<real>,
    pollIntervalMs: FileNat, startPct: real, endPct: real, durations: seq<nat>,
    cooldownSecs: FileNat, maxTrades: nat,
    longEnabled: bool, shortEnabled: bool, mergeEnabled: bool, splitEnabled: bool)

  datatype Config = Config(
    mode: Mode, eoaMode: bool, startPct: real, endPct: real, maxLongAsk: real, minShortBid: real, feeBuffer: real,
    cooldownSecs: FileNat, pairsPerTrade: real, maxTrades: nat,
    longEnabled: bool, shortEnabled: bool, mergeEnabled: bool, splitEnabled: bool)

  datatype ConfigError =
    | InvalidMode | UnsupportedAsset | Unreadable(field: string) | ZeroPollInterval | BadWindowStart | BadWindowEnd
    | NoDurations | LongAskTooHigh | ShortBidTooLow | NegativeFee | BadPairs | ZeroTrades | NothingEnabled
    | LiveNeedsEoa | LongNeedsMerge | ShortNeedsSplit

  function ParseMode(mode: string): Option<Mode> {
    if mode == "paper" then Some(Paper)
    else if mode == "live" then Some(Live)
    else if mode == "shadow" then Some(Shadow)
    else None
  }

  function Validate(raw: RawConfig): Result<Config, ConfigError> {
    var mode := ParseMode(raw.mode);
    if mode.None? then Err(InvalidMode)
    else if !raw.assetKnown then Err(UnsupportedAsset)
    else if raw.maxLongAsk.None? then Err(Unreadable("max_long_combined_ask"))
    else if raw.minShortBid.None? then Err(Unreadable("min_short_combined_bid"))
    else if raw.feeBuffer.None? then Err(Unreadable("fee_buffer"))
    else if raw.pairsPerTrade.None? then Err(Unreadable("pairs_per_trade"))
    else if raw.pollIntervalMs == 0 then Err(ZeroPollInterval)
    else if !(0.0 <= raw.startPct < 1.0) then Err(BadWindowStart)
    else if !(0.0 <= raw.endPct <= 1.0) || raw.endPct <= raw.startPct then Err(BadWindowEnd)
    else if raw.durations == [] then Err(NoDurations)
    else if raw.maxLongAsk.value >= 1.0 then Err(LongAskTooHigh)
    else if raw.minShortBid.value <= 1.0 then Err(ShortBidTooLow)
    else if raw.feeBuffer.value < 0.0 then Err(NegativeFee)
    else if raw.pairsPerTrade.value <= 0.0 || !IsWhole(raw.pairsPerTrade.value) then Err(BadPairs)
    else if raw.maxTrades == 0 then Err(ZeroTrades)
    else if !raw.longEnabled && !raw.shortEnabled then Err(NothingEnabled)
    else
      var eoaMode := if raw.eoaMode.Some? then raw.eoaMode.value else false;
      if mode.value.Live? && !eoaMode then Err(LiveNeedsEoa)
      else if mode.value.Live? && raw.longEnabled && !raw.mergeEnabled then Err(LongNeedsMerge)
      else if mode.value.Live? && raw.shortEnabled && !raw.splitEnabled then Err(ShortNeedsSplit)
      else Ok(Config(mode.value, eoaMode, raw.startPct, raw.endPct, raw.maxLongAsk.value, raw.minShortBid.value,
                     raw.feeBuffer.value, raw.cooldownSecs, raw.pairsPerTrade.value, raw.maxTrades,
                     raw.longEnabled, raw.shortEnabled, raw.mergeEnabled, raw.splitEnabled))
  }

  /**
   Which files are accepted, and as what: a known mode and asset, readable decimals, a window inside the period, a long limit
   under and a short limit over a dollar, no negative fee, whole pairs, at least one trade and one kind of it; live
   trading needs its own wallet mode, merging for longs and splitting for shorts.
   */
  lemma ValidateMeans(raw: RawConfig)
    ensures Validate(raw).Ok? <==>
              && raw.mode in {"paper", "live", "shadow"} && raw.assetKnown
              && raw.maxLongAsk.Some? && raw.minShortBid.Some? && raw.feeBuffer.Some? && raw.pairsPerTrade.Some?
              && raw.pollIntervalMs > 0 && raw.durations != [] && raw.maxTrades > 0
              && 0.0 <= raw.startPct < 1.0 && raw.startPct < raw.endPct <= 1.0
              && raw.maxLongAsk.value < 1.0 < raw.minShortBid.value && 0.0 <= raw.feeBuffer.value
              && 0.0 < raw.pairsPerTrade.value && IsWhole(raw.pairsPerTrade.value)
              && (raw.longEnabled || raw.shortEnabled)
              && (raw.mode == "live" ==>
                    raw.eoaMode == Some(true) && (raw.longEnabled ==> raw.mergeEnabled) && (raw.shortEnabled ==> raw.splitEnabled))
    ensures Validate(raw).Ok? ==>
              Validate(raw).value
              == Config(if raw.mode == "live" then Live else if raw.mode == "paper" then Paper else Shadow, raw.eoaMode == Some(true),
                        raw.startPct, raw.endPct, raw.maxLongAsk.value, raw.minShortBid.value, raw.feeBuffer.value, raw.cooldownSecs,
                        raw.pairsPerTrade.value, raw.maxTrades, raw.longEnabled, raw.shortEnabled, raw.mergeEnabled, raw.splitEnabled)
  {
  }

  // ----- signals -----

  datatype OpportunitySide = Long | Short

  datatype Opportunity = Opportunity(side: OpportunitySide, combinedAsk: real, combinedBid: real, edge: real)

  /** Price levels, best first. */
  datatype Book = Book(bids: seq<real>, asks: seq<real>)

  function Best(levels: seq<real>): Option<real> {
    if levels == [] then None else Some(levels[0])
  }

  /** Two quotes together; zero stands for a missing one. */
  function Combined(yes: Option<real>, no: Option<real>): real {
    if yes.Some? && no.Some? then yes.value + no.value else 0.0
  }

  function LongEdge(c: Config, ask: real): Option<real> {
    if c.longEnabled && ask > 0.0 && ask + c.feeBuffer <= c.maxLongAsk then Some(1.0 - ask) else None
  }

  function ShortEdge(c: Config, bid: real): Option<real> {
    if c.shortEnabled && bid > 0.0 && bid - c.feeBuffer >= c.minShortBid then Some(bid - 1.0) else None
  }

  function FindOpportunity(c: Config, ask: real, bid: real): (r: Option<Opportunity>)
    ensures r.None? <==> LongEdge(c, ask).None? && ShortEdge(c, bid).None?
    ensures r.Some? ==> (r.value.side == Long ==> LongEdge(c, ask) == Some(r.value.edge))
    ensures r.Some? ==> (r.value.side == Short ==> ShortEdge(c, bid) == Some(r.value.edge))
    ensures r.Some? && LongEdge(c, ask).Some? ==> LongEdge(c, ask).value <= r.value.edge
    ensures r.Some? && ShortEdge(c, bid).Some? ==> ShortEdge(c, bid).value <= r.value.edge
    ensures r.Some? ==> r.value.combinedAsk == ask && r.value.combinedBid == bid
  {
    match (LongEdge(c, ask), ShortEdge(c, bid))
    case (Some(long), Some(short)) =>
      if long >= short then Some(Opportunity(Long, ask, bid, long)) else Some(Opportunity(Short, ask, bid, short))
    case (Some(long), None) => Some(Opportunity(Long, ask, bid, long))
    case (None, Some(short)) => Some(Opportunity(Short, ask, bid, short))
    case (None, None) => None
  }

  function Switch(c: Config): Switches {
    Switches(c.mergeEnabled, c.splitEnabled)
  }

  /** Under a validated configuration a signal pays more than the fee, and a live one can be carried through. */
  lemma SignalsPay(raw: RawConfig, ask: real, bid: real)
    requires Validate(raw).Ok? && FindOpportunity(Validate(raw).value, ask, bid).Some?
    ensures var c := Validate(raw).value;
      var o := FindOpportunity(c, ask, bid).value;
      && o.edge > c.feeBuffer >= 0.0
      && WholePairs(c.pairsPerTrade)
      && (c.mode == Live ==> if o.side == Long then c.mergeEnabled else c.splitEnabled)
  {
  }

  /** An unsigned 64-bit number read as a signed one. */
  function AsI64(n: int): int {
    if n < I64_LIMIT then n else n - 2 * I64_LIMIT
  }

  predicate Cooling(c: Config, last: Option<int>, at: int) {
    last.Some? && NumSeconds(at - last.value) < AsI64(c.cooldownSecs)
  }

  function Cooldown(c: Config): nat {
    c.cooldownSecs * NANOS_PER_SEC
  }

  /** Counting whole seconds and casting the setting change nothing: the check holds back exactly what comes too early. */
  lemma CooldownKept(c: Config, last: int, at: int)
    requires last <= at
    ensures Cooling(c, Some(last), at) <==> at - last < Cooldown(c) == c.cooldownSecs * 1_000_000_000
  {
  }

  // ----- polls -----

  /** A tracked market: its tokens, and when its period starts and how long it lasts. */
  datatype Tracked = Tracked(tokens: Market, startDate: int, durationSecs: int)

  /** What one poll sees: books that may be missing, three readings of the clock, and the exchange's answers. */
  datatype Poll = Poll(yesBook: Option<Book>, noBook: Option<Book>, now: int, checkAt: int, setAt: int, answers: Answers)

  function ElapsedPct(m: Tracked, now: int): real
    requires now > m.startDate
  {
    var secs := ((now - m.startDate) / 1_000_000) as real / 1000.0;
    var total := if m.durationSecs < 1 then 1 else m.durationSecs;
    Min(Max(secs / total as real, 0.0), 1.0)
  }

  predicate InWindow(c: Config, m: Tracked, now: int) {
    now > m.startDate && c.startPct <= ElapsedPct(m, now) <= c.endPct
  }

  /** The signal of a poll, if both books are there, the window is open and a threshold is met. */
  function SignalOf(c: Config, m: Tracked, p: Poll): Option<Opportunity> {
    if p.yesBook.None? || p.noBook.None? || !InWindow(c, m, p.now) then None
    else
      var ask := Combined(Best(p.yesBook.value.asks), Best(p.noBook.value.asks));
      var bid := Combined(Best(p.yesBook.value.bids), Best(p.noBook.value.bids));
      FindOpportunity(c, ask, bid)
  }

  // ----- the signal in plain figures -----

  /** The part of the period that has passed, in whole milliseconds and never more than all of it, lies in the window. */
  ghost predicate WindowOpen(c: Config, m: Tracked, now: int) {
    && now > m.startDate
    && PartWithin(((now - m.startDate) / 1_000_000) as real / 1000.0, (if m.durationSecs < 1 then 1 else m.durationSecs) as real,
                  c.startPct, c.endPct)
  }

  ghost predicate PartWithin(passed: real, total: real, from: real, to: real) {
    if passed >= total then from <= 1.0 <= to else from * total <= passed <= to * total
  }

  /** The first prices of both books together, or nothing when one of them is empty. */
  function Both(yes: seq<real>, no: seq<real>): real {
    if yes == [] || no == [] then 0.0 else yes[0] + no[0]
  }

  /**
   Which polls signal what: with both books, inside the window, a long where both asks and the fee stay within the limit
   and a short where both bids less the fee reach theirs; the one with the larger gain, a long if they are equal.
   */
  lemma SignalMeans(c: Config, m: Tracked, p: Poll)
    ensures SignalOf(c, m, p)
         == if p.yesBook.None? || p.noBook.None? || !WindowOpen(c, m, p.now) then None
            else
              var ask, bid := Both(p.yesBook.value.asks, p.noBook.value.asks), Both(p.yesBook.value.bids, p.noBook.value.bids);
              var long := c.longEnabled && 0.0 < ask && ask + c.feeBuffer <= c.maxLongAsk;
              var short := c.shortEnabled && 0.0 < bid && c.minShortBid <= bid - c.feeBuffer;
              if long && (!short || 1.0 - ask >= bid - 1.0) then Some(Opportunity(Long, ask, bid, 1.0 - ask))
              else if short then Some(Opportunity(Short, ask, bid, bid - 1.0))
              else None
  {
    WindowMeans(c, m, p.now);
  }

  lemma WindowMeans(c: Config, m: Tracked, now: int)
    ensures InWindow(c, m, now) <==> WindowOpen(c, m, now)
  {
    if now > m.startDate {
      var passed := ((now - m.startDate) / 1_000_000) as real / 1000.0;
      var total := (if m.durationSecs < 1 then 1 else m.durationSecs) as real;
      PartIsWithin(ElapsedPct(m, now), passed, total, c.startPct, c.endPct);
    }
  }

  lemma PartIsWithin(part: real, passed: real, total: real, from: real, to: real)
    requires 0.0 <= passed && 0.0 < total && part == Min(Max(passed / total, 0.0), 1.0)
    ensures from <= part <= to <==> PartWithin(passed, total, from, to)
  {
    NotNegative(passed, total);
    PartOf(passed, total, 1.0);
    PartOf(passed, total, from);
    PartOf(passed, total, to);
  }

  lemma PartOf(a: real, b: real, part: real)
    requires 0.0 < b
    ensures a / b <= part <==> a <= part * b
    ensures part <= a / b <==> part * b <= a
  {
    var q := a / b;
    DivMul(a, b);
    if q < part {
      MulPositive(b, part - q);
    } else if q > part {
      MulPositive(b, q - part);
    }
    assert b * (part - q) == part * b - a;
  }

  lemma NotNegative(a: real, b: real)
    requires 0.0 <= a && 0.0 < b
    ensures 0.0 <= a / b
  {
  }

  // ----- what the polls of a period add up to -----

  datatype Tally = Tally(
    opportunities: nat, longSignals: nat, shortSignals: nat, longAttempts: nat, shortAttempts: nat,
    longSuccesses: nat, shortSuccesses: nat, recoveries: nat, mergePairs: real, splitPairs: real,
    expectedPnl: real, trades: nat, lastTradeAt: Option<int>, usdc: real)
  {
    function Signalled(side: OpportunitySide): Tally {
      this.(opportunities := opportunities + 1,
            longSignals := longSignals + (if side == Long then 1 else 0),
            shortSignals := shortSignals + (if side == Short then 1 else 0))
    }

    /** An attempt: only live ones are counted as such, all others count against the cap at once. */
    function Tried(side: OpportunitySide, live: bool, at: int): Tally {
      this.(longAttempts := longAttempts + (if live && side == Long then 1 else 0),
            shortAttempts := shortAttempts + (if live && side == Short then 1 else 0),
            trades := trades + (if live then 0 else 1),
            lastTradeAt := Some(at))
    }

    function Succeeded(side: OpportunitySide, outcome: ExecutionOutcome, expected: real): Tally {
      this.(longSuccesses := longSuccesses + (if side == Long then 1 else 0),
            shortSuccesses := shortSuccesses + (if side == Short then 1 else 0),
            recoveries := recoveries + (if outcome.recovered then 1 else 0),
            mergePairs := mergePairs + outcome.mergePairs,
            splitPairs := splitPairs + outcome.splitPairs,
            expectedPnl := expectedPnl + expected,
            trades := trades + 1)
    }

    function Booked(side: OpportunitySide, outcome: ExecutionOutcome, expected: real, gained: real): Tally {
      var t := this.(usdc := usdc + gained);
      if outcome.success then t.Succeeded(side, outcome, expected) else t
    }
  }

  const NOTHING_SEEN: Tally := Tally(0, 0, 0, 0, 0, 0, 0, 0, 0.0, 0.0, 0.0, 0, None, 0.0)

  function ShadowOutcome(c: Config, side: OpportunitySide): ExecutionOutcome {
    ExecutionOutcome(ShadowSignal, false, true, if side == Long then c.pairsPerTrade else 0.0,
                     if side == Short then c.pairsPerTrade else 0.0)
  }

  function OutcomeOf(c: Config, side: OpportunitySide, answers: Answers): ExecutionOutcome {
    if c.mode != Live then ShadowOutcome(c, side)
    else if side == Long then LongOutcome(Switch(c), c.pairsPerTrade, answers)
    else ShortOutcome(Switch(c), c.pairsPerTrade, answers)
  }

  /** What an attempt does to the wallet's collateral. */
  function UsdcOf(c: Config, side: OpportunitySide, answers: Answers): real {
    if c.mode != Live then 0.0
    else if side == Long then LongUsdc(Switch(c), c.pairsPerTrade, answers)
    else ShortUsdc(Switch(c), c.pairsPerTrade, answers)
  }

  /** The merge switch decides over longs and the split switch over shorts; outside live mode neither is asked and nothing is sent. */
  lemma SwitchesMean(c: Config, a: Answers)
    ensures c.mode == Live && a.sdk ==>
              && (OutcomeOf(c, Short, a).status == SplitDisabled <==> !c.splitEnabled)
              && (SizeAllowed(c.pairsPerTrade) && PairAnswered(a) && AllFilled(a, c.pairsPerTrade) ==>
                    (OutcomeOf(c, Long, a).status == LongMergeFailed <==> c.mergeEnabled && !a.merge))
    ensures c.mode != Live ==>
              && OutcomeOf(c, Long, a) == ExecutionOutcome(ShadowSignal, false, true, c.pairsPerTrade, 0.0)
              && OutcomeOf(c, Short, a) == ExecutionOutcome(ShadowSignal, false, true, 0.0, c.pairsPerTrade)
  {
  }

  /** Neither the trade cap nor the cooldown holds an attempt back. */
  predicate Free(c: Config, t: Tally, at: int) {
    t.trades < c.maxTrades && !Cooling(c, t.lastTradeAt, at)
  }

  /** A poll that sees `found`, whose promised profit is `expected`. */
  function AfterSignal(c: Config, t: Tally, found: Option<Opportunity>, p: Poll, expected: real): Tally {
    if found.None? then t
    else
      var side := found.value.side;
      var seen := t.Signalled(side);
      if !Free(c, t, p.checkAt) then seen
      else seen.Tried(side, c.mode == Live, p.setAt).Booked(side, OutcomeOf(c, side, p.answers), expected, UsdcOf(c, side, p.answers))
  }

  function Promised(c: Config, found: Option<Opportunity>): real {
    if found.Some? then found.value.edge * c.pairsPerTrade else 0.0
  }

  function AfterPoll(c: Config, m: Tracked, t: Tally, p: Poll): Tally {
    var found := SignalOf(c, m, p);
    AfterSignal(c, t, found, p, Promised(c, found))
  }

  /** The whole period. */
  ghost function TallyOf(c: Config, m: Tracked, polls: seq<Poll>): Tally {
    if polls == [] then NOTHING_SEEN else AfterPoll(c, m, TallyOf(c, m, polls[..|polls| - 1]), polls[|polls| - 1])
  }

  /** Every signal counts as an opportunity, whether it is traded or held back. */
  ghost function Signals(c: Config, m: Tracked, polls: seq<Poll>): nat {
    if polls == [] then 0
    else Signals(c, m, polls[..|polls| - 1]) + if SignalOf(c, m, polls[|polls| - 1]).Some? then 1 else 0
  }

  lemma {:induction false} OpportunitiesAreSignals(c: Config, m: Tracked, polls: seq<Poll>)
    ensures TallyOf(c, m, polls).opportunities == Signals(c, m, polls)
  {
    if polls != [] {
      OpportunitiesAreSignals(c, m, polls[..|polls| - 1]);
    }
  }

  // ----- pnl floors -----

  /** What one long or short trade is at least expected to earn. */
  function LongFloor(c: Config): real {
    c.pairsPerTrade * (1.0 - c.maxLongAsk + c.feeBuffer)
  }

  function ShortFloor(c: Config): real {
    c.pairsPerTrade * (c.minShortBid + c.feeBuffer - 1.0)
  }

  /** `n` times `x`, by addition. */
  function Times(n: nat, x: real): real {
    if n == 0 then 0.0 else Times(n - 1, x) + x
  }

  lemma {:induction false} TimesIsProduct(n: nat, x: real)
    ensures Times(n, x) == n as real * x
  {
    if n > 0 {
      TimesIsProduct(n - 1, x);
      assert n as real * x == (n - 1) as real * x + x;
    }
  }

  /** Two numbers are the floors of the configuration; stated under a quantifier to keep the products out of sight. */
  ghost predicate AreFloors(c: Config, long: real, short: real) {
    forall n: nat {:trigger Look(AboutFloors, n)} :: Look(AboutFloors, n) ==> long == LongFloor(c) && short == ShortFloor(c)
  }

  /** The profit that a signal promises. */
  ghost predicate IsExpected(c: Config, o: Opportunity, expected: real) {
    forall n: nat {:trigger Look(AboutProfit, n)} :: Look(AboutProfit, n) ==> expected == Promised(c, Some(o))
  }

  /** The opportunity is one the configuration raises at its own quotes. */
  ghost predicate Raised(c: Config, o: Opportunity) {
    forall n: nat {:trigger Look(AboutRaising, n)} :: Look(AboutRaising, n) ==> FindOpportunity(c, o.combinedAsk, o.combinedBid) == Some(o)
  }

  lemma ExpectedAboveFloor(c: Config, o: Opportunity, expected: real, long: real, short: real)
    requires Raised(c, o) && c.pairsPerTrade > 0.0
    requires AreFloors(c, long, short) && IsExpected(c, o, expected)
    ensures expected >= if o.side == Long then long else short
  {
    assert Look(AboutFloors, 0) && Look(AboutProfit, 0) && Look(AboutRaising, 0);
    EdgeAboveFloor(c, o);
  }

  lemma EdgeAboveFloor(c: Config, o: Opportunity)
    requires FindOpportunity(c, o.combinedAsk, o.combinedBid) == Some(o) && c.pairsPerTrade > 0.0
    ensures o.edge * c.pairsPerTrade >= if o.side == Long then LongFloor(c) else ShortFloor(c)
  {
    var least := if o.side == Long then 1.0 - c.maxLongAsk + c.feeBuffer else c.minShortBid + c.feeBuffer - 1.0;
    MulMonotone(c.pairsPerTrade, least, o.edge);
  }

  /** Both legs filled for no worse than the quotes that raised the signal. */
  predicate AtQuotes(c: Config, o: Opportunity, answers: Answers)
    requires PairAnswered(answers)
  {
    var total := Amount(answers.batch.value[0]) + Amount(answers.batch.value[1]);
    if o.side == Long then total <= c.pairsPerTrade * o.combinedAsk else total >= c.pairsPerTrade * o.combinedBid
  }

  /** Collateral left after both legs filled and the pair was merged, or split. */
  function CleanUsdc(c: Config, o: Opportunity, answers: Answers): real
    requires PairAnswered(answers)
  {
    var total := Amount(answers.batch.value[0]) + Amount(answers.batch.value[1]);
    if o.side == Long then c.pairsPerTrade - total else total - c.pairsPerTrade
  }

  lemma QuotesEarnEdge(c: Config, o: Opportunity, answers: Answers)
    requires FindOpportunity(c, o.combinedAsk, o.combinedBid) == Some(o)
    requires PairAnswered(answers) && AtQuotes(c, o, answers)
    ensures CleanUsdc(c, o, answers) >= o.edge * c.pairsPerTrade
  {
    if o.side == Long {
      assert (1.0 - o.combinedAsk) * c.pairsPerTrade == c.pairsPerTrade - c.pairsPerTrade * o.combinedAsk;
    } else {
      assert (o.combinedBid - 1.0) * c.pairsPerTrade == c.pairsPerTrade * o.combinedBid - c.pairsPerTrade;
    }
  }

  // ----- which polls attempt a trade, and what clean trades earn -----

  /** The poll after these attempts a trade: it signals, and neither the cap nor the cooldown holds it back. */
  predicate Attempts(c: Config, m: Tracked, before: Tally, p: Poll) {
    && SignalOf(c, m, p).Some? && before.trades < c.maxTrades
    && (before.lastTradeAt.Some? ==> p.checkAt - before.lastTradeAt.value >= c.cooldownSecs * 1_000_000_000
                                     || (c.cooldownSecs == 0 && p.checkAt - before.lastTradeAt.value > -1_000_000_000))
  }

  lemma AttemptsMeans(c: Config, m: Tracked, before: Tally, p: Poll)
    ensures Attempts(c, m, before, p) <==> SignalOf(c, m, p).Some? && Free(c, before, p.checkAt)
  {
    if before.lastTradeAt.Some? {
      WholeSeconds(p.checkAt - before.lastTradeAt.value, c.cooldownSecs);
      WholeSeconds(p.checkAt - before.lastTradeAt.value, 1);
    }
  }

  /** The times of all attempts of a period. */
  ghost function AttemptTimes(c: Config, m: Tracked, polls: seq<Poll>): seq<int> {
    if polls == [] then []
    else
      var init, last := polls[..|polls| - 1], polls[|polls| - 1];
      AttemptTimes(c, m, init) + if Attempts(c, m, TallyOf(c, m, init), last) then [last.setAt] else []
  }

  /** Attempts, as far as the figures count them: those sent, or those that were only noted. */
  function Tries(c: Config, t: Tally): nat {
    if c.mode == Live then t.longAttempts + t.shortAttempts else t.longSuccesses + t.shortSuccesses
  }

  lemma OneMoreTry(c: Config, m: Tracked, t: Tally, p: Poll)
    ensures Tries(c, AfterPoll(c, m, t, p)) == Tries(c, t) + if Attempts(c, m, t, p) then 1 else 0
  {
    AttemptsMeans(c, m, t, p);
  }

  /** Both legs filled for no worse than the quotes of the signal, and the pair was merged, or split. */
  ghost predicate FilledAtQuotes(c: Config, o: Opportunity, a: Answers) {
    && a.sdk && a.batch.Some? && |a.batch.value| == 2 && a.batch.value[0].Fill? && a.batch.value[1].Fill?
    && var total := a.batch.value[0].usdc + a.batch.value[1].usdc;
       if o.side == Long then a.merge && total <= c.pairsPerTrade * o.combinedAsk
       else a.split && total >= c.pairsPerTrade * o.combinedBid
  }

  /** Every attempt of the period filled at the quotes of its signal. */
  ghost predicate AllAtQuotes(c: Config, m: Tracked, polls: seq<Poll>) {
    polls == [] ||
    var init, last := polls[..|polls| - 1], polls[|polls| - 1];
    AllAtQuotes(c, m, init) && (Attempts(c, m, TallyOf(c, m, init), last) ==> FilledAtQuotes(c, SignalOf(c, m, last).value, last.answers))
  }

  /** Then the wallet has gained at least the expected profit. */
  lemma {:induction false} EarnedAtQuotes(c: Config, m: Tracked, polls: seq<Poll>)
    requires c.mode == Live && CanClose(c) && (c.shortEnabled ==> c.splitEnabled)
    requires WholePairs(c.pairsPerTrade) && c.pairsPerTrade >= 5.0 && AllAtQuotes(c, m, polls)
    ensures TallyOf(c, m, polls).usdc >= TallyOf(c, m, polls).expectedPnl
  {
    if polls != [] {
      var init, last := polls[..|polls| - 1], polls[|polls| - 1];
      EarnedAtQuotes(c, m, init);
      PollEarns(c, m, TallyOf(c, m, init), last);
    }
  }

  lemma PollEarns(c: Config, m: Tracked, t: Tally, p: Poll)
    requires c.mode == Live && CanClose(c) && (c.shortEnabled ==> c.splitEnabled)
    requires WholePairs(c.pairsPerTrade) && c.pairsPerTrade >= 5.0
    requires Attempts(c, m, t, p) ==> FilledAtQuotes(c, SignalOf(c, m, p).value, p.answers)
    requires t.usdc >= t.expectedPnl
    ensures AfterPoll(c, m, t, p).usdc >= AfterPoll(c, m, t, p).expectedPnl
  {
    AttemptsMeans(c, m, t, p);
    var found := SignalOf(c, m, p);
    if Attempts(c, m, t, p) {
      AttemptEarns(c, found.value, p.answers, Promised(c, found));
    }
    SignalEarns(c, t, found, p, Promised(c, found));
  }

  lemma SignalEarns(c: Config, t: Tally, found: Option<Opportunity>, p: Poll, expected: real)
    requires found.Some? && Free(c, t, p.checkAt) ==>
               OutcomeOf(c, found.value.side, p.answers).success && UsdcOf(c, found.value.side, p.answers) >= expected
    requires t.usdc >= t.expectedPnl
    ensures var after := AfterSignal(c, t, found, p, expected); after.usdc >= after.expectedPnl
  {
  }

  lemma AttemptEarns(c: Config, o: Opportunity, a: Answers, expected: real)
    requires c.mode == Live && CanClose(c) && (c.shortEnabled ==> c.splitEnabled)
    requires WholePairs(c.pairsPerTrade) && c.pairsPerTrade >= 5.0
    requires FindOpportunity(c, o.combinedAsk, o.combinedBid) == Some(o) && FilledAtQuotes(c, o, a) && expected == Promised(c, Some(o))
    ensures OutcomeOf(c, o.side, a).success && UsdcOf(c, o.side, a) >= expected
  {
    AllowedMeans(c.pairsPerTrade);
    CleanGains(c, o, a, expected);
  }

  // ----- the machine -----

  /** Every two neighbours, and so any two attempts, are at least `gap` apart. */
  ghost predicate Spaced(attempts: seq<int>, gap: int) {
    forall k :: 0 < k < |attempts| ==> attempts[k] - attempts[k - 1] >= gap
  }

  /** Sizes that every chain call can take, with the switches a validated live configuration has. */
  ghost predicate CanClose(c: Config) {
    && SplitFits(c.pairsPerTrade)
    && (c.longEnabled ==> c.mergeEnabled)
  }

  ghost predicate KeptApart(c: Config, attempts: seq<int>) {
    forall n: nat {:trigger Look(AboutGap, n)} :: Look(AboutGap, n) ==> Spaced(attempts, Cooldown(c))
  }

  lemma SpacedOn(c: Config, attempts: seq<int>, checkAt: int, setAt: int)
    requires KeptApart(c, attempts) && checkAt <= setAt
    requires attempts != [] ==> attempts[|attempts| - 1] <= checkAt && !Cooling(c, Some(attempts[|attempts| - 1]), checkAt)
    ensures KeptApart(c, attempts + [setAt])
  {
    assert Look(AboutGap, 0);
    if attempts != [] {
      CooldownKept(c, attempts[|attempts| - 1], checkAt);
    }
  }

  /** Any two attempts keep their distance. */
  ghost predicate Apart(attempts: seq<int>, gap: int) {
    forall i, j :: 0 <= i < j < |attempts| ==> attempts[j] - attempts[i] >= gap
  }

  lemma {:induction false} SpacedFar(attempts: seq<int>, gap: nat, i: nat, j: nat)
    requires Spaced(attempts, gap) && i < j < |attempts|
    ensures attempts[j] - attempts[i] >= gap
    decreases j - i
  {
    if i + 1 < j {
      SpacedFar(attempts, gap, i, j - 1);
    }
  }

  lemma AllApart(attempts: seq<int>, gap: nat)
    requires Spaced(attempts, gap)
    ensures Apart(attempts, gap)
  {
    forall i, j | 0 <= i < j < |attempts| ensures attempts[j] - attempts[i] >= gap {
      SpacedFar(attempts, gap, i, j);
    }
  }

  /**
   In live mode the wallet backs the books: it is flat if every attempt succeeded, and holds at least the
   expected profit if every attempt filled at the quotes.
   */
  ghost predicate Backing(c: Config, market: Market, ledger: seq<Entry>, usdc: real, allSucceeded: bool, atQuotes: bool, pnl: real) {
    && usdc == Usdc(ledger)
    && (c.mode == Live && CanClose(c) ==>
          && (allSucceeded ==> Flat(ledger, market))
          && (atQuotes ==> allSucceeded && usdc >= pnl))
  }

  ghost predicate Backed(c: Config, market: Market, ledger: seq<Entry>, usdc: real, allSucceeded: bool, atQuotes: bool, pnl: real) {
    forall n: nat {:trigger Look(AboutWallet, n)} :: Look(AboutWallet, n) ==>
      Backing(c, market, ledger, usdc, allSucceeded, atQuotes, pnl)
  }

  /** What one live attempt did: its outcome and collateral are those of its answers, and a success leaves no token. */
  ghost predicate Closes(c: Config, market: Market, o: Opportunity, answers: Answers, entries: seq<Entry>,
                         outcome: ExecutionOutcome, gained: real)
  {
    && outcome == OutcomeOf(c, o.side, answers) && gained == UsdcOf(c, o.side, answers) == Usdc(entries)
    && (outcome.success && CanClose(c) ==> Flat(entries, market))
  }

  /** The same, kept out of sight. */
  ghost predicate Closed(c: Config, market: Market, o: Opportunity, answers: Answers, entries: seq<Entry>,
                         outcome: ExecutionOutcome, gained: real)
  {
    forall n: nat {:trigger Look(AboutFills, n)} :: Look(AboutFills, n) ==>
      Closes(c, market, o, answers, entries, outcome, gained)
  }

  /** A pair that filled whole and was merged, or split, gained or cost exactly its fills. */
  lemma CleanEarns(c: Config, o: Opportunity, answers: Answers)
    requires c.mode == Live && CanClose(c) && WholePairs(c.pairsPerTrade) && (o.side == Long ==> c.longEnabled)
    requires OutcomeOf(c, o.side, answers).status in {LongOk, ShortOk}
    ensures PairAnswered(answers) && UsdcOf(c, o.side, answers) == CleanUsdc(c, o, answers)
  {
    if o.side == Short {
      SplitGives(c.pairsPerTrade);
    }
  }

  /** The attempt filled both legs at the quotes. */
  ghost predicate CleanAttempt(c: Config, o: Opportunity, answers: Answers, outcome: ExecutionOutcome) {
    && outcome.status in {LongOk, ShortOk}
    && forall n: nat {:trigger Look(AboutFills, n)} :: Look(AboutFills, n) ==> PairAnswered(answers) && AtQuotes(c, o, answers)
  }

  /** A successful attempt keeps a flat wallet flat; a clean one earns at least its expected profit. */
  lemma BackedOn(c: Config, market: Market, o: Opportunity, answers: Answers, expected: real, outcome: ExecutionOutcome,
                 ledger: seq<Entry>, usdc: real, entries: seq<Entry>, gained: real,
                 all: bool, atQuotes: bool, clean: bool, pnl: real)
    requires c.mode == Live && WholePairs(c.pairsPerTrade) && (o.side == Long ==> c.longEnabled)
    requires Raised(c, o) && IsExpected(c, o, expected)
    requires Closed(c, market, o, answers, entries, outcome, gained)
    requires clean <==> CleanAttempt(c, o, answers, outcome)
    requires Backed(c, market, ledger, usdc, all, atQuotes, pnl)
    ensures Backed(c, market, ledger + entries, usdc + gained, all && outcome.success, atQuotes && clean,
                   if outcome.success then pnl + expected else pnl)
  {
    AttemptGains(c, market, o, answers, expected, outcome, entries, gained, clean);
    WalletMoves(c, market, ledger, usdc, entries, gained, outcome.success, all, atQuotes, clean,
                pnl, if outcome.success then pnl + expected else pnl);
  }

  /** What an attempt adds to the wallet, without the products. */
  lemma AttemptGains(c: Config, market: Market, o: Opportunity, answers: Answers, expected: real, outcome: ExecutionOutcome,
                     entries: seq<Entry>, gained: real, clean: bool)
    requires c.mode == Live && WholePairs(c.pairsPerTrade) && (o.side == Long ==> c.longEnabled)
    requires Raised(c, o) && IsExpected(c, o, expected)
    requires Closed(c, market, o, answers, entries, outcome, gained)
    requires clean <==> CleanAttempt(c, o, answers, outcome)
    ensures gained == Usdc(entries) && (outcome.success && CanClose(c) ==> Flat(entries, market))
    ensures clean && CanClose(c) ==> outcome.success && gained >= expected
  {
    assert Look(AboutFills, 0) && Look(AboutProfit, 0) && Look(AboutRaising, 0);
    if clean && CanClose(c) {
      CleanGains(c, o, answers, expected);
    }
  }

  lemma CleanGains(c: Config, o: Opportunity, answers: Answers, expected: real)
    requires c.mode == Live && CanClose(c) && WholePairs(c.pairsPerTrade) && (o.side == Long ==> c.longEnabled)
    requires FindOpportunity(c, o.combinedAsk, o.combinedBid) == Some(o) && expected == o.edge * c.pairsPerTrade
    requires OutcomeOf(c, o.side, answers).status in {LongOk, ShortOk} && PairAnswered(answers) && AtQuotes(c, o, answers)
    ensures OutcomeOf(c, o.side, answers).success && UsdcOf(c, o.side, answers) >= expected
  {
    assert UsdcOf(c, o.side, answers) == CleanUsdc(c, o, answers) by {
      CleanEarns(c, o, answers);
    }
    assert CleanUsdc(c, o, answers) >= expected by {
      QuotesEarnEdge(c, o, answers);
    }
  }

  lemma WalletMoves(c: Config, market: Market, ledger: seq<Entry>, usdc: real, entries: seq<Entry>, gained: real,
                    success: bool, all: bool, atQuotes: bool, clean: bool, pnl: real, after: real)
    requires gained == Usdc(entries) && (success && CanClose(c) ==> Flat(entries, market))
    requires clean && CanClose(c) ==> success && gained >= after - pnl
    requires Backed(c, market, ledger, usdc, all, atQuotes, pnl)
    ensures Backed(c, market, ledger + entries, usdc + gained, all && success, atQuotes && clean, after)
  {
    assert Look(AboutWallet, 0);
    Joined(ledger, entries, market.yes);
    Joined(ledger, entries, market.no);
  }

  lemma NotLive(c: Config, market: Market, usdc: real, all: bool, atQuotes: bool, pnl: real)
    requires c.mode != Live && usdc == 0.0
    ensures Backed(c, market, [], usdc, all, atQuotes, pnl)
  {
  }

  /** Looking at the books of a poll. */
  method Observe(c: Config, m: Tracked, p: Poll) returns (found: Option<Opportunity>)
    ensures Sees(c, m, p, found)
    ensures found.Some? ==> Raised(c, found.value) && (found.value.side == Long ==> c.longEnabled)
  {
    if p.yesBook.None? || p.noBook.None? || !InWindow(c, m, p.now) {
      return None;
    }
    var ask := Combined(Best(p.yesBook.value.asks), Best(p.noBook.value.asks));
    var bid := Combined(Best(p.yesBook.value.bids), Best(p.noBook.value.bids));
    found := FindOpportunity(c, ask, bid);
  }

  ghost predicate Sees(c: Config, m: Tracked, p: Poll, found: Option<Opportunity>) {
    forall n: nat {:trigger Look(AboutSignals, n)} :: Look(AboutSignals, n) ==> found == SignalOf(c, m, p)
  }

  ghost function PromiseOf(c: Config, o: Opportunity): (expected: real)
    ensures IsExpected(c, o, expected)
  {
    Promised(c, Some(o))
  }

  /** The figures after an attempt; out of sight until its outcome is looked at. */
  ghost predicate Attempted(c: Config, t: Tally, o: Opportunity, p: Poll, expected: real, after: Tally) {
    forall n: nat {:trigger Look(AboutSteps, n)} :: Look(AboutSteps, n) ==>
      after == t.Tried(o.side, c.mode == Live, p.setAt).Booked(o.side, OutcomeOf(c, o.side, p.answers), expected, UsdcOf(c, o.side, p.answers))
  }

  lemma LiveAttempt(c: Config, market: Market, t: Tally, o: Opportunity, p: Poll, entries: seq<Entry>,
                    outcome: ExecutionOutcome, expected: real, gained: real, after: Tally)
    requires c.mode == Live && Closed(c, market, o, p.answers, entries, outcome, gained)
    requires after == t.Tried(o.side, true, p.setAt).Booked(o.side, outcome, expected, gained)
    ensures Attempted(c, t, o, p, expected, after)
  {
    assert Look(AboutFills, 0);
  }

  lemma ShadowAttempt(c: Config, t: Tally, o: Opportunity, p: Poll, expected: real, after: Tally)
    requires c.mode != Live
    requires after == t.Tried(o.side, false, p.setAt).Succeeded(o.side, ShadowOutcome(c, o.side), expected)
    ensures Attempted(c, t, o, p, expected, after)
  {
  }

  ghost predicate Concluded(c: Config, t: Tally, found: Option<Opportunity>, p: Poll, expected: real, after: Tally) {
    && (found.Some? ==> IsExpected(c, found.value, expected))
    && forall n: nat {:trigger Look(AboutSteps, n)} :: Look(AboutSteps, n) ==> after == AfterSignal(c, t, found, p, expected)
  }

  lemma ConcludedAs(c: Config, t: Tally, found: Option<Opportunity>, p: Poll, expected: real, after: Tally)
    requires found.None? ==> after == t
    requires found.Some? ==> IsExpected(c, found.value, expected)
    requires found.Some? && !Free(c, t, p.checkAt) ==> after == t.Signalled(found.value.side)
    requires found.Some? && Free(c, t, p.checkAt) ==> Attempted(c, t.Signalled(found.value.side), found.value, p, expected, after)
    ensures Concluded(c, t, found, p, expected, after)
  {
    assert Look(AboutSteps, 0);
  }

  ghost predicate Polled(c: Config, m: Tracked, t: Tally, p: Poll, after: Tally) {
    forall n: nat {:trigger Look(AboutSteps, n)} :: Look(AboutSteps, n) ==> after == AfterPoll(c, m, t, p)
  }

  lemma PolledAs(c: Config, m: Tracked, t: Tally, found: Option<Opportunity>, p: Poll, expected: real, after: Tally)
    requires Sees(c, m, p, found) && Concluded(c, t, found, p, expected, after)
    ensures Polled(c, m, t, p, after)
  {
    assert Look(AboutSignals, 0) && Look(AboutSteps, 0) && Look(AboutProfit, 0);
  }

  class PeriodStats {
    var opportunities: nat
    var longSignals: nat
    var shortSignals: nat
    var longAttempts: nat
    var shortAttempts: nat
    var longSuccesses: nat
    var shortSuccesses: nat
    var recoveries: nat
    var mergePairs: real
    var splitPairs: real
    var expectedPnl: real
    var tradesThisPeriod: nat
    var lastTradeAt: Option<int>
    /** The times of all attempts. */
    ghost var attempts: seq<int>
    /** What the attempts did to the wallet. */
    ghost var ledger: seq<Entry>
    /** The collateral of the ledger. */
    ghost var usdc: real
    /** Every attempt so far filled both legs at the quotes. */
    ghost var atQuotes: bool
    /** What each success is at least expected to earn. */
    ghost const longFloor: real
    ghost const shortFloor: real

    /** All figures, and the wallet's collateral. */
    ghost function Figures(): Tally
      reads this
    {
      Tally(opportunities, longSignals, shortSignals, longAttempts, shortAttempts, longSuccesses, shortSuccesses, recoveries,
            mergePairs, splitPairs, expectedPnl, tradesThisPeriod, lastTradeAt, usdc)
    }

    ghost function Successes(): nat
      reads this
    {
      longSuccesses + shortSuccesses
    }

    ghost predicate Counts(c: Config)
      reads this
    {
      && opportunities == longSignals + shortSignals
      && Successes() <= |attempts| <= opportunities
      && lastTradeAt == (if attempts == [] then None else Some(attempts[|attempts| - 1]))
      && if c.mode == Live then
           |attempts| == longAttempts + shortAttempts && tradesThisPeriod == Successes() <= c.maxTrades
         else
           |attempts| == Successes() && tradesThisPeriod == 2 * Successes() <= c.maxTrades + 1
           && ledger == [] && usdc == 0.0
    }

    ghost predicate PnlFloor()
      reads this
    {
      expectedPnl >= Times(longSuccesses, longFloor) + Times(shortSuccesses, shortFloor)
    }

    ghost predicate Books(c: Config, market: Market)
      reads this
    {
      && PnlFloor() && AreFloors(c, longFloor, shortFloor)
      && Backed(c, market, ledger, usdc, |attempts| == Successes(), atQuotes, expectedPnl)
    }

    ghost predicate Valid(c: Config, market: Market)
      reads this
    {
      Counts(c) && KeptApart(c, attempts) && Books(c, market)
    }

    constructor (c: Config, market: Market)
      ensures Valid(c, market) && Figures() == NOTHING_SEEN && attempts == [] && ledger == [] && atQuotes
    {
      opportunities, longSignals, shortSignals := 0, 0, 0;
      longAttempts, shortAttempts, longSuccesses, shortSuccesses, recoveries := 0, 0, 0, 0, 0;
      mergePairs, splitPairs, expectedPnl := 0.0, 0.0, 0.0;
      tradesThisPeriod, lastTradeAt := 0, None;
      attempts, ledger, usdc, atQuotes := [], [], 0.0, true;
      longFloor, shortFloor := LongFloor(c), ShortFloor(c);
    }

    /** The profit that a signal promises. */
    method Promise(c: Config, o: Opportunity) returns (expected: real)
      ensures IsExpected(c, o, expected)
    {
      expected := o.edge * c.pairsPerTrade;
    }

    /** One live execution. */
    method Execute(c: Config, market: Market, o: Opportunity, answers: Answers)
      returns (outcome: ExecutionOutcome, ghost entries: seq<Entry>, ghost gained: real)
      requires market.yes != market.no && WholePairs(c.pairsPerTrade) && c.mode == Live
      requires o.side == Long ==> c.longEnabled
      modifies this`longAttempts, this`shortAttempts
      ensures longAttempts == old(longAttempts) + (if o.side == Long then 1 else 0)
      ensures shortAttempts == old(shortAttempts) + (if o.side == Short then 1 else 0)
      ensures Closed(c, market, o, answers, entries, outcome, gained)
    {
      if o.side == Long {
        longAttempts := longAttempts + 1;
        outcome, entries := ExecuteLong(Switch(c), market, c.pairsPerTrade, answers);
      } else {
        shortAttempts := shortAttempts + 1;
        outcome, entries := ExecuteShort(Switch(c), market, c.pairsPerTrade, answers);
      }
      gained := Usdc(entries);
    }

    /** One poll. The signal it sees is counted; the trade cap or the cooldown may hold the attempt back. */
    method ProcessMarket(c: Config, m: Tracked, p: Poll)
      requires Valid(c, m.tokens) && Ready(c, m.tokens, p)
      modifies this
      ensures Valid(c, m.tokens)
      ensures Polled(c, m, old(Figures()), p, Figures())
      ensures attempts == old(attempts) || attempts == old(attempts) + [p.setAt]
    {
      var found := Observe(c, m, p);
      ghost var expected := TakeUp(c, m.tokens, found, p);
      PolledAs(c, m, old(Figures()), found, p, expected, Figures());
    }

    /** The next poll of a series; figures and times are those of the polls so far. */
    method ProcessNext(c: Config, m: Tracked, polls: seq<Poll>, n: nat)
      requires n < |polls| && Valid(c, m.tokens) && Ready(c, m.tokens, polls[n])
      requires Figures() == TallyOf(c, m, polls[..n]) && attempts == AttemptTimes(c, m, polls[..n])
      modifies this
      ensures Valid(c, m.tokens)
      ensures Figures() == TallyOf(c, m, polls[..n + 1]) && attempts == AttemptTimes(c, m, polls[..n + 1])
      ensures lastTradeAt == old(lastTradeAt) || lastTradeAt == Some(polls[n].setAt)
    {
      ghost var times := attempts;
      ProcessMarket(c, m, polls[n]);
      NextPoll(c, m, polls, n, Figures());
      NextTime(c, m, polls, n, times, attempts);
    }

    /** What follows from the signal of a poll, or from its absence. */
    method TakeUp(c: Config, market: Market, found: Option<Opportunity>, p: Poll) returns (ghost expected: real)
      requires Valid(c, market) && Ready(c, market, p)
      requires found.Some? ==> Raised(c, found.value) && (found.value.side == Long ==> c.longEnabled)
      modifies this
      ensures Valid(c, market)
      ensures Concluded(c, old(Figures()), found, p, expected, Figures())
      ensures attempts == old(attempts) || attempts == old(attempts) + [p.setAt]
    {
      ghost var before := Figures();
      expected := 0.0;
      if found.Some? {
        Count(c, market, found.value.side);
        if tradesThisPeriod < c.maxTrades && !Cooling(c, lastTradeAt, p.checkAt) {
          expected := Attempt(c, market, found.value, p);
        } else {
          expected := PromiseOf(c, found.value);
        }
      }
      ConcludedAs(c, before, found, p, expected, Figures());
    }

    method Attempt(c: Config, market: Market, o: Opportunity, p: Poll) returns (ghost expected: real)
      requires Valid(c, market) && Ready(c, market, p)
      requires Raised(c, o) && (o.side == Long ==> c.longEnabled) && |attempts| < opportunities
      requires tradesThisPeriod < c.maxTrades && !Cooling(c, lastTradeAt, p.checkAt)
      modifies this
      ensures Valid(c, market) && attempts == old(attempts) + [p.setAt]
      ensures IsExpected(c, o, expected)
      ensures Attempted(c, old(Figures()), o, p, expected, Figures())
    {
      if c.mode == Live {
        expected := AttemptLive(c, market, o, p);
      } else {
        expected := AttemptShadow(c, market, o, p);
      }
    }

    method Count(c: Config, market: Market, side: OpportunitySide)
      requires Valid(c, market)
      modifies this`opportunities, this`longSignals, this`shortSignals
      ensures Valid(c, market) && Figures() == old(Figures()).Signalled(side)
    {
      opportunities := opportunities + 1;
      if side == Long {
        longSignals := longSignals + 1;
      } else {
        shortSignals := shortSignals + 1;
      }
    }

    /** What a poll needs: distinct tokens, a valid trade size, and a clock that does not run back. */
    ghost predicate Ready(c: Config, market: Market, p: Poll)
      reads this
    {
      && market.yes != market.no && WholePairs(c.pairsPerTrade)
      && p.checkAt <= p.setAt && (lastTradeAt.Some? ==> lastTradeAt.value <= p.checkAt)
    }

    /** An attempt in live mode, once neither the cap nor the cooldown holds it back. */
    method AttemptLive(c: Config, market: Market, o: Opportunity, p: Poll) returns (ghost expected: real)
      requires Valid(c, market) && Ready(c, market, p) && c.mode == Live
      requires Raised(c, o) && (o.side == Long ==> c.longEnabled) && |attempts| < opportunities
      requires tradesThisPeriod < c.maxTrades && !Cooling(c, lastTradeAt, p.checkAt)
      modifies this
      ensures Valid(c, market) && attempts == old(attempts) + [p.setAt]
      ensures IsExpected(c, o, expected)
      ensures Attempted(c, old(Figures()), o, p, expected, Figures())
    {
      ghost var before := Figures();
      SpacedOn(c, attempts, p.checkAt, p.setAt);
      lastTradeAt := Some(p.setAt);
      var outcome;
      ghost var entries, gained;
      outcome, entries, gained := Execute(c, market, o, p.answers);
      expected := BookLive(c, market, o, p, outcome, entries, gained);
      LiveAttempt(c, market, before, o, p, entries, outcome, expected, gained, Figures());
    }

    /** A live attempt is out: its time is set and counted, its result is not yet in the books. */
    ghost predicate InFlight(c: Config, market: Market, at: int)
      reads this
    {
      && opportunities == longSignals + shortSignals
      && Successes() <= |attempts| < opportunities
      && |attempts| + 1 == longAttempts + shortAttempts
      && tradesThisPeriod == Successes() < c.maxTrades
      && lastTradeAt == Some(at)
      && KeptApart(c, attempts + [at]) && Books(c, market)
    }

    /** The result of a live attempt goes into the books. */
    method BookLive(c: Config, market: Market, o: Opportunity, p: Poll, outcome: ExecutionOutcome,
                    ghost entries: seq<Entry>, ghost gained: real)
      returns (ghost expected: real)
      requires InFlight(c, market, p.setAt) && c.mode == Live && WholePairs(c.pairsPerTrade)
      requires Raised(c, o) && (o.side == Long ==> c.longEnabled)
      requires Closed(c, market, o, p.answers, entries, outcome, gained)
      modifies this
      ensures Valid(c, market) && attempts == old(attempts) + [p.setAt] && ledger == old(ledger) + entries
      ensures IsExpected(c, o, expected)
      ensures Figures() == old(Figures()).Booked(o.side, outcome, expected, gained)
    {
      var promised := Promise(c, o);
      expected := promised;
      NoteAttempt(c, market, o, p, outcome, entries, gained, expected);
      if outcome.success {
        Succeed(c, o, outcome, promised);
      }
    }

    /** A live attempt is on record, with its profit still to be booked if it was a success. */
    ghost predicate Noted(c: Config, market: Market, success: bool, expected: real)
      reads this
    {
      && opportunities == longSignals + shortSignals
      && Successes() < |attempts| <= opportunities
      && |attempts| == longAttempts + shortAttempts
      && tradesThisPeriod == Successes() < c.maxTrades
      && lastTradeAt == Some(attempts[|attempts| - 1])
      && KeptApart(c, attempts) && PnlFloor() && AreFloors(c, longFloor, shortFloor)
      && Backed(c, market, ledger, usdc, success && |attempts| == Successes() + 1, atQuotes,
                if success then expectedPnl + expected else expectedPnl)
    }

    ghost method NoteAttempt(c: Config, market: Market, o: Opportunity, p: Poll, outcome: ExecutionOutcome,
                             entries: seq<Entry>, gained: real, expected: real)
      requires InFlight(c, market, p.setAt) && c.mode == Live && WholePairs(c.pairsPerTrade)
      requires Raised(c, o) && (o.side == Long ==> c.longEnabled) && IsExpected(c, o, expected)
      requires Closed(c, market, o, p.answers, entries, outcome, gained)
      modifies this`attempts, this`ledger, this`usdc, this`atQuotes
      ensures Noted(c, market, outcome.success, expected)
      ensures attempts == old(attempts) + [p.setAt] && ledger == old(ledger) + entries && usdc == old(usdc) + gained
    {
      var clean := CleanAttempt(c, o, p.answers, outcome);
      BackedOn(c, market, o, p.answers, expected, outcome, ledger, usdc, entries, gained,
               |attempts| == Successes(), atQuotes, clean, expectedPnl);
      attempts, ledger, usdc, atQuotes := attempts + [p.setAt], ledger + entries, usdc + gained, atQuotes && clean;
    }

    /** An attempt in paper or shadow mode always succeeds, and counts twice against the cap. */
    method AttemptShadow(c: Config, market: Market, o: Opportunity, p: Poll) returns (ghost expected: real)
      requires Valid(c, market) && Ready(c, market, p) && c.mode != Live
      requires Raised(c, o) && |attempts| < opportunities
      requires tradesThisPeriod < c.maxTrades && !Cooling(c, lastTradeAt, p.checkAt)
      modifies this
      ensures Valid(c, market) && attempts == old(attempts) + [p.setAt]
      ensures IsExpected(c, o, expected)
      ensures Attempted(c, old(Figures()), o, p, expected, Figures())
    {
      ghost var before := Figures();
      SpacedOn(c, attempts, p.checkAt, p.setAt);
      lastTradeAt := Some(p.setAt);
      var promised := Promise(c, o);
      expected := promised;
      tradesThisPeriod := tradesThisPeriod + 1;
      BookShadow(c, market, o, p, promised);
      ShadowAttempt(c, before, o, p, expected, Figures());
    }

    /** The success of an attempt that was never sent. */
    method BookShadow(c: Config, market: Market, o: Opportunity, p: Poll, promised: real)
      requires c.mode != Live && c.pairsPerTrade > 0.0 && Raised(c, o) && IsExpected(c, o, promised)
      requires opportunities == longSignals + shortSignals && |attempts| < opportunities
      requires lastTradeAt == Some(p.setAt) && KeptApart(c, attempts + [p.setAt])
      requires |attempts| == Successes() && tradesThisPeriod == 2 * Successes() + 1 <= c.maxTrades && ledger == []
      requires Books(c, market) && usdc == 0.0
      modifies this
      ensures Valid(c, market) && attempts == old(attempts) + [p.setAt]
      ensures Figures() == old(Figures()).Succeeded(o.side, ShadowOutcome(c, o.side), promised)
    {
      attempts := attempts + [p.setAt];
      Succeed(c, o, ShadowOutcome(c, o.side), promised);
      NotLive(c, market, usdc, |attempts| == Successes(), atQuotes, expectedPnl);
    }

    /** The books of a successful attempt. */
    method Succeed(c: Config, o: Opportunity, outcome: ExecutionOutcome, expected: real)
      requires Raised(c, o) && c.pairsPerTrade > 0.0
      requires PnlFloor() && AreFloors(c, longFloor, shortFloor) && IsExpected(c, o, expected)
      modifies this`tradesThisPeriod, this`expectedPnl, this`mergePairs, this`splitPairs, this`recoveries,
               this`longSuccesses, this`shortSuccesses
      ensures PnlFloor()
      ensures Figures() == old(Figures()).Succeeded(o.side, outcome, expected)
    {
      ExpectedAboveFloor(c, o, expected, longFloor, shortFloor);
      tradesThisPeriod := tradesThisPeriod + 1;
      expectedPnl := expectedPnl + expected;
      mergePairs := mergePairs + outcome.mergePairs;
      splitPairs := splitPairs + outcome.splitPairs;
      if outcome.recovered {
        recoveries := recoveries + 1;
      }
      if o.side == Long {
        longSuccesses := longSuccesses + 1;
      } else {
        shortSuccesses := shortSuccesses + 1;
      }
    }
  }

  /** Polls of one period, with a clock that never runs back. */
  ghost predicate Chronological(polls: seq<Poll>) {
    && (forall k :: 0 <= k < |polls| ==> polls[k].now <= polls[k].checkAt <= polls[k].setAt)
    && (forall k :: 0 < k < |polls| ==> polls[k - 1].setAt <= polls[k].now)
  }

  /** The loop over the polls. */
  method PollAll(c: Config, m: Tracked, polls: seq<Poll>) returns (stats: PeriodStats)
    requires m.tokens.yes != m.tokens.no && WholePairs(c.pairsPerTrade) && Chronological(polls)
    ensures fresh(stats) && stats.Valid(c, m.tokens)
    ensures stats.Figures() == TallyOf(c, m, polls) && stats.attempts == AttemptTimes(c, m, polls)
  {
    stats := new PeriodStats(c, m.tokens);
    for n := 0 to |polls|
      invariant fresh(stats) && stats.Valid(c, m.tokens)
      invariant stats.lastTradeAt.Some? ==> n > 0 && stats.lastTradeAt.value <= polls[n - 1].setAt
      invariant stats.Figures() == TallyOf(c, m, polls[..n])
      invariant stats.attempts == AttemptTimes(c, m, polls[..n])
    {
      stats.ProcessNext(c, m, polls, n);
    }
    assert polls[..|polls|] == polls;
  }

  /**
   Every poll of a market's period, in any number and with any books and answers. The figures are exactly what the
   polls add up to, and every signal counts once; the rest is what they keep within whatever the polls are.
   */
  method RunPeriod(c: Config, m: Tracked, polls: seq<Poll>) returns (stats: PeriodStats)
    requires m.tokens.yes != m.tokens.no && WholePairs(c.pairsPerTrade) && Chronological(polls)
    ensures fresh(stats) && stats.Valid(c, m.tokens)
    ensures stats.Figures() == TallyOf(c, m, polls)
    ensures stats.opportunities == stats.longSignals + stats.shortSignals == Signals(c, m, polls)
    ensures c.mode == Live ==> stats.tradesThisPeriod == stats.longSuccesses + stats.shortSuccesses <= c.maxTrades
    ensures c.mode != Live ==> stats.tradesThisPeriod == 2 * (stats.longSuccesses + stats.shortSuccesses) <= c.maxTrades + 1
    ensures c.mode == Live ==> |stats.attempts| == stats.longAttempts + stats.shortAttempts
    ensures c.mode != Live ==> |stats.attempts| == stats.longSuccesses + stats.shortSuccesses
    ensures Apart(stats.attempts, c.cooldownSecs * 1_000_000_000)
    ensures MeetsFloor(c, stats.longSuccesses, stats.shortSuccesses, stats.expectedPnl)
    ensures stats.usdc == Usdc(stats.ledger)
    ensures c.mode == Live && CanClose(c) && |stats.attempts| == stats.longSuccesses + stats.shortSuccesses ==>
              Flat(stats.ledger, m.tokens)
    ensures c.mode == Live && CanClose(c) && stats.atQuotes ==> stats.usdc >= stats.expectedPnl
    ensures stats.attempts == AttemptTimes(c, m, polls)
    ensures c.mode == Live && CanClose(c) && (c.shortEnabled ==> c.splitEnabled) && c.pairsPerTrade >= 5.0 && AllAtQuotes(c, m, polls) ==>
              stats.usdc >= stats.expectedPnl
  {
    stats := PollAll(c, m, polls);
    OpportunitiesAreSignals(c, m, polls);
    if c.mode == Live && CanClose(c) && (c.shortEnabled ==> c.splitEnabled) && c.pairsPerTrade >= 5.0 && AllAtQuotes(c, m, polls) {
      EarnedAtQuotes(c, m, polls);
    }
    assert Look(AboutGap, 0) && Look(AboutWallet, 0);
    AllApart(stats.attempts, Cooldown(c));
    FloorsAreProducts(c, stats.longFloor, stats.shortFloor, stats.longSuccesses, stats.shortSuccesses, stats.expectedPnl);
  }

  lemma NextPoll(c: Config, m: Tracked, polls: seq<Poll>, n: nat, after: Tally)
    requires n < |polls| && Polled(c, m, TallyOf(c, m, polls[..n]), polls[n], after)
    ensures after == TallyOf(c, m, polls[..n + 1])
  {
    assert Look(AboutSteps, 0);
    assert polls[..n + 1][..n] == polls[..n];
  }

  lemma NextTime(c: Config, m: Tracked, polls: seq<Poll>, n: nat, times: seq<int>, after: seq<int>)
    requires n < |polls| && times == AttemptTimes(c, m, polls[..n])
    requires after == times || after == times + [polls[n].setAt]
    requires |times| == Tries(c, TallyOf(c, m, polls[..n])) && |after| == Tries(c, TallyOf(c, m, polls[..n + 1]))
    ensures after == AttemptTimes(c, m, polls[..n + 1])
  {
    assert polls[..n + 1][..n] == polls[..n];
    OneMoreTry(c, m, TallyOf(c, m, polls[..n]), polls[n]);
  }

  /** The configured minimum edges, once per success. */
  ghost predicate MeetsFloor(c: Config, longs: nat, shorts: nat, pnl: real) {
    pnl >= longs as real * (c.pairsPerTrade * (1.0 - c.maxLongAsk + c.feeBuffer))
           + shorts as real * (c.pairsPerTrade * (c.minShortBid + c.feeBuffer - 1.0))
  }

  lemma FloorsAreProducts(c: Config, long: real, short: real, longs: nat, shorts: nat, pnl: real)
    requires AreFloors(c, long, short) && pnl >= Times(longs, long) + Times(shorts, short)
    ensures MeetsFloor(c, longs, shorts, pnl)
  {
    assert Look(AboutFloors, 0);
    TimesIsProduct(longs, long);
    TimesIsProduct(shorts, short);
  }
}
