/**
 The decisions of one tick of a replay: which bids to quote on both sides, how
 to leave an excess of shares, and when to complete pairs at the ask.
 */
module Quoting {
  import opened Common
  import opened Decimals
  import opened Holdings
  import PaperSim
  import opened Profile
  import opened Ladders
  import opened ExitPlans
  import opened Budget

  datatype TickData = TickData(timestamp: int, fvUp: real, fvDown: real, remainingSecs: real,
                               bestBidUp: real, bestAskUp: real, bestBidDown: real, bestAskDown: real)
  {
    function Book(): PaperSim.Book {
      PaperSim.Book(Positive(bestAskUp), Positive(bestAskDown), Positive(bestBidUp), Positive(bestBidDown))
    }

    function Fv(): (real, real) {
      (fvUp, fvDown)
    }

    function YesPrices(): Prices {
      Prices(fvUp, Positive(bestBidUp), Positive(bestAskUp))
    }

    function NoPrices(): Prices {
      Prices(fvDown, Positive(bestBidDown), Positive(bestAskDown))
    }
  }

  function Positive(x: real): Option<real> {
    if x > 0.0 then Some(x) else None
  }

  /** What is fixed for a whole period. */
  datatype Rules = Rules(profile: ReplayProfile, ladderLevels: nat, activationLimit: Option<nat>, totalMarketSecs: real)

  /** What the replay remembers from tick to tick besides orders and position. */
  datatype Memory = Memory(lastFv: Option<(real, real)>, pairCompletionAttempts: nat, lastPairCompletionAt: Option<int>,
                           firstOrderPlacedAt: Option<int>, exitBuyBlock: Option<Outcome>,
                           lastSellTimeYes: Option<int>, lastSellTimeNo: Option<int>,
                           hardExcessStartedAt: Option<int>, lastMergeTime: Option<int>)
  {
    function LastSellTime(o: Outcome): Option<int> {
      if o == Yes then lastSellTimeYes else lastSellTimeNo
    }

    function SoldAt(o: Outcome, now: int): Memory {
      if o == Yes then this.(lastSellTimeYes := Some(now)) else this.(lastSellTimeNo := Some(now))
    }

    /** Fair value has moved enough since the last re-quote, or there was none. */
    predicate FvShifted(profile: ReplayProfile, tick: TickData) {
      lastFv.None? || Abs(tick.fvUp - lastFv.value.0) > profile.fvStaleCents || Abs(tick.fvDown - lastFv.value.1) > profile.fvStaleCents
    }
  }

  const FORGOTTEN: Memory := Memory(None, 0, None, None, None, None, None, None, None)

  /** At least `secs` whole seconds since `last`, or no `last` at all. */
  predicate Due(last: Option<int>, now: int, secs: nat) {
    last.None? || NumSeconds(now - last.value) >= secs
  }

  // ----- phases of a period -----

  datatype ReplayPhase = Early | Middle | Late | Closing | Resolved

  function PhaseFromRemaining(remainingSecs: real, totalSecs: real, marginSecs: nat): ReplayPhase {
    if remainingSecs <= 0.0 then Resolved
    else if remainingSecs <= marginSecs as real then Closing
    else
      var effective := totalSecs - marginSecs as real;
      if effective <= 0.0 then Late
      else
        var pct := (remainingSecs - marginSecs as real) / effective;
        if pct <= 0.33 then Late else if pct <= 0.67 then Middle else Early
  }

  function ElapsedPct(remainingSecs: real, totalSecs: real): real {
    if totalSecs <= 0.0 then 0.0 else Max(0.0, Min(1.0, 1.0 - remainingSecs / totalSecs))
  }

  function PairRatio(h: Holding): real {
    if h.TotalQty() <= 0.0 then 1.0 else Max(0.0, Min(1.0, h.Pairs() * 2.0 / h.TotalQty()))
  }

  // ----- the same in plain figures -----

  /** Quotes that are not positive count as missing. */
  lemma BookMeans(t: TickData)
    ensures t.Book().yesAsk == (if t.bestAskUp > 0.0 then Some(t.bestAskUp) else None)
    ensures t.Book().noAsk == (if t.bestAskDown > 0.0 then Some(t.bestAskDown) else None)
    ensures t.Book().yesBid == (if t.bestBidUp > 0.0 then Some(t.bestBidUp) else None)
    ensures t.Book().noBid == (if t.bestBidDown > 0.0 then Some(t.bestBidDown) else None)
    ensures t.YesPrices() == Prices(t.fvUp, t.Book().yesBid, t.Book().yesAsk)
    ensures t.NoPrices() == Prices(t.fvDown, t.Book().noBid, t.Book().noAsk)
    ensures t.Fv() == (t.fvUp, t.fvDown)
  {
  }

  /** Seconds have passed on the clock in nanoseconds; for no seconds at all it may lag by less than one. */
  predicate Waited(last: Option<int>, now: int, secs: nat) {
    last.None? || (if secs > 0 then now - last.value >= secs * 1_000_000_000 else now - last.value > -1_000_000_000)
  }

  lemma DueMeans(last: Option<int>, now: int, secs: nat)
    ensures Due(last, now, secs) <==> Waited(last, now, secs)
  {
    if last.Some? {
      WholeSeconds(now - last.value, secs);
      WholeSeconds(now - last.value, 1);
    }
  }

  /** A re-quote is due when there was none, or either fair value has moved by more than the setting in either direction. */
  lemma ShiftMeans(m: Memory, profile: ReplayProfile, t: TickData)
    ensures m.FvShifted(profile, t)
       <==> || m.lastFv.None?
            || t.fvUp - m.lastFv.value.0 > profile.fvStaleCents || m.lastFv.value.0 - t.fvUp > profile.fvStaleCents
            || t.fvDown - m.lastFv.value.1 > profile.fvStaleCents || m.lastFv.value.1 - t.fvDown > profile.fvStaleCents
            || profile.fvStaleCents < 0.0
  {
  }

  /** The part of the period that has passed, between nothing and all of it. */
  lemma ElapsedMeans(remainingSecs: real, totalSecs: real)
    requires 0.0 < totalSecs
    ensures remainingSecs >= totalSecs ==> ElapsedPct(remainingSecs, totalSecs) == 0.0
    ensures remainingSecs <= 0.0 ==> ElapsedPct(remainingSecs, totalSecs) == 1.0
    ensures 0.0 <= remainingSecs <= totalSecs ==> ElapsedPct(remainingSecs, totalSecs) * totalSecs == totalSecs - remainingSecs
  {
    var part := remainingSecs / totalSecs;
    DivMul(remainingSecs, totalSecs);
    if 0.0 <= remainingSecs <= totalSecs {
      assert 0.0 <= part <= 1.0 by {
        QuotientInUnit(remainingSecs, totalSecs);
      }
      assert ElapsedPct(remainingSecs, totalSecs) == 1.0 - part;
      assert (1.0 - part) * totalSecs == totalSecs - part * totalSecs;
    } else if remainingSecs > totalSecs {
      OverOne(remainingSecs, totalSecs);
    } else {
      UnderZero(remainingSecs, totalSecs);
    }
  }

  lemma QuotientInUnit(a: real, b: real)
    requires 0.0 <= a <= b && 0.0 < b
    ensures 0.0 <= a / b <= 1.0
  {
  }

  lemma OverOne(a: real, b: real)
    requires 0.0 < b < a
    ensures a / b > 1.0
  {
  }

  lemma UnderZero(a: real, b: real)
    requires a < 0.0 < b
    ensures a / b < 0.0
  {
  }

  /** The late phase: not yet in the safety margin, and with at most a third of what lies before it left. */
  lemma LateMeans(remainingSecs: real, totalSecs: real, marginSecs: nat)
    ensures PhaseFromRemaining(remainingSecs, totalSecs, marginSecs) == Late
       <==> && 0.0 < remainingSecs && marginSecs as real < remainingSecs
            && (totalSecs <= marginSecs as real || remainingSecs - marginSecs as real <= 0.33 * (totalSecs - marginSecs as real))
  {
    if marginSecs as real < totalSecs {
      AtMostPart(remainingSecs - marginSecs as real, totalSecs - marginSecs as real, 0.33);
    }
  }

  /** The middle phase: before the late one, with at most two thirds left. */
  lemma MiddleMeans(remainingSecs: real, totalSecs: real, marginSecs: nat)
    requires 0.0 < remainingSecs && marginSecs as real < remainingSecs && marginSecs as real < totalSecs
    ensures PhaseFromRemaining(remainingSecs, totalSecs, marginSecs) in {Early, Middle, Late}
    ensures PhaseFromRemaining(remainingSecs, totalSecs, marginSecs) == Early
       <==> remainingSecs - marginSecs as real > 0.67 * (totalSecs - marginSecs as real)
  {
    AtMostPart(remainingSecs - marginSecs as real, totalSecs - marginSecs as real, 0.33);
    AtMostPart(remainingSecs - marginSecs as real, totalSecs - marginSecs as real, 0.67);
    MulMonotone(totalSecs - marginSecs as real, 0.33, 0.67);
  }

  lemma AtMostPart(a: real, b: real, part: real)
    requires 0.0 < b
    ensures a / b <= part <==> a <= part * b
  {
    var q := a / b;
    DivMul(a, b);
    if q <= part {
      MulMonotone(b, q, part);
    } else {
      MulPositive(b, q - part);
      assert b * (q - part) == a - part * b;
    }
  }

  /** A position counts as unbalanced for its heavy side when, past the early phase, too few of its many shares are in pairs. */
  lemma LopsidedMeans(profile: ReplayProfile, h: Holding, o: Outcome, elapsedPct: real)
    requires h.Valid()
    ensures var pairs := if h.yes.qty <= h.no.qty then h.yes.qty else h.no.qty;
      var total := h.yes.qty + h.no.qty;
      Lopsided(profile, h, o, elapsedPct)
      <==> && elapsedPct >= profile.earlyPhasePct && total >= profile.pairRatioEvalMinTotalShares
           && (if o == Yes then h.yes.qty > h.no.qty else h.no.qty > h.yes.qty)
           && pairs * 2.0 / total < profile.periodMinPairRatioForHeavyAdd
  {
    if h.yes.qty + h.no.qty > 0.0 {
      QuotientInUnit(h.Pairs() * 2.0, h.yes.qty + h.no.qty);
    }
  }

  // ----- completing pairs -----

  const PAIR_COMPLETION_MAX_SHARES: real := 20.0

  /** Buy the missing side at its ask, when the pair with the held side still costs less than a dollar. */
  function ComputePairCompletion(h: Holding, yesAsk: Option<real>, noAsk: Option<real>, maxPerCycle: real, fee: real)
    : Option<LadderLevel>
  {
    var absExcess := Abs(h.Excess());
    if absExcess < 1.0 then None
    else
      var heavy := if h.Excess() > 0.0 then Yes else No;
      var light := if heavy == Yes then No else Yes;
      var ask := if light == Yes then yesAsk else noAsk;
      if h.Side(heavy).qty <= 0.0 || ask.None? then None
      else if h.Side(heavy).Avg() + ask.value + fee >= 1.0 then None
      else
        var level := LadderLevel(light, ask.value, QuantizeSize(Min(absExcess, maxPerCycle)));
        if level.size < MIN_ORDER_SHARES || level.Notional() < 1.0 then None else Some(level)
  }

  /**
   A pair is completed exactly when one side is short, its ask keeps the pair under a dollar with the fee, and the
   missing shares are a sellable order worth at least a dollar. Then it is the short side, at its ask.
   */
  lemma PairCompletionIs(h: Holding, yesAsk: Option<real>, noAsk: Option<real>, maxPerCycle: real, fee: real)
    requires h.Valid()
    ensures var r := ComputePairCompletion(h, yesAsk, noAsk, maxPerCycle, fee);
      var shares := QuantizeSize(Min(Abs(h.Excess()), maxPerCycle));
      var ask := if h.Light() == Some(Yes) then yesAsk else noAsk;
      && (r.Some? <==>
            && h.Light().Some? && ask.Some?
            && h.Side(h.Heavy().value).Avg() + ask.value + fee < 1.0
            && MIN_ORDER_SHARES <= shares && 1.0 <= LadderLevel(h.Light().value, ask.value, shares).Notional())
      && (r.Some? ==>
            r.value == LadderLevel(h.Light().value, ask.value, shares) && shares <= Abs(h.Excess()) && shares <= maxPerCycle)
  {
    var shares := QuantizeSize(Min(Abs(h.Excess()), maxPerCycle));
    assert MIN_ORDER_SHARES <= shares ==> shares <= Min(Abs(h.Excess()), maxPerCycle);
  }

  /**
   The same in the columns of a tick: with more YES than NO shares it is the NO token at its ask, for as many shares as
   are missing but at most twenty, when the average YES cost, the ask and the fee stay under a dollar; and the reverse.
   */
  lemma CompletionMeans(h: Holding, t: TickData, fee: real)
    requires h.Valid()
    ensures var r := ComputePairCompletion(h, t.Book().yesAsk, t.Book().noAsk, PAIR_COMPLETION_MAX_SHARES, fee);
      && (h.yes.qty == h.no.qty ==> r.None?)
      && (h.yes.qty > h.no.qty ==>
            var shares := QuantizeSize(if h.yes.qty - h.no.qty <= 20.0 then h.yes.qty - h.no.qty else 20.0);
            var level := LadderLevel(No, t.bestAskDown, shares);
            r == if 0.0 < t.bestAskDown && h.yes.spent / h.yes.qty + t.bestAskDown + fee < 1.0 && 5.0 <= shares && 1.0 <= level.Notional()
                 then Some(level) else None)
      && (h.no.qty > h.yes.qty ==>
            var shares := QuantizeSize(if h.no.qty - h.yes.qty <= 20.0 then h.no.qty - h.yes.qty else 20.0);
            var level := LadderLevel(Yes, t.bestAskUp, shares);
            r == if 0.0 < t.bestAskUp && h.no.spent / h.no.qty + t.bestAskUp + fee < 1.0 && 5.0 <= shares && 1.0 <= level.Notional()
                 then Some(level) else None)
  {
    PairCompletionIs(h, t.Book().yesAsk, t.Book().noAsk, PAIR_COMPLETION_MAX_SHARES, fee);
    BookMeans(t);
  }

  // ----- the bids of a tick -----

  function Silenced(cleared: bool, l: Ladder): Ladder {
    if cleared then [] else l
  }

  /** Before the trading window nothing is quoted; after it at most the side that is short of shares. */
  predicate OutOfWindow(profile: ReplayProfile, h: Holding, o: Outcome, elapsedPct: real) {
    || elapsedPct < profile.tradingWindowStartPct
    || (elapsedPct > profile.tradingWindowEndPct && !(profile.windDownAllowPairCompletion && h.Light() == Some(o)))
  }

  /** Only this outcome is held, and enough of it. */
  predicate OneSided(profile: ReplayProfile, h: Holding, o: Outcome) {
    h.Pairs() == 0.0 && h.Side(o).qty >= profile.oneSidedThreshold && h.Side(if o == Yes then No else Yes).qty == 0.0
  }

  /** The heavy side of a position with too few pairs, once the early phase is over. */
  predicate Lopsided(profile: ReplayProfile, h: Holding, o: Outcome, elapsedPct: real) {
    && elapsedPct >= profile.earlyPhasePct && h.TotalQty() >= profile.pairRatioEvalMinTotalShares
    && PairRatio(h) < profile.periodMinPairRatioForHeavyAdd && h.Heavy() == Some(o)
  }

  /** The outcome was sold a moment ago. */
  predicate Cooling(profile: ReplayProfile, m: Memory, o: Outcome, now: int) {
    profile.sellBuyCooldownSecs > 0 && !Due(m.LastSellTime(o), now, profile.sellBuyCooldownSecs)
  }

  /** An exit has blocked the side, and it is still the heavy one. */
  predicate Blocked(m: Memory, h: Holding, o: Outcome) {
    m.exitBuyBlock == Some(o) && h.Heavy() == Some(o)
  }

  /** Fair-value ladders, re-anchored to the asks and skewed away from the heavy side. */
  function Shaped(profile: ReplayProfile, h: Holding, levels: nat, tick: TickData): (Ladder, Ladder) {
    var l := BidLadders(profile, tick.fvUp, tick.fvDown, h, levels);
    var yes := AnchoredOf(profile, Yes, l.0, Positive(tick.bestAskUp), MinBid(profile, tick.fvUp), levels);
    var no := AnchoredOf(profile, No, l.1, Positive(tick.bestAskDown), MinBid(profile, tick.fvDown), levels);
    (SkewedOf(profile, yes, Yes, h), SkewedOf(profile, no, No, h))
  }

  /** Shaped ladders, limited to the trading window and cut by the cost filters. */
  function Guarded(profile: ReplayProfile, h: Holding, levels: nat, tick: TickData, elapsedPct: real): (Ladder, Ladder) {
    var l := Shaped(profile, h, levels, tick);
    CostFiltered(LimitsOf(profile, h), Silenced(OutOfWindow(profile, h, Yes, elapsedPct), l.0),
                 Silenced(OutOfWindow(profile, h, No, elapsedPct), l.1))
  }

  /** The heavy side gets no bids while the position is too one-sided; the light side may be boosted. */
  function Balanced(profile: ReplayProfile, h: Holding, levels: nat, tick: TickData, elapsedPct: real): (Ladder, Ladder) {
    var l := Guarded(profile, h, levels, tick, elapsedPct);
    (RebalancedOf(profile, Silenced(OneSided(profile, h, Yes) || Lopsided(profile, h, Yes, elapsedPct), l.0), Yes, h),
     RebalancedOf(profile, Silenced((OneSided(profile, h, No) && !OneSided(profile, h, Yes)) || Lopsided(profile, h, No, elapsedPct), l.1), No, h))
  }

  /** No bids on a side that was just sold, nor on the side an exit has blocked while it is still heavy. */
  function Quoted(r: Rules, h: Holding, m: Memory, tick: TickData): (Ladder, Ladder) {
    var l := Balanced(r.profile, h, r.ladderLevels, tick, ElapsedPct(tick.remainingSecs, r.totalMarketSecs));
    (Silenced(Cooling(r.profile, m, Yes, tick.timestamp) || Blocked(m, h, Yes), l.0),
     Silenced(Cooling(r.profile, m, No, tick.timestamp) || Blocked(m, h, No), l.1))
  }

  /** What every tick's bids satisfy: the cost guard, and no bid at or through the ask it competes with. */
  ghost predicate SafeQuotes(profile: ReplayProfile, c: CostLimits, tick: TickData, yes: Ladder, no: Ladder) {
    && Quotes(yes, Yes, MinBid(profile, tick.fvUp)) && Quotes(no, No, MinBid(profile, tick.fvDown))
    && CostGuarded(c, yes, no)
    && BelowAsk(profile, yes, Positive(tick.bestAskUp)) && BelowAsk(profile, no, Positive(tick.bestAskDown))
  }

  method ShapedLadders(profile: ReplayProfile, h: Holding, levels: nat, tick: TickData) returns (yes: Ladder, no: Ladder)
    ensures (yes, no) == Shaped(profile, h, levels, tick)
    ensures Quotes(yes, Yes, MinBid(profile, tick.fvUp)) && Quotes(no, No, MinBid(profile, tick.fvDown))
    ensures BelowAsk(profile, yes, Positive(tick.bestAskUp)) && BelowAsk(profile, no, Positive(tick.bestAskDown))
  {
    ghost var lowYes, lowNo := MinBid(profile, tick.fvUp), MinBid(profile, tick.fvDown);
    var y0, n0 := ComputeBidLadder(profile, tick.fvUp, tick.fvDown, h, levels);
    var y1 := AnchorToAsk(profile, Yes, y0, Positive(tick.bestAskUp), MinBid(profile, tick.fvUp), levels);
    var n1 := AnchorToAsk(profile, No, n0, Positive(tick.bestAskDown), MinBid(profile, tick.fvDown), levels);
    yes, no := ApplyPostAnchorSkew(profile, y1, n1, h, lowYes, lowNo);
  }

  method LimitToWindow(profile: ReplayProfile, h: Holding, yes: Ladder, no: Ladder, elapsedPct: real)
    returns (yes': Ladder, no': Ladder)
    ensures yes' == Silenced(OutOfWindow(profile, h, Yes, elapsedPct), yes)
    ensures no' == Silenced(OutOfWindow(profile, h, No, elapsedPct), no)
  {
    yes', no' := yes, no;
    if elapsedPct < profile.tradingWindowStartPct {
      yes', no' := [], [];
    } else if elapsedPct > profile.tradingWindowEndPct {
      var kept := if profile.windDownAllowPairCompletion then h.Light() else None;
      if kept != Some(Yes) {
        yes' := [];
      }
      if kept != Some(No) {
        no' := [];
      }
    }
  }

  method GuardedLadders(profile: ReplayProfile, h: Holding, levels: nat, tick: TickData, elapsedPct: real)
    returns (yes: Ladder, no: Ladder)
    ensures (yes, no) == Guarded(profile, h, levels, tick, elapsedPct)
    ensures SafeQuotes(profile, LimitsOf(profile, h), tick, yes, no)
  {
    var y, n := ShapedLadders(profile, h, levels, tick);
    y, n := LimitToWindow(profile, h, y, n, elapsedPct);
    yes, no := ApplyCostFilters(LimitsOf(profile, h), y, n, MinBid(profile, tick.fvUp), MinBid(profile, tick.fvDown));
  }

  method ClearHeavySides(profile: ReplayProfile, h: Holding, yes: Ladder, no: Ladder, elapsedPct: real)
    returns (yes': Ladder, no': Ladder)
    ensures yes' == Silenced(OneSided(profile, h, Yes) || Lopsided(profile, h, Yes, elapsedPct), yes)
    ensures no' == Silenced((OneSided(profile, h, No) && !OneSided(profile, h, Yes)) || Lopsided(profile, h, No, elapsedPct), no)
  {
    yes', no' := yes, no;
    if h.Pairs() == 0.0 {
      if h.yes.qty >= profile.oneSidedThreshold && h.no.qty == 0.0 {
        yes' := [];
      } else if h.no.qty >= profile.oneSidedThreshold && h.yes.qty == 0.0 {
        no' := [];
      }
    }
    if elapsedPct >= profile.earlyPhasePct && h.TotalQty() >= profile.pairRatioEvalMinTotalShares
       && PairRatio(h) < profile.periodMinPairRatioForHeavyAdd {
      if h.Heavy() == Some(Yes) {
        yes' := [];
      } else if h.Heavy() == Some(No) {
        no' := [];
      }
    }
  }

  /** Everything that shapes the bids before past sales and exits are considered. */
  method BuildQuotes(profile: ReplayProfile, h: Holding, levels: nat, tick: TickData, elapsedPct: real)
    returns (yes: Ladder, no: Ladder)
    ensures (yes, no) == Balanced(profile, h, levels, tick, elapsedPct)
    ensures SafeQuotes(profile, LimitsOf(profile, h), tick, yes, no)
  {
    var y0, n0 := GuardedLadders(profile, h, levels, tick, elapsedPct);
    var y1, n1 := ClearHeavySides(profile, h, y0, n0, elapsedPct);
    ClearedStaySafe(profile, LimitsOf(profile, h), tick, y0, n0, y1, n1);
    yes, no := ApplyRebalanceSizeMultiplier(profile, y1, n1, h, MinBid(profile, tick.fvUp), MinBid(profile, tick.fvDown));
    SamePricesStaySafe(profile, LimitsOf(profile, h), tick, y1, n1, yes, no);
  }

  lemma SamePricesStaySafe(profile: ReplayProfile, c: CostLimits, tick: TickData, yes: Ladder, no: Ladder,
                           yes': Ladder, no': Ladder)
    requires SafeQuotes(profile, c, tick, yes, no)
    requires Quotes(yes', Yes, MinBid(profile, tick.fvUp)) && Quotes(no', No, MinBid(profile, tick.fvDown))
    requires SamePrices(yes', yes) && SamePrices(no', no)
    ensures SafeQuotes(profile, c, tick, yes', no')
  {
    SamePricesKeepGuard(c, yes, no, yes', no');
  }

  /** Dropping one whole side never makes quotes unsafe. */
  lemma ClearedStaySafe(profile: ReplayProfile, c: CostLimits, tick: TickData, y: Ladder, n: Ladder, yes: Ladder, no: Ladder)
    requires SafeQuotes(profile, c, tick, y, n)
    requires (yes == y || yes == []) && (no == n || no == [])
    ensures SafeQuotes(profile, c, tick, yes, no)
  {
  }

  lemma PrefixQuotes(l: Ladder, p: Ladder, o: Outcome, floor: real)
    requires Quotes(l, o, floor) && p <= l
    ensures Quotes(p, o, floor) && SamePrices(p, l)
  {
    forall q | q in p ensures q in l {
      var i :| 0 <= i < |p| && p[i] == q;
      assert l[i] == q;
    }
  }

  // ----- the decision of a tick -----

  /** An outcome's bids are silent for the configured seconds after its last sale, and while an exit blocks its heavy side. */
  lemma SilenceMeans(profile: ReplayProfile, m: Memory, h: Holding, o: Outcome, now: int)
    ensures var sold := if o == Yes then m.lastSellTimeYes else m.lastSellTimeNo;
      Cooling(profile, m, o, now) <==> sold.Some? && now - sold.value < profile.sellBuyCooldownSecs * 1_000_000_000 && profile.sellBuyCooldownSecs > 0
    ensures Blocked(m, h, o) <==> m.exitBuyBlock == Some(o) && (if o == Yes then h.yes.qty > h.no.qty else h.no.qty > h.yes.qty)
  {
    DueMeans(m.LastSellTime(o), now, profile.sellBuyCooldownSecs);
  }

  /** Bids to place, how to leave the excess, and the side that gets no bids while an exit runs. */
  datatype Decision = Decision(yes: Ladder, no: Ladder, plan: ExitPlan, exitBuyBlock: Option<Outcome>)

  function FirstLevels(limit: Option<nat>, l: Ladder): Ladder {
    if limit.Some? && limit.value < |l| then l[..limit.value] else l
  }

  /** The plan for the excess, given the bids that would be placed. */
  function PlannedExit(r: Rules, h: Holding, m: Memory, tick: TickData, yes: Ladder, no: Ladder): ExitPlan {
    var inGrace := m.firstOrderPlacedAt.None? || !Due(m.firstOrderPlacedAt, tick.timestamp, r.profile.sellbackGracePeriodSecs);
    var heavySideHasBuys := (h.Heavy() == Some(Yes) && yes != []) || (h.Heavy() == Some(No) && no != []);
    var breakerSecs :=
      if m.hardExcessStartedAt.Some? then Max(NumSeconds(tick.timestamp - m.hardExcessStartedAt.value) as real, 0.0) else 0.0;
    ExitPlanOf(h, tick.YesPrices(), tick.NoPrices(), r.profile, tick.remainingSecs, breakerSecs, inGrace, heavySideHasBuys)
  }

  /**
   What an exit is planned from: the prices of both sides, the whole seconds of a very large excess, whether the grace period
   after the first order is still on, and whether the side with more shares would get bids.
   */
  lemma PlannedExitMeans(r: Rules, h: Holding, m: Memory, t: TickData, yes: Ladder, no: Ladder)
    ensures PlannedExit(r, h, m, t, yes, no)
         == ExitPlanOf(h, Shown(t.fvUp, t.bestBidUp, t.bestAskUp), Shown(t.fvDown, t.bestBidDown, t.bestAskDown),
                       r.profile, t.remainingSecs, SecsSince(m.hardExcessStartedAt, t.timestamp),
                       m.firstOrderPlacedAt.None? || !Waited(m.firstOrderPlacedAt, t.timestamp, r.profile.sellbackGracePeriodSecs),
                       (h.yes.qty > h.no.qty && yes != []) || (h.no.qty > h.yes.qty && no != []))
  {
    DueMeans(m.firstOrderPlacedAt, t.timestamp, r.profile.sellbackGracePeriodSecs);
    var breakerSecs :=
      if m.hardExcessStartedAt.Some? then Max(NumSeconds(t.timestamp - m.hardExcessStartedAt.value) as real, 0.0) else 0.0;
    assert breakerSecs == SecsSince(m.hardExcessStartedAt, t.timestamp);
    assert t.YesPrices() == Shown(t.fvUp, t.bestBidUp, t.bestAskUp) && t.NoPrices() == Shown(t.fvDown, t.bestBidDown, t.bestAskDown);
  }

  /** The prices of one side; a quote that is not positive is none. */
  function Shown(fv: real, bid: real, ask: real): Prices {
    Prices(fv, if bid > 0.0 then Some(bid) else None, if ask > 0.0 then Some(ask) else None)
  }

  /** Whole seconds since then, and none without a start or before it. */
  function SecsSince(start: Option<int>, now: int): real {
    if start.Some? && now >= start.value then ((now - start.value) / 1_000_000_000) as real else 0.0
  }

  /** While an exit runs, its side gets no bids; of the others only the first levels become active. */
  function LeaveWith(r: Rules, h: Holding, m: Memory, tick: TickData, yes: Ladder, no: Ladder): Decision {
    var plan := PlannedExit(r, h, m, tick, yes, no);
    var exits := if plan == Skip then None else Some(plan.heavy);
    Decision(FirstLevels(r.activationLimit, Silenced(exits == Some(Yes), yes)),
             FirstLevels(r.activationLimit, Silenced(exits == Some(No), no)),
             plan,
             if exits.Some? then exits else if m.exitBuyBlock == h.Heavy() then m.exitBuyBlock else None)
  }

  /** The decision of a tick that re-quotes, from the rules, the position and what is remembered. */
  function Decided(r: Rules, h: Holding, m: Memory, tick: TickData): Decision {
    var l := Quoted(r, h, m, tick);
    LeaveWith(r, h, m, tick, l.0, l.1)
  }

  /**
   Outside the trading window the whole chain of steps leaves nothing to place: before it no bid at all, after it at
   most bids on the side that is short of shares, and those only where pairs may still be completed.
   */
  lemma QuietOutsideWindow(r: Rules, h: Holding, m: Memory, tick: TickData)
    ensures var elapsedPct, d := ElapsedPct(tick.remainingSecs, r.totalMarketSecs), Decided(r, h, m, tick);
      && (elapsedPct < r.profile.tradingWindowStartPct ==> d.yes == [] && d.no == [])
      && (elapsedPct > r.profile.tradingWindowEndPct ==>
            && (d.yes != [] ==> r.profile.windDownAllowPairCompletion && h.Light() == Some(Yes))
            && (d.no != [] ==> r.profile.windDownAllowPairCompletion && h.Light() == Some(No)))
  {
    var elapsedPct := ElapsedPct(tick.remainingSecs, r.totalMarketSecs);
    var l := Shaped(r.profile, h, r.ladderLevels, tick);
    GuardedNothing(r.profile, h, r.ladderLevels, tick, elapsedPct);
  }

  lemma GuardedNothing(profile: ReplayProfile, h: Holding, levels: nat, tick: TickData, elapsedPct: real)
    ensures OutOfWindow(profile, h, Yes, elapsedPct) ==> Guarded(profile, h, levels, tick, elapsedPct).0 == []
    ensures OutOfWindow(profile, h, No, elapsedPct) ==> Guarded(profile, h, levels, tick, elapsedPct).1 == []
  {
  }

  /**
   Bids that respect the cost guard, and an exit that offers no more than the excess and above its loss floor; kept out
   of sight where it is passed on.
   */
  ghost predicate SafeDecision(profile: ReplayProfile, h: Holding, tick: TickData, d: Decision) {
    forall n: nat {:trigger Look(AboutExits, n)} :: Look(AboutExits, n) ==>
      && SafeQuotes(profile, LimitsOf(profile, h), tick, d.yes, d.no)
      && (d.plan != Skip ==>
            && d.exitBuyBlock == h.Heavy() == Some(d.plan.heavy)
            && (if d.plan.heavy == Yes then d.yes == [] else d.no == []))
      && (d.plan.Maker? ==>
            SellLadder(d.plan.levels, d.plan.heavy, LossFloor(h, d.plan.heavy, profile, tick.remainingSecs), Abs(h.Excess())))
      && (d.plan.Taker? ==>
            && MIN_ORDER_SHARES <= d.plan.size <= Abs(h.Excess())
            && 0.0 < d.plan.price && LossFloor(h, d.plan.heavy, profile, tick.remainingSecs) <= d.plan.price
            && Some(d.plan.price) == (if d.plan.heavy == Yes then tick.YesPrices().bid else tick.NoPrices().bid))
  }

  method Quote(r: Rules, h: Holding, m: Memory, tick: TickData) returns (yes: Ladder, no: Ladder)
    ensures (yes, no) == Quoted(r, h, m, tick)
    ensures SafeQuotes(r.profile, LimitsOf(r.profile, h), tick, yes, no)
  {
    var y, n := BuildQuotes(r.profile, h, r.ladderLevels, tick, ElapsedPct(tick.remainingSecs, r.totalMarketSecs));
    yes, no := y, n;
    if Cooling(r.profile, m, Yes, tick.timestamp) || Blocked(m, h, Yes) {
      yes := [];
    }
    if Cooling(r.profile, m, No, tick.timestamp) || Blocked(m, h, No) {
      no := [];
    }
    ClearedStaySafe(r.profile, LimitsOf(r.profile, h), tick, y, n, yes, no);
  }

  method PlanExit(r: Rules, h: Holding, m: Memory, tick: TickData, yes: Ladder, no: Ladder) returns (plan: ExitPlan)
    ensures plan == PlannedExit(r, h, m, tick, yes, no)
    ensures plan.Maker? ==>
              && h.Heavy() == Some(plan.heavy)
              && SellLadder(plan.levels, plan.heavy, LossFloor(h, plan.heavy, r.profile, tick.remainingSecs), Abs(h.Excess()))
    ensures plan.Taker? ==>
              && h.Heavy() == Some(plan.heavy)
              && MIN_ORDER_SHARES <= plan.size <= Abs(h.Excess())
              && 0.0 < plan.price && LossFloor(h, plan.heavy, r.profile, tick.remainingSecs) <= plan.price
              && Some(plan.price) == (if plan.heavy == Yes then tick.YesPrices().bid else tick.NoPrices().bid)
  {
    var inGrace := m.firstOrderPlacedAt.None? || !Due(m.firstOrderPlacedAt, tick.timestamp, r.profile.sellbackGracePeriodSecs);
    var heavySideHasBuys := (h.Heavy() == Some(Yes) && yes != []) || (h.Heavy() == Some(No) && no != []);
    var breakerSecs :=
      if m.hardExcessStartedAt.Some? then Max(NumSeconds(tick.timestamp - m.hardExcessStartedAt.value) as real, 0.0) else 0.0;
    plan := ComputeExcessExitPlan(h, tick.YesPrices(), tick.NoPrices(), r.profile, tick.remainingSecs, breakerSecs, inGrace,
                                  heavySideHasBuys);
    ExitPlanIsSafe(h, tick.YesPrices(), tick.NoPrices(), r.profile, tick.remainingSecs, breakerSecs, inGrace, heavySideHasBuys);
  }

  /** The decision is the one the rules, the position and the tick determine; kept out of sight where it is passed on. */
  ghost predicate DecidedAs(r: Rules, h: Holding, m: Memory, tick: TickData, d: Decision) {
    forall n: nat {:trigger Look(AboutQuotes, n)} :: Look(AboutQuotes, n) ==> d == Decided(r, h, m, tick)
  }

  method Decide(r: Rules, h: Holding, m: Memory, tick: TickData) returns (d: Decision)
    ensures DecidedAs(r, h, m, tick, d)
    ensures SafeDecision(r.profile, h, tick, d)
  {
    var y, n := Quote(r, h, m, tick);
    d := Leave(r, h, m, tick, y, n);
    assert d == LeaveWith(r, h, m, tick, y, n) == Decided(r, h, m, tick);
  }

  method Leave(r: Rules, h: Holding, m: Memory, tick: TickData, y: Ladder, n: Ladder) returns (d: Decision)
    requires SafeQuotes(r.profile, LimitsOf(r.profile, h), tick, y, n)
    ensures d == LeaveWith(r, h, m, tick, y, n)
    ensures SafeDecision(r.profile, h, tick, d)
  {
    var plan := PlanExit(r, h, m, tick, y, n);
    var block := if m.exitBuyBlock == h.Heavy() then m.exitBuyBlock else None;
    var y1, n1 := y, n;
    if plan != Skip {
      block := Some(plan.heavy);
      if plan.heavy == Yes {
        y1 := [];
      } else {
        n1 := [];
      }
    }
    d := Decision(FirstLevels(r.activationLimit, y1), FirstLevels(r.activationLimit, n1), plan, block);
    ShorterStaySafe(r.profile, LimitsOf(r.profile, h), tick, y, n, y1, n1, d.yes, d.no);
  }

  /** Neither does dropping a side and then keeping only its first levels. */
  lemma ShorterStaySafe(profile: ReplayProfile, c: CostLimits, tick: TickData, y: Ladder, n: Ladder,
                        y1: Ladder, n1: Ladder, yes: Ladder, no: Ladder)
    requires SafeQuotes(profile, c, tick, y, n)
    requires (y1 == y || y1 == []) && (n1 == n || n1 == []) && yes <= y1 && no <= n1
    ensures SafeQuotes(profile, c, tick, yes, no)
  {
    ClearedStaySafe(profile, c, tick, y, n, y1, n1);
    PrefixQuotes(y1, yes, Yes, MinBid(profile, tick.fvUp));
    PrefixQuotes(n1, no, No, MinBid(profile, tick.fvDown));
    SamePricesStaySafe(profile, c, tick, y1, n1, yes, no);
  }

  /** Neither a negative floor nor a negative share of fair value can ask for a negative bid at this tick. */
  predicate BidsAreFree(profile: ReplayProfile, tick: TickData) {
    0.0 <= MinBid(profile, tick.fvUp) && 0.0 <= MinBid(profile, tick.fvDown)
  }

  lemma NoNegativePrices(profile: ReplayProfile, h: Holding, tick: TickData, d: Decision)
    requires SafeDecision(profile, h, tick, d) && BidsAreFree(profile, tick)
    ensures forall q :: q in d.yes || q in d.no ==> 0.0 <= q.price
    ensures d.plan.Maker? ==> forall q :: q in d.plan.levels ==> 0.0 <= q.price && MIN_ORDER_SHARES <= q.size
  {
    assert Look(AboutExits, 0);
  }
}
