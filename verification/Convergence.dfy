/**
 The convergence replay: buy one outcome when fair value runs away from the
 market, sell it when they meet again, and settle what is left at the end.
 `log` records every purchase and sale, and `cash` what they moved.
 */
module Convergence {
  import opened Common

  datatype Direction = Up | Down

  datatype Config = Config(minDivergence: real, takeProfitDiv: real, stopLossCents: real, profitTakeCents: real,
                           maxPosition: real, maxCost: real, forceSellSecs: real, maxStoplosses: nat)

  /** One row of data; `fvUp` is whatever the fair-value model answers for it. */
  datatype TickData = TickData(remainingSecs: real, fvUp: real, midUp: real, midDown: real, bestBidUp: real, bestAskUp: real,
                               bestBidDown: real, bestAskDown: real, elapsedSecs: real)
  {
    function Fv(d: Direction): real {
      if d == Up then fvUp else 1.0 - fvUp
    }

    function Divergence(d: Direction): real {
      Fv(d) - if d == Up then midUp else midDown
    }

    function Bid(d: Direction): real {
      if d == Up then bestBidUp else bestBidDown
    }

    function Ask(d: Direction): real {
      if d == Up then bestAskUp else bestAskDown
    }
  }

  const STOPLOSS_COOLDOWN_SECS: real := 30.0
  const NEVER: real := -999.0

  datatype Trade =
    | Entry(direction: Direction, price: real, qty: real, at: real)
    | Exit(direction: Direction, price: real, qty: real, at: real, stopLoss: bool)

  // ----- what a log of trades says -----

  datatype Held = Flat | Holding(direction: Direction, price: real, qty: real)

  /** The position a log leads to; only meaningful for a legal log. */
  ghost function HeldAfter(log: seq<Trade>): Held {
    if log == [] then Flat
    else
      match log[|log| - 1]
      case Entry(d, price, qty, _) => Holding(d, price, qty)
      case Exit(_, _, _, _, _) => Flat
  }

  /** An entry out of nothing, or an exit of exactly what is held. */
  predicate Follows(h: Held, t: Trade) {
    match t
    case Entry(_, _, _, _) => h == Flat
    case Exit(d, _, qty, _, _) => h.Holding? && h.direction == d && h.qty == qty
  }

  /** Strictly in and out: every exit sells what the entry right before it bought. */
  ghost predicate Legal(log: seq<Trade>) {
    log == [] || (Legal(log[..|log| - 1]) && Follows(HeldAfter(log[..|log| - 1]), log[|log| - 1]))
  }

  function CashBy(t: Trade): real {
    if t.Entry? then -(t.price * t.qty) else t.price * t.qty
  }

  /** Money received for exits less money paid for entries. */
  ghost function Cash(log: seq<Trade>): real {
    if log == [] then 0.0 else Cash(log[..|log| - 1]) + CashBy(log[|log| - 1])
  }

  ghost function Count(log: seq<Trade>, kind: Trade -> bool): nat {
    if log == [] then 0 else Count(log[..|log| - 1], kind) + if kind(log[|log| - 1]) then 1 else 0
  }

  function IsEntry(): Trade -> bool {
    (t: Trade) => t.Entry?
  }

  function IsExit(): Trade -> bool {
    (t: Trade) => t.Exit?
  }

  function IsStopLoss(): Trade -> bool {
    (t: Trade) => t.Exit? && t.stopLoss
  }

  /** When the last stop-loss of a log was, or long ago if there was none. */
  ghost function LastStop(log: seq<Trade>): real {
    if log == [] then NEVER
    else if IsStopLoss()(log[|log| - 1]) then log[|log| - 1].at
    else LastStop(log[..|log| - 1])
  }

  /** No entry comes within the cooldown after the stop-loss before it. */
  ghost predicate CooledDown(log: seq<Trade>) {
    forall j :: 0 <= j < |log| && log[j].Entry? ==> log[j].at - LastStop(log[..j]) >= STOPLOSS_COOLDOWN_SECS
  }

  ghost predicate InOrder(log: seq<Trade>) {
    forall i, j :: 0 <= i < j < |log| ==> log[i].at <= log[j].at
  }

  /** What a log adds up to. */
  datatype Summary = Summary(held: Held, entries: nat, exits: nat, stoplosses: nat, lastStop: real, cash: real) {
    function Add(t: Trade): Summary {
      match t
      case Entry(d, price, qty, _) => Summary(Holding(d, price, qty), entries + 1, exits, stoplosses, lastStop, cash + CashBy(t))
      case Exit(_, _, _, at, stopLoss) =>
        Summary(Flat, entries, exits + 1, stoplosses + (if stopLoss then 1 else 0), if stopLoss then at else lastStop, cash + CashBy(t))
    }
  }

  ghost function SummaryOf(log: seq<Trade>): Summary {
    Summary(HeldAfter(log), Count(log, IsEntry()), Count(log, IsExit()), Count(log, IsStopLoss()), LastStop(log), Cash(log))
  }

  /** A legal, cooled-down log and its summary; under a trigger, so that logs are only unrolled when asked. */
  ghost predicate Recorded(log: seq<Trade>, s: Summary) {
    forall n: nat {:trigger Look(AboutTrades, n)} :: Look(AboutTrades, n) ==> Legal(log) && CooledDown(log) && s == SummaryOf(log)
  }

  lemma ExtendSummary(log: seq<Trade>, t: Trade)
    ensures SummaryOf(log + [t]) == SummaryOf(log).Add(t)
  {
    assert (log + [t])[..|log|] == log;
  }

  lemma ExtendCooled(log: seq<Trade>, t: Trade)
    requires CooledDown(log) && (t.Entry? ==> t.at - LastStop(log) >= STOPLOSS_COOLDOWN_SECS)
    ensures CooledDown(log + [t])
  {
    var longer := log + [t];
    forall j | 0 <= j < |longer| && longer[j].Entry? ensures longer[j].at - LastStop(longer[..j]) >= STOPLOSS_COOLDOWN_SECS {
      if j < |log| {
        assert longer[j] == log[j] && longer[..j] == log[..j];
      } else {
        assert longer[..j] == log;
      }
    }
  }

  /** One more trade: an entry out of a flat position after the cooldown, or an exit of exactly what is held. */
  lemma Record(log: seq<Trade>, s: Summary, t: Trade)
    requires Recorded(log, s)
    requires Follows(s.held, t) && (t.Entry? ==> t.at - s.lastStop >= STOPLOSS_COOLDOWN_SECS)
    ensures Recorded(log + [t], s.Add(t))
  {
    assert Look(AboutTrades, 0);
    ExtendSummary(log, t);
    ExtendCooled(log, t);
    ExtendLegal(log, t);
  }

  lemma RecordedRun(log: seq<Trade>, s: Summary)
    requires Recorded(log, s)
    ensures Legal(log) && CooledDown(log) && s == SummaryOf(log)
  {
    assert Look(AboutTrades, 0);
  }

  lemma ExtendLegal(log: seq<Trade>, t: Trade)
    requires Legal(log) && Follows(HeldAfter(log), t)
    ensures Legal(log + [t])
  {
    assert (log + [t])[..|log|] == log;
  }

  lemma {:induction false} LaterStop(log: seq<Trade>, i: nat)
    requires InOrder(log) && i < |log| && IsStopLoss()(log[i])
    ensures log[i].at <= LastStop(log)
  {
    var last := log[|log| - 1];
    if !IsStopLoss()(last) {
      var init := log[..|log| - 1];
      assert i < |init| && init[i] == log[i];
      LaterStop(init, i);
    }
  }

  /** When time runs forward, no entry comes within the cooldown after any earlier stop-loss. */
  lemma CooldownAfterEveryStop(log: seq<Trade>)
    requires CooledDown(log) && InOrder(log)
    ensures forall i, j :: 0 <= i < j < |log| && IsStopLoss()(log[i]) && log[j].Entry? ==>
              log[j].at - log[i].at >= STOPLOSS_COOLDOWN_SECS
  {
    forall i, j | 0 <= i < j < |log| && IsStopLoss()(log[i]) && log[j].Entry?
      ensures log[j].at - log[i].at >= STOPLOSS_COOLDOWN_SECS
    {
      var before := log[..j];
      assert before[i] == log[i] && InOrder(before);
      LaterStop(before, i);
    }
  }

  // ----- the strategy, on what the log says -----

  /** Why a holding is sold at its bid, or kept: its cost per share is the price of its entry. */
  function ExitOf(c: Config, held: Held, tick: TickData): seq<Trade> {
    match held
    case Flat => []
    case Holding(d, price, qty) =>
      var ps := tick.Bid(d) - price;
      var profit := ps >= c.profitTakeCents;
      var convergence := tick.Divergence(d) <= c.takeProfitDiv && ps >= 0.0;
      var stopLoss := ps <= -c.stopLossCents;
      var forced := tick.remainingSecs < c.forceSellSecs;
      if tick.Bid(d) > 0.0 && (forced || profit || convergence || stopLoss)
      then [Exit(d, tick.Bid(d), qty, tick.elapsedSecs, stopLoss && !forced && !profit && !convergence)]
      else []
  }

  /** The divergence is large, the price fits and there is time left. */
  predicate Wants(c: Config, d: Direction, tick: TickData) {
    && tick.Divergence(d) >= c.minDivergence
    && tick.remainingSecs > c.forceSellSecs + 60.0
    && 0.0 < tick.Ask(d) <= c.maxCost
  }

  /** Out of a flat position, when no cooldown runs and stop-losses are left, a full position is bought at the ask. */
  function BuyOf(c: Config, s: Summary, d: Direction, tick: TickData): seq<Trade> {
    if s.held == Flat && 0.0 < c.maxPosition && Wants(c, d, tick)
       && tick.elapsedSecs - s.lastStop >= STOPLOSS_COOLDOWN_SECS && s.stoplosses < c.maxStoplosses
    then [Entry(d, tick.Ask(d), c.maxPosition, tick.elapsedSecs)]
    else []
  }

  /** UP comes first. */
  function EntryOf(c: Config, s: Summary, tick: TickData): seq<Trade> {
    if BuyOf(c, s, Up, tick) != [] then BuyOf(c, s, Up, tick) else BuyOf(c, s, Down, tick)
  }

  function AddAll(s: Summary, trades: seq<Trade>): Summary {
    if trades == [] then s else AddAll(s, trades[..|trades| - 1]).Add(trades[|trades| - 1])
  }

  lemma {:induction false} AddsUp(s: Summary, a: seq<Trade>, b: seq<Trade>)
    ensures AddAll(AddAll(s, a), b) == AddAll(s, a + b)
  {
    if b == [] {
      assert a + b == a;
    } else {
      AddsUp(s, a, b[..|b| - 1]);
      var whole := a + b;
      assert whole[..|whole| - 1] == a + b[..|b| - 1] && whole[|whole| - 1] == b[|b| - 1];
    }
  }

  /** All trades of a tick, decided by nothing but what the log adds up to so far. */
  function TradesAt(c: Config, s: Summary, tick: TickData): seq<Trade> {
    if tick.midUp <= 0.0 || tick.midDown <= 0.0 then []
    else
      var out := ExitOf(c, s.held, tick);
      out + EntryOf(c, AddAll(s, out), tick)
  }

  datatype History = History(log: seq<Trade>, summary: Summary)

  const NO_HISTORY: History := History([], Summary(Flat, 0, 0, 0, NEVER, 0.0))

  /** The whole period as the strategy prescribes it. */
  ghost function Strategy(c: Config, ticks: seq<TickData>): History {
    if ticks == [] then NO_HISTORY
    else
      var h := Strategy(c, ticks[..|ticks| - 1]);
      var trades := TradesAt(c, h.summary, ticks[|ticks| - 1]);
      History(h.log + trades, AddAll(h.summary, trades))
  }

  // ----- the replay -----

  class Replay {
    const config: Config

    var upQty: real
    var upCost: real
    var downQty: real
    var downCost: real
    var entries: nat
    var exits: nat
    var stoplosses: nat
    var sellPnl: real
    var lastStoplossElapsed: real

    ghost var log: seq<Trade>
    ghost var summary: Summary

    function Qty(d: Direction): real
      reads this
    {
      if d == Up then upQty else downQty
    }

    function Cost(d: Direction): real
      reads this
    {
      if d == Up then upCost else downCost
    }

    /** UP and DOWN are never held together, and what is held is one full position bought at one price. */
    ghost predicate OneSided()
      reads this
    {
      match summary.held
      case Flat => upQty == 0.0 && upCost == 0.0 && downQty == 0.0 && downCost == 0.0
      case Holding(d, price, qty) =>
        && 0.0 < qty == config.maxPosition
        && (d == Up ==> upQty == qty && Average(upCost, upQty) == price && downQty == 0.0 && downCost == 0.0)
        && (d == Down ==> downQty == qty && Average(downCost, downQty) == price && upQty == 0.0 && upCost == 0.0)
    }

    ghost predicate Valid()
      reads this
    {
      && Recorded(log, summary)
      && OneSided()
      && entries == summary.entries && exits == summary.exits && stoplosses == summary.stoplosses
      && lastStoplossElapsed == summary.lastStop
      && entries == exits + (if summary.held == Flat then 0 else 1)
      && stoplosses <= config.maxStoplosses && (summary.held != Flat ==> stoplosses < config.maxStoplosses)
      && sellPnl == summary.cash + upCost + downCost
    }

    constructor (config: Config)
      ensures Valid() && this.config == config && History(log, summary) == NO_HISTORY
    {
      this.config := config;
      upQty, upCost, downQty, downCost := 0.0, 0.0, 0.0, 0.0;
      entries, exits, stoplosses, sellPnl, lastStoplossElapsed := 0, 0, 0, 0.0, NEVER;
      log, summary := NO_HISTORY.log, NO_HISTORY.summary;
    }

    /** Why a holding is sold, or kept. */
    method TrySell(d: Direction, tick: TickData)
      requires Valid()
      modifies this
      ensures Valid()
      ensures var out := if old(summary.held).Holding? && old(summary.held).direction == d then ExitOf(config, old(summary.held), tick) else [];
        log == old(log) + out && summary == AddAll(old(summary), out)
    {
      if Qty(d) > 0.0 && tick.Bid(d) > 0.0 {
        var ps := tick.Bid(d) - Average(Cost(d), Qty(d));
        var profit := ps >= config.profitTakeCents;
        var convergence := tick.Divergence(d) <= config.takeProfitDiv && ps >= 0.0;
        var stopLoss := ps <= -config.stopLossCents;
        var forced := tick.remainingSecs < config.forceSellSecs;
        if forced || profit || convergence || stopLoss {
          SoldForCash(tick.Bid(d), Cost(d), Qty(d));
          Sell(d, tick.Bid(d), ps * Qty(d), tick.Bid(d) * Qty(d), tick.elapsedSecs, stopLoss && !forced && !profit && !convergence);
        }
      }
    }

    method Sell(d: Direction, price: real, pnl: real, ghost proceeds: real, at: real, stopLoss: bool)
      requires Valid()
      requires Qty(d) > 0.0 && proceeds == price * Qty(d) && pnl == proceeds - Cost(d)
      modifies this
      ensures Valid()
      ensures var out := Exit(d, price, old(Qty(d)), at, stopLoss);
        log == old(log) + [out] && summary == old(summary).Add(out)
    {
      ghost var trade := Exit(d, price, Qty(d), at, stopLoss);
      Record(log, summary, trade);
      log, summary := log + [trade], summary.Add(trade);
      sellPnl := sellPnl + pnl;
      exits := exits + 1;
      if stopLoss {
        stoplosses := stoplosses + 1;
        lastStoplossElapsed := at;
      }
      if d == Up {
        upCost, upQty := 0.0, 0.0;
      } else {
        downCost, downQty := 0.0, 0.0;
      }
    }

    /**
     Buy a full position when the other side was not held and all conditions hold. Only out of a flat position
     does this buy anything: a held side is full already.
     */
    method TryBuy(d: Direction, tick: TickData, otherHeldBefore: bool)
      requires Valid()
      requires d == Up && downQty > 0.0 ==> otherHeldBefore
      modifies this
      ensures Valid()
      ensures var buys := if otherHeldBefore then [] else BuyOf(config, old(summary), d, tick);
        log == old(log) + buys && summary == AddAll(old(summary), buys)
    {
      var cooling := tick.elapsedSecs - lastStoplossElapsed < STOPLOSS_COOLDOWN_SECS;
      var maxed := stoplosses >= config.maxStoplosses;
      if tick.Divergence(d) >= config.minDivergence
         && tick.remainingSecs > config.forceSellSecs + 60.0
         && tick.Ask(d) > 0.0
         && tick.Ask(d) <= config.maxCost
         && Qty(d) < config.maxPosition
         && !otherHeldBefore
         && !cooling
         && !maxed
      {
        // the UP purchase of the same tick may have happened since `otherHeldBefore` was read
        if d == Up || upQty == 0.0 {
          Buy(d, tick.Ask(d), tick.elapsedSecs);
        }
      }
    }

    method Buy(d: Direction, price: real, at: real)
      requires Valid()
      requires Qty(d) < config.maxPosition && Qty(if d == Up then Down else Up) == 0.0
      requires at - lastStoplossElapsed >= STOPLOSS_COOLDOWN_SECS && stoplosses < config.maxStoplosses
      modifies this
      ensures Valid()
      ensures var entry := Entry(d, price, config.maxPosition, at);
        log == old(log) + [entry] && summary == old(summary).Add(entry)
    {
      var buyQty := config.maxPosition - Qty(d);
      var cost := price * buyQty;
      ghost var trade := Entry(d, price, buyQty, at);
      Record(log, summary, trade);
      log, summary := log + [trade], summary.Add(trade);
      if d == Up {
        upCost := upCost + cost;
        upQty := upQty + buyQty;
      } else {
        downCost := downCost + cost;
        downQty := downQty + buyQty;
      }
      PaidPrice(price, buyQty);
      entries := entries + 1;
    }

    /** One tick: sell what should go, then look for an entry. */
    method Step(tick: TickData)
      requires Valid()
      modifies this
      ensures Valid()
      ensures var trades := TradesAt(config, old(summary), tick);
        log == old(log) + trades && summary == AddAll(old(summary), trades)
    {
      if tick.midUp > 0.0 && tick.midDown > 0.0 {
        TradeTick(tick);
      }
    }

    method TradeTick(tick: TickData)
      requires Valid() && tick.midUp > 0.0 && tick.midDown > 0.0
      modifies this
      ensures Valid()
      ensures var trades := TradesAt(config, old(summary), tick);
        log == old(log) + trades && summary == AddAll(old(summary), trades)
    {
      ghost var before := summary;
      SellWhatGoes(tick);
      ghost var sold := summary;
      LookForEntry(tick);
      AddsUp(before, ExitOf(config, before.held, tick), EntryOf(config, sold, tick));
    }

    method LookForEntry(tick: TickData)
      requires Valid()
      modifies this
      ensures Valid()
      ensures var buys := EntryOf(config, old(summary), tick);
        log == old(log) + buys && summary == AddAll(old(summary), buys)
    {
      var hadUp, hadDown := upQty > 0.0, downQty > 0.0;
      TryBuy(Up, tick, hadDown);
      TryBuy(Down, tick, hadUp);
    }

    method SellWhatGoes(tick: TickData)
      requires Valid()
      modifies this
      ensures Valid()
      ensures var out := ExitOf(config, old(summary).held, tick);
        log == old(log) + out && summary == AddAll(old(summary), out)
    {
      TrySell(Up, tick);
      TrySell(Down, tick);
    }

    /** Winning shares pay a dollar, losing shares nothing. The branches assume that only one side is held. */
    method Settle(resolution: string) returns (settlePnl: real)
      requires Valid()
      ensures sellPnl + settlePnl == Cash(log) + Payout(HeldAfter(log), resolution)
    {
      assert Look(AboutTrades, 0);
      if upQty > 0.0 {
        var resolve := if resolution == "UP" then 1.0 else 0.0;
        SoldForCash(resolve, upCost, upQty);
        settlePnl := (resolve - Average(upCost, upQty)) * upQty;
      } else if downQty > 0.0 {
        var resolve := if resolution == "DOWN" then 1.0 else 0.0;
        SoldForCash(resolve, downCost, downQty);
        settlePnl := (resolve - Average(downCost, downQty)) * downQty;
      } else {
        settlePnl := 0.0;
      }
    }
  }

  function Average(cost: real, qty: real): real {
    if qty > 0.0 then cost / qty else 0.0
  }

  lemma PaidPrice(price: real, qty: real)
    requires 0.0 < qty
    ensures Average(price * qty, qty) == price
  {
  }

  /** Profit over average cost is the price received less the cost. */
  lemma SoldForCash(price: real, cost: real, qty: real)
    requires 0.0 < qty
    ensures (price - Average(cost, qty)) * qty == price * qty - cost
  {
    DivMul(cost, qty);
  }

  /** Dollars the open position pays at resolution. */
  function Payout(h: Held, resolution: string): real {
    match h
    case Flat => 0.0
    case Holding(d, _, qty) =>
      var win := if d == Up then resolution == "UP" else resolution == "DOWN";
      if win then qty else 0.0
  }

  datatype PeriodResult = PeriodResult(entries: nat, exits: nat, stoplosses: nat, pnl: real, sellPnl: real, settlePnl: real)

  /** The trades of later ticks are later. */
  ghost predicate Upto(log: seq<Trade>, ticks: seq<TickData>, n: nat)
    requires n <= |ticks|
  {
    && InOrder(log)
    && (if n == 0 then log == [] else forall k :: 0 <= k < |log| ==> log[k].at <= ticks[n - 1].elapsedSecs)
  }

  lemma NextTick(c: Config, ticks: seq<TickData>, i: nat)
    requires i < |ticks|
    ensures var h := Strategy(c, ticks[..i]);
      var trades := TradesAt(c, h.summary, ticks[i]);
      Strategy(c, ticks[..i + 1]) == History(h.log + trades, AddAll(h.summary, trades))
  {
    assert ticks[..i + 1][..i] == ticks[..i];
  }

  lemma {:induction false} StrategyInOrder(c: Config, ticks: seq<TickData>)
    requires forall i, j :: 0 <= i < j < |ticks| ==> ticks[i].elapsedSecs <= ticks[j].elapsedSecs
    ensures Upto(Strategy(c, ticks).log, ticks, |ticks|)
  {
    if ticks != [] {
      var n := |ticks| - 1;
      StrategyInOrder(c, ticks[..n]);
      var h := Strategy(c, ticks[..n]);
      TradesAtTick(c, h.summary, ticks[n]);
      LaterTrades(h.log, TradesAt(c, h.summary, ticks[n]), ticks, n);
    }
  }

  lemma TradesAtTick(c: Config, s: Summary, tick: TickData)
    ensures forall t :: t in TradesAt(c, s, tick) ==> t.at == tick.elapsedSecs
  {
  }

  /** The trade is at a best price of the tick: an entry at the ask, an exit at the bid. */
  predicate AtBestPrice(t: Trade, tick: TickData) {
    t.price == (if t.Entry? then tick.Ask(t.direction) else tick.Bid(t.direction)) > 0.0 && t.at == tick.elapsedSecs
  }

  /** No trade of a period has any other price than the best ones of one of its ticks. */
  lemma {:induction false} TradedAtBestPrices(c: Config, ticks: seq<TickData>, t: Trade)
    requires t in Strategy(c, ticks).log
    ensures exists tick :: tick in ticks && AtBestPrice(t, tick)
  {
    var n := |ticks| - 1;
    var h := Strategy(c, ticks[..n]);
    if t in h.log {
      TradedAtBestPrices(c, ticks[..n], t);
    } else {
      assert t in TradesAt(c, h.summary, ticks[n]);
      assert ticks[n] in ticks && AtBestPrice(t, ticks[n]);
    }
  }

  lemma LaterTrades(log: seq<Trade>, trades: seq<Trade>, ticks: seq<TickData>, n: nat)
    requires n < |ticks| && Upto(log, ticks[..n], n)
    requires n > 0 ==> ticks[n - 1].elapsedSecs <= ticks[n].elapsedSecs
    requires forall t :: t in trades ==> t.at == ticks[n].elapsedSecs
    ensures Upto(log + trades, ticks, n + 1)
  {
    forall k | 0 <= k < |log + trades| ensures (log + trades)[k].at <= ticks[n].elapsedSecs {
      if k >= |log| {
        assert trades[k - |log|] in trades;
      }
    }
    forall i, j | 0 <= i < j < |log + trades| ensures (log + trades)[i].at <= (log + trades)[j].at {
      if j >= |log| {
        assert trades[j - |log|] in trades;
      }
    }
  }

  // ----- the strategy again, in the columns of a tick and in logs alone -----

  predicate UpWanted(tick: TickData, c: Config) {
    tick.fvUp - tick.midUp >= c.minDivergence && 0.0 < tick.bestAskUp <= c.maxCost
  }

  predicate DownWanted(tick: TickData, c: Config) {
    (1.0 - tick.fvUp) - tick.midDown >= c.minDivergence && 0.0 < tick.bestAskDown <= c.maxCost
  }

  /** What the tick bids for one share of an entry. */
  function BidFor(entry: Trade, tick: TickData): real {
    if entry.direction == Up then tick.bestBidUp else tick.bestBidDown
  }

  predicate Forced(tick: TickData, c: Config) {
    tick.remainingSecs < c.forceSellSecs
  }

  predicate AtProfit(entry: Trade, tick: TickData, c: Config) {
    BidFor(entry, tick) - entry.price >= c.profitTakeCents
  }

  /** The market price has come to the fair value, and selling is no loss. */
  predicate Converged(entry: Trade, tick: TickData, c: Config) {
    && BidFor(entry, tick) >= entry.price
    && (if entry.direction == Up then tick.fvUp - tick.midUp else (1.0 - tick.fvUp) - tick.midDown) <= c.takeProfitDiv
  }

  predicate Stopped(entry: Trade, tick: TickData, c: Config) {
    entry.price - BidFor(entry, tick) >= c.stopLossCents
  }

  predicate SaleDue(entry: Trade, tick: TickData, c: Config) {
    BidFor(entry, tick) > 0.0 && (Forced(tick, c) || AtProfit(entry, tick, c) || Converged(entry, tick, c) || Stopped(entry, tick, c))
  }

  /** An exit at the bid; it is a stop-loss only when nothing else asks for it. */
  function SaleOf(entry: Trade, tick: TickData, c: Config): Trade {
    Exit(entry.direction, BidFor(entry, tick), entry.qty, tick.elapsedSecs,
         Stopped(entry, tick, c) && !Forced(tick, c) && !AtProfit(entry, tick, c) && !Converged(entry, tick, c))
  }

  /** Thirty seconds since the last stop-loss of the log, which is taken to be at -999 when there was none. */
  ghost predicate CooledFor(log: seq<Trade>, at: real) {
    if log == [] then at + 999.0 >= 30.0
    else
      var last := log[|log| - 1];
      if last.Exit? && last.stopLoss then at - last.at >= 30.0 else CooledFor(log[..|log| - 1], at)
  }

  ghost predicate MayEnter(log: seq<Trade>, tick: TickData, c: Config) {
    && (log == [] || log[|log| - 1].Exit?)
    && 0.0 < c.maxPosition && tick.remainingSecs > c.forceSellSecs + 60.0
    && CooledFor(log, tick.elapsedSecs) && Count(log, IsStopLoss()) < c.maxStoplosses
  }

  /** The log after a tick: first a sale if one is due, then from flat an entry if one is wanted, UP before DOWN. */
  ghost predicate TickFollows(c: Config, tick: TickData, before: seq<Trade>, after: seq<Trade>) {
    if tick.midUp <= 0.0 || tick.midDown <= 0.0 then after == before
    else
      var sells := before != [] && before[|before| - 1].Entry? && SaleDue(before[|before| - 1], tick, c);
      var sold := if sells then before + [SaleOf(before[|before| - 1], tick, c)] else before;
      after == if MayEnter(sold, tick, c) && UpWanted(tick, c)
               then sold + [Entry(Up, tick.bestAskUp, c.maxPosition, tick.elapsedSecs)]
               else if MayEnter(sold, tick, c) && DownWanted(tick, c)
               then sold + [Entry(Down, tick.bestAskDown, c.maxPosition, tick.elapsedSecs)]
               else sold
  }

  lemma {:induction false} CooledMeans(log: seq<Trade>, at: real)
    ensures CooledFor(log, at) <==> at - LastStop(log) >= STOPLOSS_COOLDOWN_SECS
  {
    if log != [] {
      CooledMeans(log[..|log| - 1], at);
    }
  }

  lemma SaleMeans(c: Config, tick: TickData, entry: Trade)
    requires entry.Entry?
    ensures ExitOf(c, Holding(entry.direction, entry.price, entry.qty), tick)
         == if SaleDue(entry, tick, c) then [SaleOf(entry, tick, c)] else []
  {
  }

  lemma EntryMeans(c: Config, tick: TickData, log: seq<Trade>)
    ensures EntryOf(c, SummaryOf(log), tick)
         == if MayEnter(log, tick, c) && UpWanted(tick, c) then [Entry(Up, tick.bestAskUp, c.maxPosition, tick.elapsedSecs)]
            else if MayEnter(log, tick, c) && DownWanted(tick, c) then [Entry(Down, tick.bestAskDown, c.maxPosition, tick.elapsedSecs)]
            else []
  {
    CooledMeans(log, tick.elapsedSecs);
    assert SummaryOf(log).held == Flat <==> log == [] || log[|log| - 1].Exit?;
  }

  lemma TradesFollow(c: Config, tick: TickData, log: seq<Trade>)
    ensures TickFollows(c, tick, log, log + TradesAt(c, SummaryOf(log), tick))
    ensures AddAll(SummaryOf(log), TradesAt(c, SummaryOf(log), tick)) == SummaryOf(log + TradesAt(c, SummaryOf(log), tick))
  {
    SummaryAdds(log, TradesAt(c, SummaryOf(log), tick));
    if tick.midUp > 0.0 && tick.midDown > 0.0 {
      var out := ExitOf(c, SummaryOf(log).held, tick);
      SummaryAdds(log, out);
      EntryMeans(c, tick, log + out);
      if log != [] && log[|log| - 1].Entry? {
        SaleMeans(c, tick, log[|log| - 1]);
      }
      Regroup(log, out, EntryOf(c, SummaryOf(log + out), tick));
      assert log + [] == log;
    } else {
      assert log + [] == log;
    }
  }

  lemma {:induction false} SummaryAdds(log: seq<Trade>, trades: seq<Trade>)
    ensures AddAll(SummaryOf(log), trades) == SummaryOf(log + trades)
  {
    if trades == [] {
      assert log + trades == log;
    } else {
      var n := |trades| - 1;
      SummaryAdds(log, trades[..n]);
      ExtendSummary(log + trades[..n], trades[n]);
      assert log + trades == log + trades[..n] + [trades[n]];
    }
  }

  /** The logs between the ticks: each follows from the one before it by its tick. */
  ghost predicate Follow(c: Config, ticks: seq<TickData>, logs: seq<seq<Trade>>) {
    && |logs| == |ticks| + 1 && logs[0] == []
    && forall i :: 0 <= i < |ticks| ==> TickFollows(c, ticks[i], logs[i], logs[i + 1])
  }

  lemma FollowGrows(c: Config, ticks: seq<TickData>, logs: seq<seq<Trade>>, tick: TickData, after: seq<Trade>)
    requires Follow(c, ticks, logs) && TickFollows(c, tick, logs[|ticks|], after)
    ensures Follow(c, ticks + [tick], logs + [after])
  {
    forall i | 0 <= i <= |ticks| ensures TickFollows(c, (ticks + [tick])[i], (logs + [after])[i], (logs + [after])[i + 1]) {
      if i < |ticks| {
        assert TickFollows(c, ticks[i], logs[i], logs[i + 1]);
      }
    }
  }

  ghost predicate SumsUp(h: History) {
    forall n: nat {:trigger Look(AboutTrades, n)} :: Look(AboutTrades, n) ==> h.summary == SummaryOf(h.log)
  }

  lemma StrategyStep(c: Config, ticks: seq<TickData>, tick: TickData)
    requires SumsUp(Strategy(c, ticks))
    ensures TickFollows(c, tick, Strategy(c, ticks).log, Strategy(c, ticks + [tick]).log)
    ensures SumsUp(Strategy(c, ticks + [tick]))
  {
    assert Look(AboutTrades, 0);
    assert (ticks + [tick])[..|ticks|] == ticks;
    TradesFollow(c, tick, Strategy(c, ticks).log);
  }

  lemma NothingSumsUp()
    ensures SumsUp(NO_HISTORY)
  {
  }

  lemma {:induction false} StrategyFollows(c: Config, ticks: seq<TickData>) returns (logs: seq<seq<Trade>>)
    ensures Follow(c, ticks, logs) && logs[|ticks|] == Strategy(c, ticks).log && SumsUp(Strategy(c, ticks))
  {
    if ticks == [] {
      logs := [[]];
      NothingSumsUp();
    } else {
      var init, tick := ticks[..|ticks| - 1], ticks[|ticks| - 1];
      var before := StrategyFollows(c, init);
      assert init + [tick] == ticks;
      logs := NextFollows(c, init, tick, before);
    }
  }

  lemma NextFollows(c: Config, init: seq<TickData>, tick: TickData, before: seq<seq<Trade>>) returns (logs: seq<seq<Trade>>)
    requires Follow(c, init, before) && before[|init|] == Strategy(c, init).log && SumsUp(Strategy(c, init))
    ensures Follow(c, init + [tick], logs) && logs[|init| + 1] == Strategy(c, init + [tick]).log && SumsUp(Strategy(c, init + [tick]))
  {
    StrategyStep(c, init, tick);
    logs := before + [Strategy(c, init + [tick]).log];
    FollowGrows(c, init, before, tick, Strategy(c, init + [tick]).log);
  }

  /** Why a trade is in the log: its tick wanted the entry, or the sale of the entry right before it was due. */
  ghost predicate Explained(c: Config, tick: TickData, log: seq<Trade>, k: nat)
    requires k < |log|
  {
    var t := log[k];
    && tick.midUp > 0.0 && tick.midDown > 0.0
    && if t.Entry? then
         && tick.remainingSecs > c.forceSellSecs + 60.0
         && t == (if t.direction == Up then Entry(Up, tick.bestAskUp, c.maxPosition, tick.elapsedSecs)
                  else Entry(Down, tick.bestAskDown, c.maxPosition, tick.elapsedSecs))
         && if t.direction == Up then UpWanted(tick, c) else DownWanted(tick, c)
       else k > 0 && log[k - 1].Entry? && SaleDue(log[k - 1], tick, c) && t == SaleOf(log[k - 1], tick, c)
  }

  ghost predicate ExplainedBy(c: Config, ticks: seq<TickData>, log: seq<Trade>, k: nat)
    requires k < |log|
  {
    exists tick :: tick in ticks && Explained(c, tick, log, k)
  }

  lemma {:induction false} TradeExplained(c: Config, ticks: seq<TickData>, logs: seq<seq<Trade>>, n: nat, k: nat)
    requires Follow(c, ticks, logs) && n <= |ticks| && k < |logs[n]|
    ensures ExplainedBy(c, ticks, logs[n], k)
  {
    if n > 0 {
      var before, after, tick := logs[n - 1], logs[n], ticks[n - 1];
      assert TickFollows(c, tick, before, after);
      assert before <= after;
      if k < |before| {
        TradeExplained(c, ticks, logs, n - 1, k);
        var t :| t in ticks && Explained(c, t, before, k);
        assert Explained(c, t, after, k);
      } else {
        assert tick in ticks && Explained(c, tick, after, k);
      }
    }
  }

  /** Every trade of the log has its tick. */
  ghost predicate AllExplained(c: Config, ticks: seq<TickData>, log: seq<Trade>) {
    forall k :: 0 <= k < |log| ==> ExplainedBy(c, ticks, log, k)
  }

  lemma TradesExplained(c: Config, ticks: seq<TickData>, logs: seq<seq<Trade>>)
    requires Follow(c, ticks, logs)
    ensures AllExplained(c, ticks, logs[|ticks|])
  {
    forall k | 0 <= k < |logs[|ticks|]| ensures ExplainedBy(c, ticks, logs[|ticks|], k) {
      TradeExplained(c, ticks, logs, |ticks|, k);
    }
  }

  /**
   A whole period, told without the strategy: the logs between the ticks follow from one another by the columns of the
   ticks, and no trade of the last one lacks a reason. The rest is what `ReplayTicks` says.
   */
  method RunPeriod(ticks: seq<TickData>, config: Config, resolution: string)
    returns (r: PeriodResult, ghost log: seq<Trade>, ghost logs: seq<seq<Trade>>)
    ensures Follow(config, ticks, logs) && log == logs[|ticks|] && AllExplained(config, ticks, log)
    ensures log == Strategy(config, ticks).log && Legal(log) && CooledDown(log)
    ensures r.pnl == r.sellPnl + r.settlePnl == Cash(log) + Payout(HeldAfter(log), resolution)
    ensures r.entries == Count(log, IsEntry()) && r.exits == Count(log, IsExit()) && r.stoplosses == Count(log, IsStopLoss())
    ensures r.entries == r.exits + (if HeldAfter(log) == Flat then 0 else 1)
    ensures r.stoplosses <= config.maxStoplosses
    ensures HeldAfter(log).Holding? ==> HeldAfter(log).qty == config.maxPosition > 0.0
    ensures (forall i, j :: 0 <= i < j < |ticks| ==> ticks[i].elapsedSecs <= ticks[j].elapsedSecs) ==> EntriesWait(log)
  {
    r, log := ReplayTicks(ticks, config, resolution);
    logs := StrategyFollows(config, ticks);
    TradesExplained(config, ticks, logs);
  }

  /** No entry comes within thirty seconds after any stop-loss before it. */
  ghost predicate EntriesWait(log: seq<Trade>) {
    forall i, j :: 0 <= i < j < |log| && log[i].Exit? && log[i].stopLoss && log[j].Entry? ==> log[j].at - log[i].at >= 30.0
  }

  /** The loop over the ticks. */
  method TradeThrough(ticks: seq<TickData>, config: Config) returns (replay: Replay)
    ensures fresh(replay) && replay.config == config && replay.Valid()
    ensures History(replay.log, replay.summary) == Strategy(config, ticks)
  {
    replay := new Replay(config);
    var i := 0;
    while i < |ticks|
      invariant 0 <= i <= |ticks|
      invariant replay.config == config && fresh(replay) && replay.Valid()
      invariant History(replay.log, replay.summary) == Strategy(config, ticks[..i])
    {
      replay.Step(ticks[i]);
      NextTick(config, ticks, i);
      i := i + 1;
    }
    assert ticks[..i] == ticks;
  }

  /**
   A whole period. The log is exactly what the strategy prescribes for the ticks, although the replay only looks
   at its running counters. The profit is the net cash of the trades plus the payout of what is still held; entries and
   exits alternate on one side at a time; and stop-losses stay within their number and cooldown.
   */
  method ReplayTicks(ticks: seq<TickData>, config: Config, resolution: string) returns (r: PeriodResult, ghost log: seq<Trade>)
    ensures log == Strategy(config, ticks).log && Legal(log) && CooledDown(log)
    ensures r.pnl == r.sellPnl + r.settlePnl == Cash(log) + Payout(HeldAfter(log), resolution)
    ensures r.entries == Count(log, IsEntry()) && r.exits == Count(log, IsExit()) && r.stoplosses == Count(log, IsStopLoss())
    ensures r.entries == r.exits + (if HeldAfter(log) == Flat then 0 else 1)
    ensures r.stoplosses <= config.maxStoplosses
    ensures HeldAfter(log).Holding? ==> HeldAfter(log).qty == config.maxPosition > 0.0
    ensures (forall i, j :: 0 <= i < j < |ticks| ==> ticks[i].elapsedSecs <= ticks[j].elapsedSecs) ==> EntriesWait(log)
  {
    var replay := TradeThrough(ticks, config);
    var settlePnl := replay.Settle(resolution);
    log := replay.log;
    RecordedRun(log, replay.summary);
    if forall i, j :: 0 <= i < j < |ticks| ==> ticks[i].elapsedSecs <= ticks[j].elapsedSecs {
      StrategyInOrder(config, ticks);
      CooldownAfterEveryStop(log);
    }
    r := PeriodResult(replay.entries, replay.exits, replay.stoplosses, replay.sellPnl + settlePnl, replay.sellPnl, settlePnl);
  }
}
