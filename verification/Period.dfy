/**
 One period as a sequence of states: what a tick fills, merges, quotes and completes is a
 function of the state it finds, up to the order in which equally priced orders are offered.
 A trace records every tick of a period with the states between its phases.
 */
module Periods {
  import opened Common
  import opened Decimals
  import opened Holdings
  import opened MapSum
  import opened PaperSim
  import opened Profile
  import opened Ladders
  import opened ExitPlans
  import opened Budget
  import opened Quoting

  // ----- picking orders -----

  function FilterOrders(s: seq<PaperOrder>, pick: PaperOrder -> bool): seq<PaperOrder> {
    if s == [] then []
    else
      var last := s[|s| - 1];
      FilterOrders(s[..|s| - 1], pick) + if pick(last) then [last] else []
  }

  lemma {:induction false} FilterPicks(s: seq<PaperOrder>, pick: PaperOrder -> bool)
    requires DistinctIds(s)
    ensures DistinctIds(FilterOrders(s, pick))
    ensures forall o :: o in FilterOrders(s, pick) <==> o in s && pick(o)
  {
    if s != [] {
      var init, last := s[..|s| - 1], s[|s| - 1];
      FilterPicks(init, pick);
      assert s == init + [last];
      var r := FilterOrders(init, pick);
      forall i | 0 <= i < |r| ensures r[i].orderId != last.orderId {
        assert r[i] in init;
      }
    }
  }

  /** The orders that are left when those that `pick` selects are cancelled. */
  function Without(orders: map<OrderId, PaperOrder>, pick: PaperOrder -> bool): map<OrderId, PaperOrder> {
    map id | id in orders && !pick(orders[id]) :: orders[id]
  }

  lemma WithoutPicked(orders: map<OrderId, PaperOrder>, found: seq<PaperOrder>, pick: PaperOrder -> bool)
    requires Enumerates(found, orders, InMarket(MARKET)) && OrdersSound(orders)
    ensures var victims := FilterOrders(found, pick);
      && DistinctIds(victims)
      && (forall o :: o in victims ==> o.orderId in orders && orders[o.orderId] == o)
      && Ids(victims) <= orders.Keys
      && orders - Ids(victims) == Without(orders, pick)
  {
    var victims := FilterOrders(found, pick);
    FilterPicks(found, pick);
    forall id | id in orders ensures id in Ids(victims) <==> pick(orders[id]) {
      assert orders[id] in found;
      if pick(orders[id]) {
        assert orders[id] in victims;
      }
    }
  }

  function OnSide(side: Side): PaperOrder -> bool {
    (o: PaperOrder) => o.side == side
  }

  /** Resting sells that a new exit plan does not ask for. */
  function StaleSell(levels: Ladder, takerExit: bool): PaperOrder -> bool {
    (o: PaperOrder) => o.side == Sell && (takerExit || (o.outcome, o.price) !in PriceKeys(levels))
  }

  function PriceKeys(levels: Ladder): set<(Outcome, real)> {
    set q | q in levels :: (q.outcome, q.price)
  }

  // ----- placing orders -----

  function OrderOf(nextId: nat, side: Side, level: LadderLevel, now: int): PaperOrder {
    PaperOrder(OrderIdOf(nextId), MARKET, level.outcome, level.price, level.size, side, now)
  }

  /** The orders once all levels have been placed under the ids that come next. */
  function PlaceAll(orders: map<OrderId, PaperOrder>, nextId: nat, side: Side, levels: Ladder, now: int): map<OrderId, PaperOrder>
    decreases |levels|
  {
    if levels == [] then orders
    else PlaceAll(orders[OrderIdOf(nextId) := OrderOf(nextId, side, levels[0], now)], nextId + 1, side, levels[1..], now)
  }

  /** Placing all levels leads from one map and next id to another; kept out of sight where it is passed on. */
  ghost predicate PlacesAll(orders: map<OrderId, PaperOrder>, nextId: nat, side: Side, levels: Ladder, now: int,
                            orders': map<OrderId, PaperOrder>, nextId': nat)
  {
    forall n: nat {:trigger Look(AboutPlacing, n)} :: Look(AboutPlacing, n) ==>
      orders' == PlaceAll(orders, nextId, side, levels, now) && nextId' == nextId + |levels|
  }

  lemma PlacesNone(orders: map<OrderId, PaperOrder>, nextId: nat, side: Side, now: int)
    ensures PlacesAll(orders, nextId, side, [], now, orders, nextId)
  {
  }

  lemma PlacesFirst(orders: map<OrderId, PaperOrder>, nextId: nat, side: Side, levels: Ladder, now: int,
                    orders': map<OrderId, PaperOrder>, nextId': nat)
    requires levels != []
    requires PlacesAll(orders[OrderIdOf(nextId) := OrderOf(nextId, side, levels[0], now)], nextId + 1, side, levels[1..], now, orders', nextId')
    ensures PlacesAll(orders, nextId, side, levels, now, orders', nextId')
  {
    assert Look(AboutPlacing, 0);
  }

  lemma {:induction false} PlacesMore(orders: map<OrderId, PaperOrder>, nextId: nat, side: Side, levels: Ladder, last: LadderLevel,
                                      now: int, orders': map<OrderId, PaperOrder>, nextId': nat)
    requires PlacesAll(orders, nextId, side, levels, now, orders', nextId')
    ensures PlacesAll(orders, nextId, side, levels + [last], now,
                      orders'[OrderIdOf(nextId') := OrderOf(nextId', side, last, now)], nextId' + 1)
    decreases |levels|
  {
    assert Look(AboutPlacing, 0);
    var all := levels + [last];
    if levels == [] {
      assert all[0] == last && all[1..] == [];
    } else {
      assert all[0] == levels[0] && all[1..] == levels[1..] + [last];
      var next := orders[OrderIdOf(nextId) := OrderOf(nextId, side, levels[0], now)];
      PlacesMore(next, nextId + 1, side, levels[1..], last, now, orders', nextId');
      PlacesFirst(orders, nextId, side, all, now, orders'[OrderIdOf(nextId') := OrderOf(nextId', side, last, now)], nextId' + 1);
    }
  }

  /** Money committed to buys: filled net of merged cost, plus resting. */
  ghost function CommittedOf(a: Account, orders: map<OrderId, PaperOrder>): real {
    Max(a.paid - a.costMerged, 0.0) + Sum(orders, BuyNotional())
  }

  /** Shares of a bid that the budget and the cap of a single order leave. */
  function BidSize(level: LadderLevel, remaining: real, notionalCap: real): real {
    CapBuySizeForNotional(Min(level.size, BudgetCappedSize(remaining, level.price)), level.price, notionalCap)
  }

  function BidSizes(notionalCap: real): (LadderLevel, real) -> real {
    (level: LadderLevel, remaining: real) => BidSize(level, remaining, notionalCap)
  }

  /**
   The bids that are really placed: each takes what the ones before it left of the budget, if that is enough for an
   order. `sizes` tells how many shares of a bid fit what is left.
   */
  function Allocation(bids: Ladder, cap: real, committed: real, sizes: (LadderLevel, real) -> real): Ladder {
    if bids == [] || committed >= cap then []
    else
      var taken := bids[0].(size := sizes(bids[0], cap - committed));
      if taken.size < MIN_ORDER_SHARES then Allocation(bids[1..], cap, committed, sizes)
      else [taken] + Allocation(bids[1..], cap, committed + taken.Notional(), sizes)
  }

  lemma AllocationNext(bids: Ladder, i: nat, cap: real, committed: real, placed: Ladder, taken: LadderLevel,
                       sizes: (LadderLevel, real) -> real)
    requires i < |bids| && committed < cap && taken == bids[i].(size := sizes(bids[i], cap - committed))
    ensures placed + Allocation(bids[i..], cap, committed, sizes)
         == if taken.size < MIN_ORDER_SHARES then placed + Allocation(bids[i + 1..], cap, committed, sizes)
            else placed + [taken] + Allocation(bids[i + 1..], cap, committed + taken.Notional(), sizes)
  {
    assert bids[i..][1..] == bids[i + 1..];
    if taken.size >= MIN_ORDER_SHARES {
      MoveOver(placed, taken, Allocation(bids[i + 1..], cap, committed + taken.Notional(), sizes));
    }
  }

  /** A bid is cut only where one more share would break the budget or the cap of a single order. */
  lemma BidTakesAllItCan(level: LadderLevel, remaining: real, notionalCap: real)
    requires 0.0 <= remaining
    ensures var size := BidSize(level, remaining, notionalCap);
      size < level.size ==>
        || remaining < OneMore(size, Max(level.price, 0.01))
        || (0.0 < notionalCap && 0.0 < level.price && notionalCap < OneMore(size, level.price))
  {
    var inBudget := BudgetCappedSize(remaining, level.price);
    BudgetIsSpent(remaining, level.price);
    assert remaining < OneMore(inBudget, Max(level.price, 0.01));
    NotionalIsSpent(Min(level.size, inBudget), level.price, notionalCap);
  }

  /** Cost of a share more. */
  function OneMore(size: real, price: real): real {
    size * price + price
  }

  lemma NotionalIsSpent(wanted: real, price: real, notionalCap: real)
    ensures var size := CapBuySizeForNotional(wanted, price, notionalCap);
      size < wanted ==> 0.0 < notionalCap && 0.0 < price && notionalCap < OneMore(size, price)
  {
    if 0.0 < wanted && 0.0 < price && 0.0 < notionalCap {
      WholeSharesThatFit(notionalCap, price);
      QuantizeWhole((notionalCap / price).Floor);
    }
  }

  /** These sizes are the ones of the period; kept out of sight where only their bounds matter. */
  ghost predicate SizesAre(notionalCap: real, sizes: (LadderLevel, real) -> real) {
    forall n: nat {:trigger Look(AboutSizes, n)} :: Look(AboutSizes, n) ==> sizes == BidSizes(notionalCap)
  }

  lemma TheSizes(notionalCap: real) returns (sizes: (LadderLevel, real) -> real)
    ensures SizesAre(notionalCap, sizes)
  {
    sizes := BidSizes(notionalCap);
  }

  /** What was placed is the allocation of the budget. */
  ghost predicate AllocatedAs(bids: Ladder, cap: real, committed: real, notionalCap: real, placed: Ladder) {
    forall n: nat {:trigger Look(AboutPlacing, n)} :: Look(AboutPlacing, n) ==>
      placed == Allocation(bids, cap, committed, BidSizes(notionalCap))
  }

  lemma AllocationEnds(bids: Ladder, i: nat, cap: real, committed: real, sizes: (LadderLevel, real) -> real, placed: Ladder, all: Ladder)
    requires i <= |bids| && placed + Allocation(bids[i..], cap, committed, sizes) == all
    requires i == |bids| || committed >= cap
    ensures placed == all
  {
    assert placed + [] == placed;
  }

  lemma AllocatedBy(bids: Ladder, cap: real, committed: real, notionalCap: real, sizes: (LadderLevel, real) -> real)
    requires SizesAre(notionalCap, sizes)
    ensures AllocatedAs(bids, cap, committed, notionalCap, Allocation(bids, cap, committed, sizes))
  {
    assert Look(AboutSizes, 0);
  }

  /** Both cuts together give the size of a bid. */
  lemma SizeOfBid(level: LadderLevel, remaining: real, notionalCap: real, inBudget: real, size: real,
                  sizes: (LadderLevel, real) -> real)
    requires SizesAre(notionalCap, sizes)
    requires BudgetCut(remaining, level.price, inBudget) && NotionalCut(Min(level.size, inBudget), level.price, notionalCap, size)
    ensures size == sizes(level, remaining)
  {
    assert Look(AboutSizes, 0);
    assert size == BidSize(level, remaining, notionalCap);
  }

  function SellKeys(orders: map<OrderId, PaperOrder>): set<(Outcome, real)> {
    set id | id in orders && orders[id].side == Sell :: (orders[id].outcome, orders[id].price)
  }

  /** Levels of an exit that are not resting already. */
  function Unrested(levels: Ladder, existing: set<(Outcome, real)>): Ladder {
    if levels == [] then []
    else if (levels[0].outcome, levels[0].price) in existing then Unrested(levels[1..], existing)
    else [levels[0]] + Unrested(levels[1..], existing)
  }

  /** Everything that rested still rests, and what is new satisfies `added`. */
  ghost predicate Extends(orders: map<OrderId, PaperOrder>, before: map<OrderId, PaperOrder>, added: PaperOrder -> bool) {
    && (forall id :: id in before ==> id in orders && orders[id] == before[id])
    && (forall id :: id in orders && id !in before ==> added(orders[id]))
  }

  /** A buy at the price of one of the bids and at most its size. */
  ghost predicate BidFrom(o: PaperOrder, bids: Ladder) {
    && o.side == Buy && MIN_ORDER_SHARES <= o.size
    && exists q :: q in bids && q.outcome == o.outcome && q.price == o.price && o.size <= q.size
  }

  lemma BuyExtends(orders: map<OrderId, PaperOrder>, before: map<OrderId, PaperOrder>, bids: Ladder, level: LadderLevel,
                   nextId: nat, size: real, now: int)
    requires Extends(orders, before, Bids(bids)) && level in bids && MIN_ORDER_SHARES <= size <= level.size
    ensures OrderIdOf(nextId) !in orders ==>
              Extends(orders[OrderIdOf(nextId) := OrderOf(nextId, Buy, level.(size := size), now)], before, Bids(bids))
  {
    IsBid(OrderOf(nextId, Buy, level.(size := size), now), level, bids);
  }

  lemma SellExtends(orders: map<OrderId, PaperOrder>, before: map<OrderId, PaperOrder>, levels: Ladder,
                    existing: set<(Outcome, real)>, level: LadderLevel, nextId: nat, now: int)
    requires Extends(orders, before, Offers(levels, existing)) && level in levels && (level.outcome, level.price) !in existing
    ensures OrderIdOf(nextId) !in orders ==>
              Extends(orders[OrderIdOf(nextId) := OrderOf(nextId, Sell, level, now)], before, Offers(levels, existing))
  {
  }

  /** Sells are not lost by adding orders. */
  lemma KeysKept(orders: map<OrderId, PaperOrder>, before: map<OrderId, PaperOrder>, added: PaperOrder -> bool)
    requires Extends(orders, before, added)
    ensures SellKeys(before) <= SellKeys(orders)
  {
    forall k | k in SellKeys(before) ensures k in SellKeys(orders) {
      var id :| id in before && before[id].side == Sell && k == (before[id].outcome, before[id].price);
      assert id in orders && orders[id] == before[id];
    }
  }

  /** The first levels of a plan rest, and so does what rested before. */
  ghost predicate KeysRest(existing: set<(Outcome, real)>, levels: Ladder, i: nat, orders: map<OrderId, PaperOrder>)
    requires i <= |levels|
  {
    existing + PriceKeys(levels[..i]) <= SellKeys(orders)
  }

  lemma KeysRestNext(existing: set<(Outcome, real)>, levels: Ladder, i: nat, orders: map<OrderId, PaperOrder>,
                     orders': map<OrderId, PaperOrder>)
    requires i < |levels| && KeysRest(existing, levels, i, orders)
    requires SellKeys(orders) <= SellKeys(orders')
    requires (levels[i].outcome, levels[i].price) in existing || (levels[i].outcome, levels[i].price) in SellKeys(orders')
    ensures KeysRest(existing, levels, i + 1, orders')
  {
    KeysGrow(levels, i);
  }

  lemma AllKeysRest(existing: set<(Outcome, real)>, levels: Ladder, orders: map<OrderId, PaperOrder>)
    requires KeysRest(existing, levels, |levels|, orders)
    ensures PriceKeys(levels) <= SellKeys(orders)
  {
    assert levels[..|levels|] == levels;
  }

  lemma SellAddsKey(orders: map<OrderId, PaperOrder>, o: PaperOrder)
    requires o.side == Sell && o.orderId !in orders
    ensures SellKeys(orders) + {(o.outcome, o.price)} <= SellKeys(orders[o.orderId := o])
  {
    var more := orders[o.orderId := o];
    KeysKept(more, orders, x => true);
    assert more[o.orderId] == o;
  }

  lemma KeysGrow(levels: Ladder, i: nat)
    requires i < |levels|
    ensures PriceKeys(levels[..i + 1]) == PriceKeys(levels[..i]) + {(levels[i].outcome, levels[i].price)}
  {
    assert levels[..i + 1] == levels[..i] + [levels[i]];
  }

  lemma UnrestedNext(levels: Ladder, i: nat, existing: set<(Outcome, real)>, placed: Ladder)
    requires i < |levels|
    ensures placed + Unrested(levels[i..], existing)
         == if (levels[i].outcome, levels[i].price) in existing then placed + Unrested(levels[i + 1..], existing)
            else placed + [levels[i]] + Unrested(levels[i + 1..], existing)
  {
    assert levels[i..][1..] == levels[i + 1..];
    if (levels[i].outcome, levels[i].price) !in existing {
      MoveOver(placed, levels[i], Unrested(levels[i + 1..], existing));
    }
  }

  lemma UnrestedEnds(levels: Ladder, existing: set<(Outcome, real)>, placed: Ladder, all: Ladder)
    requires placed + Unrested(levels[|levels|..], existing) == all
    ensures placed == all
  {
    assert placed + [] == placed;
  }

  lemma IsBid(o: PaperOrder, level: LadderLevel, bids: Ladder)
    requires level in bids && o.side == Buy && o.outcome == level.outcome && o.price == level.price
    requires MIN_ORDER_SHARES <= o.size <= level.size
    ensures BidFrom(o, bids)
  {
  }

  ghost function Bids(bids: Ladder): PaperOrder -> bool {
    (o: PaperOrder) => BidFrom(o, bids)
  }

  function Offers(levels: Ladder, existing: set<(Outcome, real)>): PaperOrder -> bool {
    (o: PaperOrder) => o.side == Sell && LadderLevel(o.outcome, o.price, o.size) in levels && (o.outcome, o.price) !in existing
  }

  /** The side that is short of shares, at its ask, for no more than the excess. */
  predicate Completes(level: LadderLevel, h: Holding, book: PaperSim.Book) {
    && Some(level.outcome) == h.Light()
    && Some(level.price) == (if level.outcome == Yes then book.yesAsk else book.noAsk)
    && MIN_ORDER_SHARES <= level.size <= Abs(h.Excess())
  }

  predicate CompletesPair(o: PaperOrder, h: Holding, book: PaperSim.Book) {
    o.side == Buy && Completes(LadderLevel(o.outcome, o.price, o.size), h, book)
  }

  /** Buys rest at the bids, sells at exactly the prices of the levels; kept out of sight where it is passed on. */
  ghost predicate RestsAt(orders: map<OrderId, PaperOrder>, bids: Ladder, levels: Ladder) {
    forall n: nat {:trigger Look(AboutPlacing, n)} :: Look(AboutPlacing, n) ==>
      && (forall id :: id in orders && orders[id].side == Buy ==> BidFrom(orders[id], bids))
      && SellKeys(orders) == PriceKeys(levels)
  }

  lemma PlacedOrders(kept: map<OrderId, PaperOrder>, bought: map<OrderId, PaperOrder>, orders: map<OrderId, PaperOrder>,
                     mixed: Ladder, yes: Ladder, no: Ladder, levels: Ladder, takerExit: bool)
    requires forall id :: id in kept ==> kept[id].side == Sell && !StaleSell(levels, takerExit)(kept[id])
    requires Extends(bought, kept, Bids(mixed))
    requires Extends(orders, bought, Offers(levels, SellKeys(kept)))
    requires PriceKeys(levels) <= SellKeys(orders)
    requires forall q :: q in mixed <==> q in yes || q in no
    ensures RestsAt(orders, yes + no, levels)
  {
    forall id | id in orders && orders[id].side == Buy ensures BidFrom(orders[id], yes + no) {
      assert id in bought && id !in kept && BidFrom(orders[id], mixed);
    }
    forall id | id in orders && orders[id].side == Sell ensures (orders[id].outcome, orders[id].price) in PriceKeys(levels) {
      if id in bought {
        assert id in kept;
      } else {
        assert LadderLevel(orders[id].outcome, orders[id].price, orders[id].size) in levels;
      }
    }
  }

  // ----- the state between two phases -----

  /** Pairs the replay merges at a tick; zero means no merge. */
  function MergeAmount(profile: ReplayProfile, h: Holding, due: bool): real {
    if profile.continuousMergeEnabled && due
       && h.Pairs() >= profile.mergeMinPairs as real
       && 1.0 - h.AvgCombined() >= profile.mergeMinProfitPerPair
    then Max(h.Pairs() - profile.mergeReservePairs as real, 0.0)
    else 0.0
  }

  datatype State = State(events: seq<Event>, orders: map<OrderId, PaperOrder>, nextId: nat,
                         simFv: map<string, (real, real)>, simTicks: nat, memory: Memory)
  {
    ghost function Position(): Holding {
      Fold(events)
    }

    ghost function Booked(): Account {
      AccountOf(events)
    }

    /** What the simulator sees of a row of market data. */
    function Row(t: TickData): Tick {
      TickAt(simFv, simTicks, MARKET, t.Book(), t.Fv(), t.timestamp)
    }
  }

  const START: State := State([], map[], 1, map[], 0, FORGOTTEN)

  // ----- fills -----

  /** Candidates that the imbalance guard lets through. */
  ghost function FilledOf(r: Rules, s: State, cands: seq<PaperOrder>): seq<PaperOrder> {
    Execute(cands, Some(r.profile.maxShareImbalance), s.Position().yes.spent, s.Position().no.spent).fills
  }

  function SellsNoted(m: Memory, done: seq<PaperOrder>, now: int): Memory {
    if done == [] then m
    else
      var before, last := SellsNoted(m, done[..|done| - 1], now), done[|done| - 1];
      if last.side == Sell then before.SoldAt(last.outcome, now) else before
  }

  lemma SellsNotedGrow(m: Memory, done: seq<PaperOrder>, i: nat, now: int)
    requires i < |done|
    ensures var before := SellsNoted(m, done[..i], now);
      SellsNoted(m, done[..i + 1], now) == if done[i].side == Sell then before.SoldAt(done[i].outcome, now) else before
  {
    assert done[..i + 1][..i] == done[..i];
  }

  /** Since when the excess has been past the hard limit. */
  function ExcessWatched(profile: ReplayProfile, m: Memory, h: Holding, now: int): Memory {
    m.(hardExcessStartedAt := if Abs(h.Excess()) < profile.exitHardExcess then None
                              else if m.hardExcessStartedAt.Some? then m.hardExcessStartedAt else Some(now))
  }

  ghost function AfterFilling(r: Rules, s: State, t: TickData, cands: seq<PaperOrder>, refused: seq<PaperOrder>): State {
    var done := FilledOf(r, s, cands);
    var events := s.events + FillEvents(done);
    State(events, s.orders - (Ids(done) + Ids(refused)), s.nextId, s.simFv[MARKET := t.Fv()], s.simTicks + 1,
          ExcessWatched(r.profile, SellsNoted(s.memory, done, t.timestamp), Fold(events), t.timestamp))
  }

  // ----- merging -----

  ghost function MergeEvents(r: Rules, s: State, now: int): seq<Event> {
    var amount := MergeAmount(r.profile, s.Position(), Due(s.memory.lastMergeTime, now, r.profile.mergeIntervalSecs));
    if amount > 0.0 then [Merged(amount)] else []
  }

  /** A merge cancels the resting sells, and lifts the block of an exit whose excess is no longer large. */
  ghost function AfterMerging(r: Rules, s: State, now: int): State {
    if MergeEvents(r, s, now) == [] then s
    else
      var events := s.events + MergeEvents(r, s, now);
      var block := if Abs(Fold(events).Excess()) < r.profile.exitSoftExcess then None else s.memory.exitBuyBlock;
      s.(events := events, orders := Without(s.orders, OnSide(Sell)),
         memory := s.memory.(lastMergeTime := Some(now), exitBuyBlock := block))
  }

  // ----- quoting -----

  function Levels(plan: ExitPlan): Ladder {
    if plan.Maker? then plan.levels else []
  }

  /** A taker exit sells at the bid at once, never more than is held. */
  function SaleEvents(plan: ExitPlan, h: Holding): seq<Event> {
    if !plan.Taker? then []
    else
      var q := QuantizeSize(Min(plan.size, h.Side(plan.heavy).qty));
      if q >= MIN_ORDER_SHARES && plan.price > 0.0 then [Sold(plan.heavy, plan.price, q)] else []
  }

  function SaleNoted(m: Memory, sale: seq<Event>, now: int): Memory {
    if sale != [] && sale[0].Sold? then m.SoldAt(sale[0].outcome, now) else m
  }

  ghost predicate SaleIs(plan: ExitPlan, h: Holding, sale: seq<Event>) {
    forall n: nat {:trigger Look(AboutSizes, n)} :: Look(AboutSizes, n) ==> sale == SaleEvents(plan, h)
  }

  function FirstOrderNoted(m: Memory, placed: bool, now: int): Memory {
    if placed && m.firstOrderPlacedAt.None? then m.(firstOrderPlacedAt := Some(now)) else m
  }

  /** Orders that outlive a re-quote, bids that the budget allows and sells that are missing. */
  datatype Placing = Placing(kept: map<OrderId, PaperOrder>, bids: Ladder, offers: Ladder)

  /** What may be committed to buys at a tick. */
  function CapAt(r: Rules, h: Holding, t: TickData): real {
    EffectiveBuyCommitmentCap(r.profile, h, ElapsedPct(t.remainingSecs, r.totalMarketSecs))
  }

  ghost predicate CapIs(r: Rules, h: Holding, t: TickData, cap: real) {
    forall n: nat {:trigger Look(AboutSizes, n)} :: Look(AboutSizes, n) ==> cap == CapAt(r, h, t)
  }

  ghost function PlacingOf(r: Rules, s: State, t: TickData, d: Decision): Placing {
    var kept := Without(Without(s.orders, OnSide(Buy)), StaleSell(Levels(d.plan), d.plan.Taker?));
    var cap := CapAt(r, s.Position(), t);
    Placing(kept, Allocation(Interleave(d.yes, d.no), cap, CommittedOf(s.Booked(), kept), BidSizes(r.profile.singleOrderNotionalCapUsdc)),
            Unrested(Levels(d.plan), SellKeys(kept)))
  }

  ghost function AfterQuoting(r: Rules, s: State, t: TickData, d: Decision): State {
    var p, now := PlacingOf(r, s, t, d), t.timestamp;
    var bought := PlaceAll(p.kept, s.nextId, Buy, p.bids, now);
    var sale := SaleEvents(d.plan, s.Position());
    var m := FirstOrderNoted(s.memory.(exitBuyBlock := d.exitBuyBlock), p.bids + p.offers != [], now);
    State(s.events + sale, PlaceAll(bought, s.nextId + |p.bids|, Sell, p.offers, now), s.nextId + |p.bids| + |p.offers|,
          s.simFv, s.simTicks, SaleNoted(m, sale, now).(lastFv := Some(t.Fv())))
  }

  // ----- completing pairs -----

  /** A small excess wipes out the count of earlier attempts. */
  function Forgiven(m: Memory, h: Holding): Memory {
    if Abs(h.Excess()) < 1.0 then m.(pairCompletionAttempts := 0, lastPairCompletionAt := None) else m
  }

  /** Late in the period, not too close to its end, and not too often. */
  predicate MayComplete(r: Rules, m: Memory, t: TickData) {
    && (|| PhaseFromRemaining(t.remainingSecs, r.totalMarketSecs, r.profile.resolutionSafetyMarginSecs) == Late
        || t.remainingSecs <= r.profile.veryLatePhaseSecs as real)
    && t.remainingSecs > r.profile.resolutionSafetyMarginSecs as real
    && m.pairCompletionAttempts < r.profile.pairCompletionMaxAttempts
    && Due(m.lastPairCompletionAt, t.timestamp, r.profile.pairCompletionRetrySecs)
  }

  ghost predicate MayIs(r: Rules, m: Memory, t: TickData, may: bool) {
    forall n: nat {:trigger Look(AboutSizes, n)} :: Look(AboutSizes, n) ==> may == MayComplete(r, m, t)
  }

  method CompletionAllowed(r: Rules, m: Memory, t: TickData) returns (may: bool)
    ensures MayIs(r, m, t, may)
  {
    may := MayComplete(r, m, t);
  }

  /** Shares of a completing buy that are not on the way already and that both caps allow. */
  function CompletionSize(profile: ReplayProfile, wanted: LadderLevel, onTheWay: real, remaining: real): real {
    Min(CapBuySizeForNotional(QuantizeSize(Max(wanted.size - onTheWay, 0.0)), wanted.price, profile.singleOrderNotionalCapUsdc),
        BudgetCappedSize(remaining, wanted.price))
  }

  function WantedCompletion(r: Rules, h: Holding, t: TickData): Option<LadderLevel> {
    ComputePairCompletion(h, t.Book().yesAsk, t.Book().noAsk, PAIR_COMPLETION_MAX_SHARES, r.profile.pairFeeBuffer)
  }

  /** The completing buy for a position, its account and the resting orders, if there is one. */
  ghost function CompletionFor(r: Rules, h: Holding, a: Account, orders: map<OrderId, PaperOrder>, t: TickData): Option<LadderLevel> {
    var wanted := WantedCompletion(r, h, t);
    if wanted.None? then None
    else
      var size := CompletionSize(r.profile, wanted.value, Sum(orders, BuySharesOf(MARKET, wanted.value.outcome)),
                                 Max(CapAt(r, h, t) - CommittedOf(a, orders), 0.0));
      if size < MIN_ORDER_SHARES then None else Some(wanted.value.(size := size))
  }

  ghost function CompletionOf(r: Rules, s: State, t: TickData): Option<LadderLevel> {
    CompletionFor(r, s.Position(), s.Booked(), s.orders, t)
  }

  /** This is the completing buy, or there is none; kept out of sight where it is passed on. */
  ghost predicate CompletionIs(r: Rules, h: Holding, a: Account, orders: map<OrderId, PaperOrder>, t: TickData,
                               level: Option<LadderLevel>)
  {
    forall n: nat {:trigger Look(AboutSizes, n)} :: Look(AboutSizes, n) ==>
      level == CompletionFor(r, h, a, orders, t)
  }

  /** The size that is left of a completing buy. */
  ghost predicate CompletionSized(profile: ReplayProfile, wanted: LadderLevel, onTheWay: real, remaining: real, size: real) {
    forall n: nat {:trigger Look(AboutSizes, n)} :: Look(AboutSizes, n) ==>
      size == CompletionSize(profile, wanted, onTheWay, remaining)
  }

  method SizeForCompletion(profile: ReplayProfile, wanted: LadderLevel, onTheWay: real, remaining: real) returns (size: real)
    requires 0.0 <= wanted.price && 0.0 <= remaining && 0.0 <= onTheWay && 0.0 <= wanted.size
    ensures CompletionSized(profile, wanted, onTheWay, remaining, size)
    ensures size <= wanted.size && wanted.(size := size).Notional() <= remaining
  {
    var inBudget := CutToBudget(remaining, wanted.price);
    var missing := QuantizeSize(Max(wanted.size - onTheWay, 0.0));
    var cut := CutToNotional(missing, wanted.price, profile.singleOrderNotionalCapUsdc);
    size := Min(cut, inBudget);
    MulMonotone(wanted.price, size, inBudget);
    CompletionCut(profile, wanted, onTheWay, remaining, inBudget, missing, cut);
  }

  lemma CompletionCut(profile: ReplayProfile, wanted: LadderLevel, onTheWay: real, remaining: real, inBudget: real, missing: real, cut: real)
    requires BudgetCut(remaining, wanted.price, inBudget) && missing == QuantizeSize(Max(wanted.size - onTheWay, 0.0))
    requires NotionalCut(missing, wanted.price, profile.singleOrderNotionalCapUsdc, cut)
    ensures CompletionSized(profile, wanted, onTheWay, remaining, Min(cut, inBudget))
  {
    assert Look(AboutSizes, 0);
  }

  lemma NoCompletion(r: Rules, h: Holding, a: Account, orders: map<OrderId, PaperOrder>, t: TickData)
    requires WantedCompletion(r, h, t).None?
    ensures CompletionIs(r, h, a, orders, t, None)
  {
  }

  lemma SizedCompletion(r: Rules, h: Holding, a: Account, orders: map<OrderId, PaperOrder>, t: TickData, wanted: LadderLevel,
                        cap: real, committed: real, size: real)
    requires WantedCompletion(r, h, t) == Some(wanted)
    requires CapIs(r, h, t, cap) && committed == CommittedOf(a, orders)
    requires CompletionSized(r.profile, wanted, Sum(orders, BuySharesOf(MARKET, wanted.outcome)), Max(cap - committed, 0.0), size)
    ensures CompletionIs(r, h, a, orders, t, if size < MIN_ORDER_SHARES then None else Some(wanted.(size := size)))
  {
    assert Look(AboutSizes, 0);
  }

  lemma NotionalPositive(level: LadderLevel)
    requires 0.0 < level.price && 0.0 < level.size
    ensures 0.0 < level.Notional()
  {
    MulPositive(level.price, level.size);
  }

  lemma BuySharesNonNegative(orders: map<OrderId, PaperOrder>, outcome: Outcome)
    requires OrdersSound(orders)
    ensures 0.0 <= Sum(orders, BuySharesOf(MARKET, outcome))
  {
    forall id | id in orders ensures 0.0 <= BuySharesOf(MARKET, outcome)(orders[id]) {
    }
    SumNonNegative(orders, BuySharesOf(MARKET, outcome));
  }

  ghost function AfterCompleting(r: Rules, s: State, t: TickData): State {
    var m := Forgiven(s.memory, s.Position());
    var c := if MayComplete(r, m, t) then CompletionOf(r, s, t) else None;
    if c.None? then s.(memory := m)
    else
      s.(orders := s.orders[OrderIdOf(s.nextId) := OrderOf(s.nextId, Buy, c.value, t.timestamp)], nextId := s.nextId + 1,
         memory := m.(pairCompletionAttempts := m.pairCompletionAttempts + 1, lastPairCompletionAt := Some(t.timestamp)))
  }

  // ----- the phases in plain figures -----

  /** What a tick remembers of its fills: the time of the last sale of each side, and since when the excess has been very large. */
  lemma FillsRemembered(r: Rules, s: State, t: TickData, cands: seq<PaperOrder>, refused: seq<PaperOrder>, s': State)
    requires FillsTo(r, s, t, cands, refused, s')
    ensures var done, h, m := FilledOf(r, s, cands), s'.Position(), s'.memory;
      && m.lastSellTimeYes == (if exists o :: o in done && o.side == Sell && o.outcome == Yes then Some(t.timestamp) else s.memory.lastSellTimeYes)
      && m.lastSellTimeNo == (if exists o :: o in done && o.side == Sell && o.outcome == No then Some(t.timestamp) else s.memory.lastSellTimeNo)
      && m.hardExcessStartedAt == (if Unpaired(h) < r.profile.exitHardExcess then None
                                   else if s.memory.hardExcessStartedAt.Some? then s.memory.hardExcessStartedAt else Some(t.timestamp))
      && m == s.memory.(lastSellTimeYes := m.lastSellTimeYes, lastSellTimeNo := m.lastSellTimeNo, hardExcessStartedAt := m.hardExcessStartedAt)
  {
    assert Look(AboutSteps, 0);
    SalesRemembered(s.memory, FilledOf(r, s, cands), t.timestamp);
    assert Abs(s'.Position().Excess()) == Unpaired(s'.Position());
  }

  lemma {:induction false} SalesRemembered(m: Memory, done: seq<PaperOrder>, now: int)
    ensures var after := SellsNoted(m, done, now);
      && after.lastSellTimeYes == (if exists o :: o in done && o.side == Sell && o.outcome == Yes then Some(now) else m.lastSellTimeYes)
      && after.lastSellTimeNo == (if exists o :: o in done && o.side == Sell && o.outcome == No then Some(now) else m.lastSellTimeNo)
      && after == m.(lastSellTimeYes := after.lastSellTimeYes, lastSellTimeNo := after.lastSellTimeNo)
  {
    if done != [] {
      var init, last := done[..|done| - 1], done[|done| - 1];
      SalesRemembered(m, init, now);
      assert done == init + [last];
      assert forall o :: o in done <==> o in init || o == last;
    }
  }

  /** A merge leaves the reserve: it is made when enabled, not too soon, large enough, and with pairs that cost little enough. */
  lemma MergeMeans(r: Rules, s: State, now: int)
    ensures var h := s.Position();
      var pairs := if h.yes.qty <= h.no.qty then h.yes.qty else h.no.qty;
      var cost := (if h.yes.qty > 0.0 then h.yes.spent / h.yes.qty else 0.0) + (if h.no.qty > 0.0 then h.no.spent / h.no.qty else 0.0);
      MergeEvents(r, s, now)
      == if r.profile.continuousMergeEnabled && Waited(s.memory.lastMergeTime, now, r.profile.mergeIntervalSecs)
            && pairs >= r.profile.mergeMinPairs as real && 1.0 - cost >= r.profile.mergeMinProfitPerPair
            && pairs > r.profile.mergeReservePairs as real
         then [Merged(pairs - r.profile.mergeReservePairs as real)] else []
  {
    DueMeans(s.memory.lastMergeTime, now, r.profile.mergeIntervalSecs);
  }

  /** A merge takes every resting sell out of the book, and nothing else; without one nothing changes. */
  lemma MergeKeepsBuys(r: Rules, s: State, now: int, s': State)
    requires MergesTo(r, s, now, s')
    ensures MergeEvents(r, s, now) == [] ==> s' == s
    ensures MergeEvents(r, s, now) != [] ==>
              && (forall id :: id in s'.orders <==> id in s.orders && s.orders[id].side == Buy)
              && (forall id :: id in s'.orders ==> s'.orders[id] == s.orders[id])
              && s'.memory == s.memory.(lastMergeTime := Some(now),
                                        exitBuyBlock := if Unpaired(s'.Position()) < r.profile.exitSoftExcess then None else s.memory.exitBuyBlock)
  {
    assert Look(AboutSteps, 0);
    assert Abs(s'.Position().Excess()) == Unpaired(s'.Position());
  }

  /** Of the orders before a re-quote only the sells stay whose outcome and price the new plan offers again; none at a sale at once. */
  lemma KeptMeans(r: Rules, s: State, t: TickData, d: Decision, id: OrderId)
    requires id in s.orders
    ensures var o, kept := s.orders[id], PlacingOf(r, s, t, d).kept;
      && (id in kept <==> o.side == Sell && d.plan.Maker? && exists q :: q in d.plan.levels && q.outcome == o.outcome && q.price == o.price)
      && (id in kept ==> kept[id] == o)
  {
    var o := s.orders[id];
    assert (o.outcome, o.price) in PriceKeys(Levels(d.plan)) <==>
           exists q :: q in Levels(d.plan) && q.outcome == o.outcome && q.price == o.price;
  }

  /** A sale at once takes what is wanted or held, in hundredths of a share, if that is five shares or more. */
  lemma SaleMeans(plan: ExitPlan, h: Holding)
    ensures plan.Taker? ==>
              var held := if plan.heavy == Yes then h.yes.qty else h.no.qty;
              var size := QuantizeSize(if plan.size <= held then plan.size else held);
              SaleEvents(plan, h) == if 5.0 <= size && 0.0 < plan.price then [Sold(plan.heavy, plan.price, size)] else []
    ensures !plan.Taker? ==> SaleEvents(plan, h) == []
  {
  }

  /** What a re-quote remembers: its fair values, the side it sells off, the first order ever placed, and a sale at once. */
  lemma QuotesRemembered(r: Rules, s: State, t: TickData, d: Decision, s': State)
    requires QuotesTo(r, s, t, d, s')
    ensures var m, sale := s'.memory, SaleEvents(d.plan, s.Position());
      && m.lastFv == Some((t.fvUp, t.fvDown)) && m.exitBuyBlock == d.exitBuyBlock
      && m.firstOrderPlacedAt == (if s.memory.firstOrderPlacedAt.None? && s'.nextId > s.nextId then Some(t.timestamp)
                                  else s.memory.firstOrderPlacedAt)
      && m.lastSellTimeYes == (if sale != [] && d.plan.heavy == Yes then Some(t.timestamp) else s.memory.lastSellTimeYes)
      && m.lastSellTimeNo == (if sale != [] && d.plan.heavy == No then Some(t.timestamp) else s.memory.lastSellTimeNo)
      && m.hardExcessStartedAt == s.memory.hardExcessStartedAt && m.lastMergeTime == s.memory.lastMergeTime
      && m.pairCompletionAttempts == s.memory.pairCompletionAttempts && m.lastPairCompletionAt == s.memory.lastPairCompletionAt
  {
    assert Look(AboutSteps, 0);
    var p := PlacingOf(r, s, t, d);
    assert |p.bids + p.offers| == |p.bids| + |p.offers|;
  }

  /** Earlier attempts are forgotten when less than a share is missing. */
  lemma AttemptsMean(m: Memory, h: Holding)
    ensures Forgiven(m, h) == if Unpaired(h) < 1.0 then m.(pairCompletionAttempts := 0, lastPairCompletionAt := None) else m
  {
    assert Abs(h.Excess()) == Unpaired(h);
  }

  /** When a pair may be completed: late or very late but before the safety margin, with attempts left and not too soon after the last. */
  lemma MayCompleteMeans(r: Rules, m: Memory, t: TickData)
    ensures var margin := r.profile.resolutionSafetyMarginSecs as real;
      MayComplete(r, m, t)
      <==> && t.remainingSecs > margin
           && (|| t.remainingSecs <= r.profile.veryLatePhaseSecs as real
               || (0.0 < t.remainingSecs
                   && (r.totalMarketSecs <= margin || t.remainingSecs - margin <= 0.33 * (r.totalMarketSecs - margin))))
           && m.pairCompletionAttempts < r.profile.pairCompletionMaxAttempts
           && Waited(m.lastPairCompletionAt, t.timestamp, r.profile.pairCompletionRetrySecs)
  {
    LateMeans(t.remainingSecs, r.totalMarketSecs, r.profile.resolutionSafetyMarginSecs);
    DueMeans(m.lastPairCompletionAt, t.timestamp, r.profile.pairCompletionRetrySecs);
  }

  /** What a tick may commit, by the part of the period that has passed. */
  lemma CapAtMeans(r: Rules, h: Holding, t: TickData)
    requires 0.0 < r.totalMarketSecs
    ensures t.remainingSecs >= r.totalMarketSecs ==> CapAt(r, h, t) == EffectiveBuyCommitmentCap(r.profile, h, 0.0)
    ensures t.remainingSecs <= 0.0 ==> CapAt(r, h, t) == EffectiveBuyCommitmentCap(r.profile, h, 1.0)
    ensures 0.0 <= t.remainingSecs <= r.totalMarketSecs ==>
              exists part: real :: part * r.totalMarketSecs == r.totalMarketSecs - t.remainingSecs
                                   && CapAt(r, h, t) == EffectiveBuyCommitmentCap(r.profile, h, part)
  {
    ElapsedMeans(t.remainingSecs, r.totalMarketSecs);
    var part := ElapsedPct(t.remainingSecs, r.totalMarketSecs);
    assert CapAt(r, h, t) == EffectiveBuyCommitmentCap(r.profile, h, part);
  }

  /** The closing merge takes all pairs, if it is configured and a pair has cost little enough. */
  lemma ClosingMeans(profile: ReplayProfile, h: Holding)
    ensures var pairs := if h.yes.qty <= h.no.qty then h.yes.qty else h.no.qty;
      var cost := (if h.yes.qty > 0.0 then h.yes.spent / h.yes.qty else 0.0) + (if h.no.qty > 0.0 then h.no.spent / h.no.qty else 0.0);
      ClosingEvents(profile, h)
      == if profile.mergeAtClosing && pairs > 0.0 && 1.0 - cost >= profile.mergeMinProfitPerPair then [Merged(pairs)] else []
  {
  }

  // ----- putting the phases together -----

  lemma FilledState(r: Rules, s: State, t: TickData, cands: seq<PaperOrder>, refused: seq<PaperOrder>, done: seq<PaperOrder>, s': State)
    requires done == FilledOf(r, s, cands)
    requires s'.events == s.events + FillEvents(done) && s'.orders == s.orders - (Ids(done) + Ids(refused)) && s'.nextId == s.nextId
    requires s'.simFv == s.simFv[MARKET := t.Fv()] && s'.simTicks == s.simTicks + 1
    requires s'.memory == ExcessWatched(r.profile, SellsNoted(s.memory, done, t.timestamp), s'.Position(), t.timestamp)
    ensures FillsTo(r, s, t, cands, refused, s')
  {
  }

  ghost predicate PlacingIs(orders: map<OrderId, PaperOrder>, a: Account, cap: real, d: Decision, notionalCap: real, p: Placing) {
    forall n: nat {:trigger Look(AboutPlacing, n)} :: Look(AboutPlacing, n) ==>
      var kept := Without(orders, StaleSell(Levels(d.plan), d.plan.Taker?));
      p == Placing(kept, Allocation(Interleave(d.yes, d.no), cap, CommittedOf(a, kept), BidSizes(notionalCap)),
                   Unrested(Levels(d.plan), SellKeys(kept)))
  }

  ghost predicate PlacesBoth(p: Placing, nextId: nat, now: int, orders': map<OrderId, PaperOrder>, nextId': nat) {
    forall n: nat {:trigger Look(AboutPlacing, n)} :: Look(AboutPlacing, n) ==>
      && orders' == PlaceAll(PlaceAll(p.kept, nextId, Buy, p.bids, now), nextId + |p.bids|, Sell, p.offers, now)
      && nextId' == nextId + |p.bids| + |p.offers|
  }

  lemma PlacingFollows(orders: map<OrderId, PaperOrder>, a: Account, cap: real, d: Decision, notionalCap: real,
                       kept: map<OrderId, PaperOrder>, committed: real, bids: Ladder, offers: Ladder)
    requires kept == Without(orders, StaleSell(Levels(d.plan), d.plan.Taker?)) && committed == CommittedOf(a, kept)
    requires AllocatedAs(Interleave(d.yes, d.no), cap, committed, notionalCap, bids)
    requires offers == Unrested(Levels(d.plan), SellKeys(kept))
    ensures PlacingIs(orders, a, cap, d, notionalCap, Placing(kept, bids, offers))
  {
    assert Look(AboutPlacing, 0);
  }

  lemma BothPlaced(p: Placing, nextId: nat, now: int, bought: map<OrderId, PaperOrder>, id1: nat,
                   orders': map<OrderId, PaperOrder>, nextId': nat)
    requires PlacesAll(p.kept, nextId, Buy, p.bids, now, bought, id1)
    requires PlacesAll(bought, id1, Sell, p.offers, now, orders', nextId')
    ensures PlacesBoth(p, nextId, now, orders', nextId')
  {
    assert Look(AboutPlacing, 0);
  }

  lemma QuotedState(r: Rules, s: State, h: Holding, a: Account, t: TickData, d: Decision, cap: real, p: Placing, sale: seq<Event>, s': State)
    requires h == s.Position() && a == s.Booked()
    requires DecidedAs(r, h, s.memory, t, d)
    requires CapIs(r, h, t, cap)
    requires PlacingIs(Without(s.orders, OnSide(Buy)), a, cap, d, r.profile.singleOrderNotionalCapUsdc, p)
    requires PlacesBoth(p, s.nextId, t.timestamp, s'.orders, s'.nextId)
    requires s'.simFv == s.simFv && s'.simTicks == s.simTicks
    requires SaleIs(d.plan, h, sale) && s'.events == s.events + sale
    requires var m := FirstOrderNoted(s.memory.(exitBuyBlock := d.exitBuyBlock), s'.nextId > s.nextId, t.timestamp);
      s'.memory == SaleNoted(m, sale, t.timestamp).(lastFv := Some(t.Fv()))
    ensures QuotesTo(r, s, t, d, s')
  {
    assert Look(AboutPlacing, 0) && Look(AboutSizes, 0);
    assert |p.bids + p.offers| == |p.bids| + |p.offers|;
    assert s' == AfterQuoting(r, s, t, d);
  }

  // ----- a tick -----

  ghost predicate FillsTo(r: Rules, s: State, t: TickData, cands: seq<PaperOrder>, refused: seq<PaperOrder>, s': State) {
    forall n: nat {:trigger Look(AboutSteps, n)} :: Look(AboutSteps, n) ==> s' == AfterFilling(r, s, t, cands, refused)
  }

  ghost predicate MergesTo(r: Rules, s: State, now: int, s': State) {
    forall n: nat {:trigger Look(AboutSteps, n)} :: Look(AboutSteps, n) ==> s' == AfterMerging(r, s, now)
  }

  ghost predicate QuotesTo(r: Rules, s: State, t: TickData, d: Decision, s': State) {
    && DecidedAs(r, s.Position(), s.memory, t, d)
    && forall n: nat {:trigger Look(AboutSteps, n)} :: Look(AboutSteps, n) ==> s' == AfterQuoting(r, s, t, d)
  }

  ghost predicate CompletesTo(r: Rules, s: State, t: TickData, s': State) {
    forall n: nat {:trigger Look(AboutSteps, n)} :: Look(AboutSteps, n) ==> s' == AfterCompleting(r, s, t)
  }

  /** A tick with the orders it offered and refused, its decision, and the states between its phases. */
  datatype TickRecord = TickRecord(before: State, cands: seq<PaperOrder>, refused: seq<PaperOrder>, filled: State,
                                   merged: State, decision: Decision, quoted: State, after: State)

  const NO_DECISION: Decision := Decision([], [], Skip, None)

  /**
   Fills first: the orders that qualify are offered best price first. Then, if fair value has moved, at most one merge
   and a re-quote. Then at most one buy that completes pairs.
   */
  ghost predicate IsTick(r: Rules, t: TickData, rec: TickRecord) {
    && Offered(rec.before.Row(t), rec.before.orders, rec.cands, rec.refused)
    && FillsTo(r, rec.before, t, rec.cands, rec.refused, rec.filled)
    && (if rec.filled.memory.FvShifted(r.profile, t)
        then MergesTo(r, rec.filled, t.timestamp, rec.merged) && QuotesTo(r, rec.merged, t, rec.decision, rec.quoted)
        else rec.merged == rec.quoted == rec.filled)
    && CompletesTo(r, rec.quoted, t, rec.after)
  }

  /** Every resting buy is a safe bid or completes a pair, and the sells are at exactly the prices of the exit plan. */
  ghost predicate RestsSafely(profile: ReplayProfile, t: TickData, merged: State, d: Decision, after: State) {
    && SafeDecision(profile, merged.Position(), t, d)
    && (forall id :: id in after.orders && after.orders[id].side == Buy ==>
          BidFrom(after.orders[id], d.yes + d.no) || CompletesPair(after.orders[id], after.Position(), t.Book()))
    && SellKeys(after.orders) == PriceKeys(Levels(d.plan))
  }

  /** No side has both bids and sells resting, unless the buy completes a pair. */
  lemma SidesStayApart(profile: ReplayProfile, t: TickData, merged: State, d: Decision, after: State, sell: OrderId, buy: OrderId)
    requires RestsSafely(profile, t, merged, d, after)
    requires sell in after.orders && after.orders[sell].side == Sell
    requires buy in after.orders && after.orders[buy].side == Buy && after.orders[buy].outcome == after.orders[sell].outcome
    ensures CompletesPair(after.orders[buy], after.Position(), t.Book())
  {
    assert Look(AboutExits, 0);
    var o, b := after.orders[sell], after.orders[buy];
    assert (o.outcome, o.price) in SellKeys(after.orders);
    var level :| level in Levels(d.plan) && (level.outcome, level.price) == (o.outcome, o.price);
    assert d.plan.Maker? && level.outcome == d.plan.heavy;
    assert forall q :: q in d.yes + d.no ==> (q in d.yes || q in d.no) && q.outcome != d.plan.heavy;
  }

  /**
   So on a tick that follows a re-quote without a completing buy, no buy of a side is offered before its sells, and
   the imbalance guard agrees with the position exactly as `GuardAgreesExactly` says.
   */
  lemma SellsComeFirst(profile: ReplayProfile, t: TickData, merged: State, d: Decision, after: State,
                       next: Tick, cands: seq<PaperOrder>, refused: seq<PaperOrder>, side: Outcome)
    requires RestsSafely(profile, t, merged, d, after)
    requires forall id :: id in after.orders ==> !CompletesPair(after.orders[id], after.Position(), t.Book())
    requires Offered(next, after.orders, cands, refused)
    ensures SellsFirst(cands, side)
  {
    forall i, j | 0 <= i < j < |cands| && cands[i].side == Buy && cands[i].outcome == side
      ensures !(cands[j].side == Sell && cands[j].outcome == side)
    {
      var b, o := cands[i], cands[j];
      assert b in cands && o in cands;
      if o.side == Sell && o.outcome == side {
        SidesStayApart(profile, t, merged, d, after, o.orderId, b.orderId);
        assert false;
      }
    }
  }

  /** Buys filled net of merged cost plus buys resting are within the cap. */
  ghost predicate WithinCap(profile: ReplayProfile, s: State) {
    s.Booked().paid - s.Booked().costMerged + Sum(s.orders, BuyNotional()) <= LossCap(profile)
  }

  /** What every tick promises; kept out of sight where it is passed on. */
  ghost predicate SafeTick(r: Rules, t: TickData, rec: TickRecord) {
    forall n: nat {:trigger Look(AboutSteps, n)} :: Look(AboutSteps, n) ==>
      && (rec.filled.memory.FvShifted(r.profile, t) ==> RestsSafely(r.profile, t, rec.merged, rec.decision, rec.after))
      && (!rec.filled.memory.FvShifted(r.profile, t) ==>
            forall id :: id in rec.after.orders && id !in rec.before.orders ==>
              CompletesPair(rec.after.orders[id], rec.after.Position(), t.Book()))
      && WithinCap(r.profile, rec.after)
  }

  /** At most one order has been added, and it completes a pair. */
  ghost predicate OneCompletion(before: map<OrderId, PaperOrder>, orders: map<OrderId, PaperOrder>, h: Holding, book: PaperSim.Book) {
    || orders == before
    || exists o: PaperOrder :: orders == before[o.orderId := o] && o.orderId !in before && CompletesPair(o, h, book)
  }

  lemma TickIsSafe(r: Rules, t: TickData, rec: TickRecord)
    requires rec.filled.memory.FvShifted(r.profile, t) ==>
               && SafeDecision(r.profile, rec.merged.Position(), t, rec.decision)
               && RestsAt(rec.quoted.orders, rec.decision.yes + rec.decision.no, Levels(rec.decision.plan))
    requires !rec.filled.memory.FvShifted(r.profile, t) ==> rec.quoted.orders.Keys <= rec.before.orders.Keys
    requires OneCompletion(rec.quoted.orders, rec.after.orders, rec.after.Position(), t.Book())
    requires WithinCap(r.profile, rec.after)
    ensures SafeTick(r, t, rec)
  {
    assert Look(AboutPlacing, 0);
    if rec.after.orders != rec.quoted.orders {
      var o: PaperOrder :| rec.after.orders == rec.quoted.orders[o.orderId := o] && o.orderId !in rec.quoted.orders
                           && CompletesPair(o, rec.after.Position(), t.Book());
      BuyKeepsSellKeys(rec.quoted.orders, o);
    }
  }

  lemma CompletedState(r: Rules, s: State, t: TickData, may: bool, level: Option<LadderLevel>, s': State)
    requires MayIs(r, Forgiven(s.memory, s.Position()), t, may)
    requires if may then CompletionIs(r, s.Position(), s.Booked(), s.orders, t, level) else level.None?
    requires var m := Forgiven(s.memory, s.Position());
      s' == if level.None? then s.(memory := m)
            else s.(orders := s.orders[OrderIdOf(s.nextId) := OrderOf(s.nextId, Buy, level.value, t.timestamp)], nextId := s.nextId + 1,
                    memory := m.(pairCompletionAttempts := m.pairCompletionAttempts + 1, lastPairCompletionAt := Some(t.timestamp)))
    ensures CompletesTo(r, s, t, s')
  {
    assert Look(AboutSizes, 0);
  }

  /** A completing buy is placed only late, before the safety margin, and at most as often in a row as configured. */
  lemma CompletionsAreRare(r: Rules, s: State, t: TickData, s': State)
    requires CompletesTo(r, s, t, s') && s'.orders != s.orders
    ensures s'.memory.pairCompletionAttempts <= r.profile.pairCompletionMaxAttempts
    ensures s'.memory.lastPairCompletionAt == Some(t.timestamp)
    ensures t.remainingSecs > r.profile.resolutionSafetyMarginSecs as real
  {
    assert Look(AboutSteps, 0);
  }

  lemma BuyKeepsSellKeys(orders: map<OrderId, PaperOrder>, o: PaperOrder)
    requires o.side == Buy && o.orderId !in orders
    ensures SellKeys(orders[o.orderId := o]) == SellKeys(orders)
  {
    KeysKept(orders[o.orderId := o], orders, x => true);
    var more := orders[o.orderId := o];
    forall k | k in SellKeys(more) ensures k in SellKeys(orders) {
      var id :| id in more && more[id].side == Sell && k == (more[id].outcome, more[id].price);
      assert id in orders;
    }
  }

  /** The period so far: a record for every tick, each starting where the one before it ended. */
  ghost predicate IsTrace(r: Rules, ticks: seq<TickData>, trace: seq<TickRecord>, end: State) {
    && |trace| == |ticks|
    && if trace == [] then end == START
       else
         var n := |trace| - 1;
         IsTick(r, ticks[n], trace[n]) && end == trace[n].after && IsTrace(r, ticks[..n], trace[..n], trace[n].before)
  }

  ghost predicate SafeTrace(r: Rules, ticks: seq<TickData>, trace: seq<TickRecord>) {
    |trace| == |ticks| && forall i :: 0 <= i < |trace| ==> SafeTick(r, ticks[i], trace[i])
  }

  /** A safe trace that leads to a state; kept out of sight where it is passed on. */
  ghost predicate Traced(r: Rules, ticks: seq<TickData>, trace: seq<TickRecord>, end: State) {
    forall n: nat {:trigger Look(AboutTraces, n)} :: Look(AboutTraces, n) ==>
      IsTrace(r, ticks, trace, end) && SafeTrace(r, ticks, trace)
  }

  lemma TracedPays(r: Rules, ticks: seq<TickData>, trace: seq<TickRecord>, end: State)
    requires Traced(r, ticks, trace, end)
    ensures end == EndOf(trace) && end.Booked().paid == FilledNotional(r, trace)
  {
    assert Look(AboutTraces, 0);
    TracePays(r, ticks, trace, end);
  }

  lemma RunPays(r: Rules, ticks: seq<TickData>, trace: seq<TickRecord>, end: State)
    requires Traced(r, ticks, trace, end)
    ensures end == EndOf(trace) && AccountOf(RunOf(r.profile, trace)).paid == FilledNotional(r, trace)
  {
    TracedPays(r, ticks, trace, end);
    AddsNoBuy(end.events, ClosingEvents(r.profile, end.Position()));
  }

  /** Every fill, sale and merge of a period: those of its ticks, and the closing merge. */
  ghost function RunOf(profile: ReplayProfile, trace: seq<TickRecord>): seq<Event> {
    EndOf(trace).events + ClosingEvents(profile, EndOf(trace).Position())
  }

  /** The state after the last tick. */
  ghost function EndOf(trace: seq<TickRecord>): State {
    if trace == [] then START else trace[|trace| - 1].after
  }

  lemma TraceStarts(r: Rules)
    ensures Traced(r, [], [], START)
  {
  }

  lemma TraceGrows(r: Rules, ticks: seq<TickData>, trace: seq<TickRecord>, t: TickData, rec: TickRecord)
    requires Traced(r, ticks, trace, rec.before) && IsTick(r, t, rec) && SafeTick(r, t, rec)
    ensures Traced(r, ticks + [t], trace + [rec], rec.after)
  {
    assert Look(AboutTraces, 0);
    assert (ticks + [t])[..|ticks|] == ticks && (trace + [rec])[..|trace|] == trace;
  }

  lemma FillsAdd(r: Rules, s: State, t: TickData, cands: seq<PaperOrder>, refused: seq<PaperOrder>, s': State)
    requires FillsTo(r, s, t, cands, refused, s')
    ensures s'.events == s.events + FillEvents(FilledOf(r, s, cands))
  {
    assert Look(AboutSteps, 0);
  }

  lemma MergesAddEvents(r: Rules, s: State, now: int, s': State)
    requires MergesTo(r, s, now, s')
    ensures s'.events == s.events + MergeEvents(r, s, now)
  {
    assert Look(AboutSteps, 0);
  }

  lemma QuotesAdd(r: Rules, s: State, t: TickData, d: Decision, s': State)
    requires QuotesTo(r, s, t, d, s')
    ensures s'.events == s.events + SaleEvents(d.plan, s.Position())
  {
    assert Look(AboutSteps, 0);
  }

  lemma CompletesAdd(r: Rules, s: State, t: TickData, s': State)
    requires CompletesTo(r, s, t, s')
    ensures s'.events == s.events
  {
    assert Look(AboutSteps, 0);
  }

  /** What a tick adds to the record of the position: its fills, then at most one merge, then at most one sale at the bid. */
  lemma TickEvents(r: Rules, t: TickData, rec: TickRecord)
    requires IsTick(r, t, rec)
    ensures var shifted := rec.filled.memory.FvShifted(r.profile, t);
      rec.after.events
      == rec.before.events + FillEvents(FilledOf(r, rec.before, rec.cands))
         + (if shifted then MergeEvents(r, rec.filled, t.timestamp) else [])
         + (if shifted then SaleEvents(rec.decision.plan, rec.merged.Position()) else [])
  {
    FillsAdd(r, rec.before, t, rec.cands, rec.refused, rec.filled);
    if rec.filled.memory.FvShifted(r.profile, t) {
      MergesAddEvents(r, rec.filled, t.timestamp, rec.merged);
      QuotesAdd(r, rec.merged, t, rec.decision, rec.quoted);
    }
    CompletesAdd(r, rec.quoted, t, rec.after);
  }

  // ----- what was paid -----

  /** Money paid for the buys that the ticks of a trace filled. */
  ghost function FilledNotional(r: Rules, trace: seq<TickRecord>): real {
    if trace == [] then 0.0
    else
      var last := trace[|trace| - 1];
      FilledNotional(r, trace[..|trace| - 1]) + SeqSum(FilledOf(r, last.before, last.cands), BuyNotional())
  }

  lemma FillPays(es: seq<Event>, o: PaperOrder)
    requires o.market == MARKET
    ensures AccountOf(es + [EventOf(o)]).paid == AccountOf(es).paid + BuyNotional()(o)
  {
    assert (es + [EventOf(o)])[..|es|] == es;
    FillCredit(AccountOf(es), Fold(es), o);
  }

  lemma {:induction false} FillsPay(es: seq<Event>, done: seq<PaperOrder>)
    requires forall o :: o in done ==> o.market == MARKET
    ensures AccountOf(es + FillEvents(done)).paid == AccountOf(es).paid + SeqSum(done, BuyNotional())
  {
    if done == [] {
      assert es + FillEvents(done) == es;
    } else {
      var k := |done| - 1;
      FillsPay(es, done[..k]);
      FillEventsGrow(done, k);
      assert done[..k + 1] == done;
      FillPays(es + FillEvents(done[..k]), done[k]);
      assert es + FillEvents(done) == es + FillEvents(done[..k]) + [EventOf(done[k])];
    }
  }

  lemma NothingPaid(es: seq<Event>, e: Event)
    requires !e.Bought?
    ensures AccountOf(es + [e]).paid == AccountOf(es).paid
  {
    assert (es + [e])[..|es|] == es;
  }

  lemma TickPays(r: Rules, t: TickData, rec: TickRecord)
    requires IsTick(r, t, rec)
    ensures rec.after.Booked().paid == rec.before.Booked().paid + SeqSum(FilledOf(r, rec.before, rec.cands), BuyNotional())
  {
    TickEvents(r, t, rec);
    var done := FilledOf(r, rec.before, rec.cands);
    var filled := rec.before.events + FillEvents(done);
    var h := rec.before.Position();
    TickSelects(rec.before.Row(t), rec.before.orders, rec.cands, rec.refused, Some(r.profile.maxShareImbalance), h.yes.spent, h.no.spent);
    FillsPay(rec.before.events, done);
    var shifted := rec.filled.memory.FvShifted(r.profile, t);
    var merge := if shifted then MergeEvents(r, rec.filled, t.timestamp) else [];
    var sale := if shifted then SaleEvents(rec.decision.plan, rec.merged.Position()) else [];
    AddsNoBuy(filled, merge);
    AddsNoBuy(filled + merge, sale);
  }

  lemma AddsNoBuy(es: seq<Event>, more: seq<Event>)
    requires |more| <= 1 && forall e :: e in more ==> !e.Bought?
    ensures AccountOf(es + more).paid == AccountOf(es).paid
  {
    if more == [] {
      assert es + more == es;
    } else {
      assert more == [more[0]];
      NothingPaid(es, more[0]);
    }
  }

  /** Over a whole period the position has paid exactly for the buys that the simulator filled. */
  lemma {:induction false} TracePays(r: Rules, ticks: seq<TickData>, trace: seq<TickRecord>, end: State)
    requires IsTrace(r, ticks, trace, end)
    ensures end.Booked().paid == FilledNotional(r, trace)
  {
    if trace != [] {
      var n := |trace| - 1;
      TracePays(r, ticks[..n], trace[..n], trace[n].before);
      TickPays(r, ticks[n], trace[n]);
    }
  }

  // ----- the end of a period -----

  datatype PeriodFigures = PeriodFigures(traded: bool, skippedDueToDuration: bool, yesQty: real, noQty: real, pairs: real,
                                     lockedProfit: real, mergePnl: real, mergedPairs: real, sellPnl: real,
                                     specPnl: real, totalPnl: real)

  const IDLE: PeriodFigures := PeriodFigures(false, true, 0.0, 0.0, 0.0, 0.0, 0.0, 0.0, 0.0, 0.0, 0.0)

  predicate ClosingMerge(profile: ReplayProfile, h: Holding) {
    profile.mergeAtClosing && h.Pairs() > 0.0 && 1.0 - h.AvgCombined() >= profile.mergeMinProfitPerPair
  }

  ghost function ClosingEvents(profile: ReplayProfile, h: Holding): seq<Event> {
    if ClosingMerge(profile, h) then [Merged(h.Pairs())] else []
  }

  /** A closing merge that breaks even is not counted. */
  ghost function CountedAtClosing(profile: ReplayProfile, h: Holding): real {
    if ClosingMerge(profile, h) && MergeRealized(h, h.Pairs()) != 0.0 then h.Pairs() else 0.0
  }

  /** The merged pairs that the figures of a period count. */
  ghost function CountedPairs(profile: ReplayProfile, end: State): real {
    end.Booked().pairsMerged + CountedAtClosing(profile, end.Position())
  }

  /** The figures of a period that ends with the holding and the account. */
  function FiguresOf(h: Holding, a: Account, mergedPairs: real, r: Resolution): PeriodFigures {
    PeriodFigures(true, false, h.yes.qty, h.no.qty, h.Pairs(), h.LockedProfit(), a.mergePnl, mergedPairs, a.sellPnl, SpecPnl(h, r),
                  TotalPnl(h, a, r))
  }

  /** The figures are those of the run, and the profit is its cash account; kept out of sight where it is passed on. */
  ghost predicate FiguresAre(figures: PeriodFigures, run: seq<Event>, mergedPairs: real, r: Resolution, paid: real) {
    forall n: nat {:trigger Look(AboutProfit, n)} :: Look(AboutProfit, n) ==>
      && figures == FiguresOf(Fold(run), AccountOf(run), mergedPairs, r)
      && figures.totalPnl == AccountOf(run).proceeds + AccountOf(run).pairsMerged + SettlementValue(Fold(run), r) - paid
  }

  lemma FiguresFollow(figures: PeriodFigures, run: seq<Event>, h: Holding, a: Account, mergedPairs: real, r: Resolution, paid: real)
    requires Records(run, h, a) && figures == FiguresOf(h, a, mergedPairs, r) && AccountOf(run).paid == paid
    ensures WellFormed(run) && FiguresAre(figures, run, mergedPairs, r, paid)
  {
    RecordedRun(run, h, a);
    ProfitIsCash(run, r);
  }

  function ResolutionOf(result: string): Resolution {
    if result == "UP" then Up else if result == "DOWN" then Down else Unresolved
  }

}
