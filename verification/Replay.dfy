/**
 The replay of one market period: tick by tick it takes fills, merges
 pairs, re-quotes both sides under a budget, sells off excess shares, completes
 pairs late in the period, and finally settles what is left.
 */
module Replays {
  import opened Common
  import opened Decimals
  import opened Holdings
  import opened PositionLedger
  import opened MapSum
  import opened PaperSim
  import opened Profile
  import opened Ladders
  import opened ExitPlans
  import opened Budget
  import opened Quoting
  import opened Periods

  const MIN_ROWS: nat := 20

  function DetectDurationMins(firstRemaining: real): nat {
    if firstRemaining > 1800.0 then 60 else if firstRemaining > 500.0 then 15 else 5
  }

  function RulesFor(profile: ReplayProfile, firstRemaining: real): Rules {
    var mins := DetectDurationMins(firstRemaining);
    Rules(profile, profile.LadderLevelsForDuration(mins), profile.ActivationLimitForDuration(mins), Max(firstRemaining, 1.0))
  }

  class Replay {
    const rules: Rules
    const sim: PaperSimulator
    const position: Position

    var totals: Totals
    var memory: Memory

    /** Notional of the resting buys. */
    ghost var resting: real

    /** The state a trace records. */
    ghost function Now(): State
      reads this, sim, position
    {
      State(position.events, sim.orders, sim.nextId, sim.lastFv, sim.tickCounter, memory)
    }

    ghost predicate Valid()
      reads this, sim, position
    {
      && sim.Valid() && position.Valid()
      && Sound(rules.profile, position.account, sim.orders, resting, totals)
      && PaidIsFilled(sim.issued, sim.filled, position.account.paid)
    }

    /** The invariant in plain terms: after every step, buys filled net of merged cost plus buys resting fit the cap. */
    lemma CapHolds()
      requires Valid()
      ensures WithinCap(rules.profile, Now())
      ensures position.account.paid == Sum(OrdersOf(sim.issued, sim.filled), BuyNotional())
    {
      assert Look(AboutResting, 0) && Look(AboutPayments, 0);
      RecordedRun(position.events, position.View(), position.account);
    }

    constructor (rules: Rules)
      ensures Valid() && fresh(sim) && fresh(position)
      ensures this.rules == rules && Now() == START
    {
      this.rules := rules;
      sim := new PaperSimulator();
      position := new Position();
      totals := Totals(0.0, 0.0, 0.0, 0.0, 0.0);
      memory := FORGOTTEN;
      resting := 0.0;
    }

    // ----- fills -----

    method ApplyOneFill(fill: PaperFill, now: int)
      requires position.Valid() && totals.Match(position.account)
      requires 0.0 <= fill.order.price == fill.fillPrice && MIN_ORDER_SHARES <= fill.order.size && fill.order.market == MARKET
      modifies `totals, `memory, position
      ensures position.Valid() && totals.Match(position.account)
      ensures position.events == old(position.events) + [EventOf(fill.order)]
      ensures memory == if fill.order.side == Sell then old(memory).SoldAt(fill.order.outcome, now) else old(memory)
      ensures var a, b := old(position.account), position.account;
        b.paid == a.paid + BuyNotional()(fill.order) && b.costMerged == a.costMerged && b.pairsMerged == a.pairsMerged
    {
      FillCredit(position.account, position.View(), fill.order);
      var realized := position.ApplyFill(fill.order.side, fill.order.outcome, fill.fillPrice, fill.order.size);
      if fill.order.side == Buy {
        totals := totals.(grossBuyFilled := totals.grossBuyFilled + fill.fillPrice * fill.order.size);
      } else {
        totals := totals.(sellPnl := totals.sellPnl + realized);
        memory := memory.SoldAt(fill.order.outcome, now);
      }
    }

    method ApplyFills(fills: seq<PaperFill>, now: int, ghost done: seq<PaperOrder>)
      requires position.Valid() && totals.Match(position.account)
      requires fills == FillsOf(done, now) && SoundFills(done)
      modifies `totals, `memory, position
      ensures position.Valid() && totals.Match(position.account)
      ensures position.events == old(position.events) + FillEvents(done)
      ensures memory == SellsNoted(old(memory), done, now)
      ensures var a, b := old(position.account), position.account;
        b.paid == a.paid + SeqSum(done, BuyNotional()) && b.costMerged == a.costMerged && b.pairsMerged == a.pairsMerged
    {
      ghost var a := position.account;
      var i := 0;
      while i < |fills|
        invariant 0 <= i <= |fills|
        invariant position.Valid() && totals.Match(position.account)
        invariant position.events == old(position.events) + FillEvents(done[..i])
        invariant memory == SellsNoted(old(memory), done[..i], now)
        invariant position.account.paid == a.paid + SeqSum(done[..i], BuyNotional())
        invariant position.account.costMerged == a.costMerged && position.account.pairsMerged == a.pairsMerged
      {
        FillEventsGrow(done, i);
        SellsNotedGrow(old(memory), done, i, now);
        assert done[i] in done;
        ApplyOneFill(fills[i], now);
        i := i + 1;
      }
      assert done[..i] == done;
    }

    /**
     Let the simulator fill and reject, and book the fills. `cands` is the order in which the tick offered the
     orders that qualify; what is booked is exactly what the imbalance guard lets through.
     */
    method FillOrders(tick: TickData) returns (ghost cands: seq<PaperOrder>, ghost refused: seq<PaperOrder>)
      requires Valid()
      modifies `totals, `memory, `resting, position, sim
      ensures Valid()
      ensures Offered(old(Now()).Row(tick), old(sim.orders), cands, refused)
      ensures var done := Execute(cands, Some(rules.profile.maxShareImbalance), old(position.totalYesSpent), old(position.totalNoSpent)).fills;
        && position.events == old(position.events) + FillEvents(done)
        && memory == SellsNoted(old(memory), done, tick.timestamp)
        && sim.orders == old(sim.orders) - (Ids(done) + Ids(refused))
        && sim.nextId == old(sim.nextId)
        && sim.lastFv == old(sim.lastFv)[MARKET := tick.Fv()] && sim.tickCounter == old(sim.tickCounter) + 1
        && sim.filled == old(sim.filled) + Ids(done) && sim.rejected == old(sim.rejected) + Ids(refused)
        && (Abs(old(position.totalYesSpent) - old(position.totalNoSpent)) <= rules.profile.maxShareImbalance
            && (forall o :: o in done ==> o.side == Buy)
            ==> Abs(position.totalYesSpent - position.totalNoSpent) <= rules.profile.maxShareImbalance)
    {
      ghost var es, h, filled := position.events, position.View(), sim.filled;
      ghost var a, orders, books := position.account, sim.orders, totals;
      ghost var yesCost, noCost := position.totalYesSpent, position.totalNoSpent;
      ghost var row := Now().Row(tick);
      var fills, rejections;
      fills, rejections, cands := sim.CheckFillsAt(MARKET, tick.Book(), tick.Fv(), Some(rules.profile.maxShareImbalance),
                                                   position.totalYesSpent, position.totalNoSpent, tick.timestamp);
      refused := rejections;
      ghost var done := Execute(cands, Some(rules.profile.maxShareImbalance), yesCost, noCost).fills;
      TickSelects(row, orders, cands, rejections, Some(rules.profile.maxShareImbalance), yesCost, noCost);
      ApplyFills(fills, tick.timestamp, done);
      resting := FillSound(rules.profile, a, orders, resting, books, done, rejections, position.account, totals);
      FillsArePaid(sim.issued, filled, a.paid, orders, done, sim.filled, position.account.paid);
      FillsKeepImbalance(es, h, a, cands, rules.profile.maxShareImbalance, position.events, position.View(), position.account);
    }

    /** The first phase of a tick: fills, and a look at the excess they leave. */
    method TakeFills(tick: TickData) returns (ghost cands: seq<PaperOrder>, ghost refused: seq<PaperOrder>)
      requires Valid()
      modifies `totals, `memory, `resting, position, sim
      ensures Valid()
      ensures Offered(old(Now()).Row(tick), old(sim.orders), cands, refused)
      ensures FillsTo(rules, old(Now()), tick, cands, refused, Now())
      ensures sim.orders.Keys <= old(sim.orders).Keys
    {
      ghost var s := Now();
      RecordedRun(position.events, position.View(), position.account);
      cands, refused := FillOrders(tick);
      memory := ExcessWatched(rules.profile, memory, position.View(), tick.timestamp);
      RecordedRun(position.events, position.View(), position.account);
      FilledState(rules, s, tick, cands, refused, FilledOf(rules, s, cands), Now());
    }

    // ----- cancelling -----

    /** Cancel the resting orders that `pick` selects, and no others. */
    method CancelWhere(pick: PaperOrder -> bool)
      requires Valid()
      modifies `resting, sim`orders, sim`cancelled
      ensures Valid()
      ensures sim.orders == Without(old(sim.orders), pick)
      ensures sim.lastFv == old(sim.lastFv) && sim.tickCounter == old(sim.tickCounter)
    {
      var found := sim.OrdersForMarket(MARKET);
      WithoutPicked(sim.orders, found, pick);
      resting := CancelSound(rules.profile, position.account, sim.orders, resting, totals, FilterOrders(found, pick));
      sim.CancelEach(FilterOrders(found, pick));
    }

    // ----- merging -----

    method BookMerge(pairs: real)
      requires Valid()
      requires 0.0 <= pairs <= position.View().Pairs()
      requires rules.profile.mergeMinProfitPerPair <= 1.0 - position.View().AvgCombined()
      modifies `totals, position
      ensures Valid()
      ensures position.events == old(position.events) + [Merged(pairs)]
    {
      ghost var a, books, h := position.account, totals, position.View();
      MergePays(h, pairs, rules.profile.mergeMinProfitPerPair);
      var released := pairs * position.View().AvgCombined();
      var realized := position.RecordMerge(pairs);
      totals := totals.(mergePnl := totals.mergePnl + realized, costReleased := totals.costReleased + released,
                        mergedPairs := totals.mergedPairs + pairs);
      MergeCredit(a, h, pairs);
      MergeSound(rules.profile, a, sim.orders, resting, books, pairs, released, position.account, totals);
    }

    /** Merge when it is enabled, due, large enough and profitable enough; resting sells go first. */
    method ContinuousMerge(now: int)
      requires Valid()
      modifies `totals, `memory, `resting, position, sim`orders, sim`cancelled
      ensures Valid()
      ensures var amount := MergeAmount(rules.profile, old(position.View()), Due(old(memory).lastMergeTime, now, rules.profile.mergeIntervalSecs));
        if amount > 0.0
        then && position.events == old(position.events) + [Merged(amount)]
             && sim.orders == Without(old(sim.orders), OnSide(Sell))
             && memory == old(memory).(lastMergeTime := Some(now),
                                       exitBuyBlock := if Abs(position.View().Excess()) < rules.profile.exitSoftExcess then None
                                                       else old(memory).exitBuyBlock)
        else && position.events == old(position.events)
             && sim.orders == old(sim.orders)
             && memory == old(memory)
    {
      var due := Due(memory.lastMergeTime, now, rules.profile.mergeIntervalSecs);
      var amount := MergeAmount(rules.profile, position.View(), due);
      if amount > 0.0 {
        CancelWhere(OnSide(Sell));
        BookMerge(amount);
        memory := memory.(lastMergeTime := Some(now));
        if memory.exitBuyBlock.Some? && Abs(position.View().Excess()) < rules.profile.exitSoftExcess {
          memory := memory.(exitBuyBlock := None);
        }
      }
    }

    /** The second phase of a tick. */
    method MergePairs(now: int)
      requires Valid()
      modifies `totals, `memory, `resting, position, sim`orders, sim`cancelled
      ensures Valid()
      ensures MergesTo(rules, old(Now()), now, Now())
      ensures memory.lastFv == old(memory).lastFv
    {
      RecordedRun(position.events, position.View(), position.account);
      ContinuousMerge(now);
      RecordedRun(position.events, position.View(), position.account);
    }

    // ----- placing -----

    /** Money committed to buys: filled net of merged cost, plus resting. */
    method Committed() returns (usdc: real)
      requires Valid()
      ensures usdc == totals.NetBuys() + resting == CommittedOf(position.account, sim.orders)
    {
      var open := SumResting();
      assert Look(AboutResting, 0);
      usdc := Max(totals.grossBuyFilled - totals.costReleased, 0.0) + open;
    }

    method SumResting() returns (usdc: real)
      ensures usdc == Sum(sim.orders, BuyNotional())
    {
      var rest := sim.orders;
      usdc := 0.0;
      while rest != map[]
        invariant usdc + Sum(rest, BuyNotional()) == Sum(sim.orders, BuyNotional())
        decreases rest.Keys
      {
        var id :| id in rest;
        SumRemove(rest, BuyNotional(), id);
        usdc := usdc + BuyNotional()(rest[id]);
        rest := rest - {id};
      }
    }

    /** Place one buy that the cap of the period still has room for. */
    method PlaceBuy(level: LadderLevel, ghost cost: real, now: int)
      requires Valid()
      requires 0.0 <= level.price && MIN_ORDER_SHARES <= level.size && cost == level.Notional()
      requires totals.NetBuys() + resting + cost <= LossCap(rules.profile)
      modifies `resting, sim`orders, sim`nextId, sim`issued
      ensures Valid()
      ensures OrderIdOf(old(sim.nextId)) !in old(sim.orders) && sim.nextId == old(sim.nextId) + 1
      ensures sim.orders == old(sim.orders)[OrderIdOf(old(sim.nextId)) := OrderOf(old(sim.nextId), Buy, level, now)]
      ensures resting == old(resting) + cost
    {
      ghost var orders, issued, order := sim.orders, sim.issued, OrderOf(sim.nextId, Buy, level, now);
      var id := sim.PlaceBuyAt(MARKET, level.outcome, level.price, level.size, now);
      PlaceSound(rules.profile, position.account, orders, resting, totals, order, cost);
      PlacingPaysNothing(issued, sim.filled, position.account.paid, order);
      resting := resting + cost;
    }

    method PlaceSell(level: LadderLevel, now: int)
      requires Valid()
      requires 0.0 <= level.price && MIN_ORDER_SHARES <= level.size
      modifies `resting, sim`orders, sim`nextId, sim`issued
      ensures Valid()
      ensures OrderIdOf(old(sim.nextId)) !in old(sim.orders) && sim.nextId == old(sim.nextId) + 1
      ensures sim.orders == old(sim.orders)[OrderIdOf(old(sim.nextId)) := OrderOf(old(sim.nextId), Sell, level, now)]
    {
      ghost var orders, issued, order := sim.orders, sim.issued, OrderOf(sim.nextId, Sell, level, now);
      var id := sim.PlaceSellAt(MARKET, level.outcome, level.price, level.size, now);
      PlaceSound(rules.profile, position.account, orders, resting, totals, order, 0.0);
      PlacingPaysNothing(issued, sim.filled, position.account.paid, order);
    }

    /** What placing bids has done so far, starting from the orders, the next id and the memory given. */
    ghost predicate BidsPlaced(orders: map<OrderId, PaperOrder>, nextId: nat, m: Memory, bids: Ladder, placed: Ladder, now: int)
      reads this, sim
    {
      && PlacesAll(orders, nextId, Buy, placed, now, sim.orders, sim.nextId)
      && sim.nextId >= nextId && memory == FirstOrderNoted(m, sim.nextId > nextId, now)
      && Extends(sim.orders, orders, Bids(bids))
    }

    /** Place bids in turn until the budget of the tick is used up: exactly the allocation of the budget is placed. */
    method PlaceBuys(bids: Ladder, cap: real, now: int) returns (ghost committed: real, ghost placed: Ladder)
      requires Valid()
      requires cap <= LossCap(rules.profile)
      requires forall q :: q in bids ==> 0.0 <= q.price
      modifies `memory, `resting, sim`orders, sim`nextId, sim`issued
      ensures Valid()
      ensures committed == CommittedOf(position.account, old(sim.orders))
      ensures AllocatedAs(bids, cap, committed, rules.profile.singleOrderNotionalCapUsdc, placed)
      ensures BidsPlaced(old(sim.orders), old(sim.nextId), old(memory), bids, placed, now)
      ensures sim.orders == old(sim.orders) || totals.NetBuys() + resting <= cap
    {
      var before := Committed();
      committed := before;
      ghost var sizes := TheSizes(rules.profile.singleOrderNotionalCapUsdc);
      AllocatedBy(bids, cap, before, rules.profile.singleOrderNotionalCapUsdc, sizes);
      placed := PlaceEach(bids, cap, before, now, sizes);
    }

    method PlaceEach(bids: Ladder, cap: real, before: real, now: int, ghost sizes: (LadderLevel, real) -> real) returns (ghost placed: Ladder)
      requires Valid()
      requires cap <= LossCap(rules.profile) && before == totals.NetBuys() + resting
      requires forall q :: q in bids ==> 0.0 <= q.price
      requires SizesAre(rules.profile.singleOrderNotionalCapUsdc, sizes)
      modifies `memory, `resting, sim`orders, sim`nextId, sim`issued
      ensures Valid()
      ensures placed == Allocation(bids, cap, before, sizes)
      ensures BidsPlaced(old(sim.orders), old(sim.nextId), old(memory), bids, placed, now)
      ensures sim.orders == old(sim.orders) || totals.NetBuys() + resting <= cap
    {
      var committed := before;
      ghost var orders, nextId, m := sim.orders, sim.nextId, memory;
      ghost var all := Allocation(bids, cap, committed, sizes);
      placed := [];
      PlacesNone(orders, nextId, Buy, now);
      assert bids[0..] == bids;
      var i := 0;
      while i < |bids| && committed < cap
        invariant 0 <= i <= |bids|
        invariant Valid()
        invariant committed == totals.NetBuys() + resting
        invariant placed + Allocation(bids[i..], cap, committed, sizes) == all
        invariant BidsPlaced(orders, nextId, m, bids, placed, now)
        invariant sim.orders == orders || committed <= cap
      {
        committed, placed := PlaceBid(bids, i, cap, committed, now, orders, nextId, m, placed, sizes);
        i := i + 1;
      }
      AllocationEnds(bids, i, cap, committed, sizes, placed, all);
    }

    /** One step of placing bids: as many shares of the bid as the budget leaves, if that is enough for an order. */
    method PlaceBid(bids: Ladder, i: nat, cap: real, committed: real, now: int, ghost orders: map<OrderId, PaperOrder>,
                    ghost nextId: nat, ghost m: Memory, ghost placed: Ladder, ghost sizes: (LadderLevel, real) -> real)
      returns (committed': real, ghost placed': Ladder)
      requires Valid()
      requires committed == totals.NetBuys() + resting < cap <= LossCap(rules.profile)
      requires i < |bids| && 0.0 <= bids[i].price
      requires SizesAre(rules.profile.singleOrderNotionalCapUsdc, sizes)
      requires BidsPlaced(orders, nextId, m, bids, placed, now)
      modifies `memory, `resting, sim`orders, sim`nextId, sim`issued
      ensures Valid()
      ensures committed' == totals.NetBuys() + resting <= cap
      ensures placed' + Allocation(bids[i + 1..], cap, committed', sizes) == placed + Allocation(bids[i..], cap, committed, sizes)
      ensures BidsPlaced(orders, nextId, m, bids, placed', now)
    {
      committed', placed' := committed, placed;
      var taken := SizeForBudget(bids[i], cap - committed, rules.profile.singleOrderNotionalCapUsdc, sizes);
      AllocationNext(bids, i, cap, committed, placed, taken, sizes);
      if taken.size >= MIN_ORDER_SHARES {
        PlaceTaken(bids, bids[i], taken, now, orders, nextId, m, placed);
        committed', placed' := committed + taken.Notional(), placed + [taken];
      }
    }

    method PlaceTaken(ghost bids: Ladder, ghost bid: LadderLevel, taken: LadderLevel, now: int, ghost orders: map<OrderId, PaperOrder>,
                      ghost nextId: nat, ghost m: Memory, ghost placed: Ladder)
      requires Valid()
      requires totals.NetBuys() + resting + taken.Notional() <= LossCap(rules.profile)
      requires bid in bids && taken == bid.(size := taken.size) && 0.0 <= bid.price && MIN_ORDER_SHARES <= taken.size <= bid.size
      requires BidsPlaced(orders, nextId, m, bids, placed, now)
      modifies `memory, `resting, sim`orders, sim`nextId, sim`issued
      ensures Valid()
      ensures resting == old(resting) + taken.Notional()
      ensures BidsPlaced(orders, nextId, m, bids, placed + [taken], now)
    {
      PlacesMore(orders, nextId, Buy, placed, taken, now, sim.orders, sim.nextId);
      BuyExtends(sim.orders, orders, bids, bid, sim.nextId, taken.size, now);
      PlaceBuy(taken, taken.Notional(), now);
      memory := FirstOrderNoted(memory, true, now);
    }

    /** What placing sells has done so far. */
    ghost predicate SellsPlaced(orders: map<OrderId, PaperOrder>, nextId: nat, m: Memory, levels: Ladder,
                                existing: set<(Outcome, real)>, placed: Ladder, now: int)
      reads this, sim
    {
      && PlacesAll(orders, nextId, Sell, placed, now, sim.orders, sim.nextId)
      && sim.nextId >= nextId && memory == FirstOrderNoted(m, sim.nextId > nextId, now)
      && Extends(sim.orders, orders, Offers(levels, existing))
    }

    /** Offer the levels of an exit plan that are not resting already: afterwards every level of the plan rests. */
    method PlaceSells(levels: Ladder, existing: set<(Outcome, real)>, now: int) returns (ghost placed: Ladder)
      requires Valid()
      requires forall q :: q in levels ==> 0.0 <= q.price && MIN_ORDER_SHARES <= q.size
      requires existing <= SellKeys(sim.orders)
      modifies `memory, `resting, sim`orders, sim`nextId, sim`issued
      ensures Valid()
      ensures placed == Unrested(levels, existing)
      ensures SellsPlaced(old(sim.orders), old(sim.nextId), old(memory), levels, existing, placed, now)
      ensures PriceKeys(levels) <= SellKeys(sim.orders)
    {
      ghost var orders, nextId, m := sim.orders, sim.nextId, memory;
      ghost var all := Unrested(levels, existing);
      placed := [];
      PlacesNone(orders, nextId, Sell, now);
      assert levels[0..] == levels && levels[..0] == [];
      var i := 0;
      while i < |levels|
        invariant 0 <= i <= |levels|
        invariant Valid()
        invariant placed + Unrested(levels[i..], existing) == all
        invariant SellsPlaced(orders, nextId, m, levels, existing, placed, now)
        invariant KeysRest(existing, levels, i, sim.orders)
      {
        placed := PlaceLevel(levels, i, existing, now, orders, nextId, m, placed);
        i := i + 1;
      }
      UnrestedEnds(levels, existing, placed, all);
      AllKeysRest(existing, levels, sim.orders);
    }

    method PlaceLevel(levels: Ladder, i: nat, existing: set<(Outcome, real)>, now: int,
                      ghost orders: map<OrderId, PaperOrder>, ghost nextId: nat, ghost m: Memory, ghost placed: Ladder)
      returns (ghost placed': Ladder)
      requires Valid()
      requires i < |levels| && 0.0 <= levels[i].price && MIN_ORDER_SHARES <= levels[i].size
      requires KeysRest(existing, levels, i, sim.orders)
      requires SellsPlaced(orders, nextId, m, levels, existing, placed, now)
      modifies `memory, `resting, sim`orders, sim`nextId, sim`issued
      ensures Valid()
      ensures placed' + Unrested(levels[i + 1..], existing) == placed + Unrested(levels[i..], existing)
      ensures SellsPlaced(orders, nextId, m, levels, existing, placed', now)
      ensures KeysRest(existing, levels, i + 1, sim.orders)
    {
      placed' := placed;
      ghost var before := sim.orders;
      UnrestedNext(levels, i, existing, placed);
      if (levels[i].outcome, levels[i].price) !in existing {
        PlaceMissing(levels, existing, levels[i], now, orders, nextId, m, placed);
        placed' := placed + [levels[i]];
      }
      KeysRestNext(existing, levels, i, before, sim.orders);
    }

    method PlaceMissing(ghost levels: Ladder, ghost existing: set<(Outcome, real)>, level: LadderLevel, now: int,
                        ghost orders: map<OrderId, PaperOrder>, ghost nextId: nat, ghost m: Memory, ghost placed: Ladder)
      requires Valid()
      requires 0.0 <= level.price && MIN_ORDER_SHARES <= level.size
      requires level in levels && (level.outcome, level.price) !in existing
      requires SellsPlaced(orders, nextId, m, levels, existing, placed, now)
      modifies `memory, `resting, sim`orders, sim`nextId, sim`issued
      ensures Valid()
      ensures SellsPlaced(orders, nextId, m, levels, existing, placed + [level], now)
      ensures old(SellKeys(sim.orders)) + {(level.outcome, level.price)} <= SellKeys(sim.orders)
    {
      PlacesMore(orders, nextId, Sell, placed, level, now, sim.orders, sim.nextId);
      SellExtends(sim.orders, orders, levels, existing, level, sim.nextId, now);
      sim.NextIdIsFresh();
      SellAddsKey(sim.orders, OrderOf(sim.nextId, Sell, level, now));
      PlaceSell(level, now);
      memory := FirstOrderNoted(memory, true, now);
    }

    /** Sell at the bid at once; never more than is held. */
    method TakerExit(plan: ExitPlan, now: int) returns (ghost sale: seq<Event>)
      requires Valid()
      modifies `totals, `memory, position
      ensures Valid()
      ensures SaleIs(plan, old(position.View()), sale) && position.events == old(position.events) + sale
      ensures memory == SaleNoted(old(memory), sale, now)
    {
      sale := SaleEvents(plan, position.View());
      assert position.events + [] == position.events;
      if plan.Taker? {
        var q := QuantizeSize(Min(plan.size, position.View().Side(plan.heavy).qty));
        if q >= MIN_ORDER_SHARES && plan.price > 0.0 {
          ghost var a, h := position.account, position.View();
          var realized := position.ApplyFill(Sell, plan.heavy, plan.price, q);
          totals := totals.(sellPnl := totals.sellPnl + realized);
          memory := memory.SoldAt(plan.heavy, now);
          SellCredit(a, h, plan.heavy, plan.price, q);
        }
      }
    }

    // ----- re-quoting -----

    /** Cancel the sells the plan does not ask for, place the bids the budget allows, then the sells that are missing. */
    method Place(tick: TickData, cap: real, d: Decision) returns (ghost p: Placing)
      requires Valid()
      requires cap <= LossCap(rules.profile)
      requires forall q :: q in d.yes || q in d.no ==> 0.0 <= q.price
      requires forall q :: q in Levels(d.plan) ==> 0.0 <= q.price && MIN_ORDER_SHARES <= q.size
      requires forall id :: id in sim.orders ==> sim.orders[id].side == Sell
      modifies `memory, `resting, sim`orders, sim`nextId, sim`issued, sim`cancelled
      ensures Valid()
      ensures PlacingIs(old(sim.orders), position.account, cap, d, rules.profile.singleOrderNotionalCapUsdc, p)
      ensures PlacesBoth(p, old(sim.nextId), tick.timestamp, sim.orders, sim.nextId)
      ensures memory == FirstOrderNoted(old(memory), sim.nextId > old(sim.nextId), tick.timestamp)
      ensures RestsAt(sim.orders, d.yes + d.no, Levels(d.plan))
    {
      ghost var nextId := sim.nextId;
      CancelWhere(StaleSell(Levels(d.plan), d.plan.Taker?));
      ghost var kept := sim.orders;
      var existing := SellKeys(sim.orders);
      var mixed := InterleaveLadders(d.yes, d.no);
      InterleavedFrom(d.yes, d.no);
      ghost var orders := old(sim.orders);
      ghost var committed, bids := PlaceBuys(mixed, cap, tick.timestamp);
      ghost var bought, id1 := sim.orders, sim.nextId;
      KeysKept(bought, kept, Bids(mixed));
      ghost var offers := PlaceSells(Levels(d.plan), existing, tick.timestamp);
      p := Placing(kept, bids, offers);
      PlacingFollows(orders, position.account, cap, d, rules.profile.singleOrderNotionalCapUsdc, kept, committed, bids, offers);
      BothPlaced(p, nextId, tick.timestamp, bought, id1, sim.orders, sim.nextId);
      PlacedOrders(kept, bought, sim.orders, mixed, d.yes, d.no, Levels(d.plan), d.plan.Taker?);
    }

    /** The decision of the tick, and what may be committed to buys. */
    method DecideAll(tick: TickData) returns (d: Decision, cap: real)
      requires BidsAreFree(rules.profile, tick)
      ensures DecidedAs(rules, position.View(), memory, tick, d) && SafeDecision(rules.profile, position.View(), tick, d)
      ensures CapIs(rules, position.View(), tick, cap) && cap <= LossCap(rules.profile)
      ensures forall q :: q in d.yes || q in d.no ==> 0.0 <= q.price
      ensures forall q :: q in Levels(d.plan) ==> 0.0 <= q.price && MIN_ORDER_SHARES <= q.size
    {
      d := Decide(rules, position.View(), memory, tick);
      NoNegativePrices(rules.profile, position.View(), tick, d);
      cap := CapOf(rules, position.View(), tick);
    }

    /** The third phase of a tick: drop all bids, and quote, exit and place anew. */
    method Requote(tick: TickData) returns (ghost d: Decision)
      requires Valid() && BidsAreFree(rules.profile, tick)
      modifies `totals, `memory, `resting, position, sim`orders, sim`nextId, sim`issued, sim`cancelled
      ensures Valid()
      ensures QuotesTo(rules, old(Now()), tick, d, Now())
      ensures SafeDecision(rules.profile, old(position.View()), tick, d)
      ensures RestsAt(sim.orders, d.yes + d.no, Levels(d.plan))
    {
      ghost var s, h, a := Now(), position.View(), position.account;
      RecordedRun(position.events, h, a);
      CancelWhere(OnSide(Buy));
      var decision, cap := DecideAll(tick);
      d := decision;
      ghost var p, sale := CarryOut(tick, cap, decision);
      QuotedState(rules, s, h, a, tick, d, cap, p, sale, Now());
    }

    method CarryOut(tick: TickData, cap: real, d: Decision) returns (ghost p: Placing, ghost sale: seq<Event>)
      requires Valid()
      requires cap <= LossCap(rules.profile)
      requires forall q :: q in d.yes || q in d.no ==> 0.0 <= q.price
      requires forall q :: q in Levels(d.plan) ==> 0.0 <= q.price && MIN_ORDER_SHARES <= q.size
      requires forall id :: id in sim.orders ==> sim.orders[id].side == Sell
      modifies `totals, `memory, `resting, position, sim`orders, sim`nextId, sim`issued, sim`cancelled
      ensures Valid()
      ensures PlacingIs(old(sim.orders), old(position.account), cap, d, rules.profile.singleOrderNotionalCapUsdc, p)
      ensures PlacesBoth(p, old(sim.nextId), tick.timestamp, sim.orders, sim.nextId)
      ensures RestsAt(sim.orders, d.yes + d.no, Levels(d.plan))
      ensures SaleIs(d.plan, old(position.View()), sale) && position.events == old(position.events) + sale
      ensures sim.lastFv == old(sim.lastFv) && sim.tickCounter == old(sim.tickCounter)
      ensures var m := FirstOrderNoted(old(memory).(exitBuyBlock := d.exitBuyBlock), sim.nextId > old(sim.nextId), tick.timestamp);
        memory == SaleNoted(m, sale, tick.timestamp).(lastFv := Some(tick.Fv()))
    {
      memory := memory.(exitBuyBlock := d.exitBuyBlock);
      p := Place(tick, cap, d);
      sale := TakerExit(d.plan, tick.timestamp);
      memory := memory.(lastFv := Some(tick.Fv()));
    }

    // ----- completing pairs -----

    /** Shares of resting buys of one outcome; never negative. */
    method OnTheWay(outcome: Outcome) returns (shares: real)
      requires Valid()
      ensures 0.0 <= shares == Sum(sim.orders, BuySharesOf(MARKET, outcome))
    {
      shares := sim.RestingBuyShares(MARKET, outcome);
      BuySharesNonNegative(sim.orders, outcome);
    }

    /** The completing buy that is wanted and that budget and caps allow. */
    method SizeCompletion(tick: TickData) returns (level: Option<LadderLevel>)
      requires Valid()
      ensures CompletionIs(rules, position.View(), position.account, sim.orders, tick, level)
      ensures level.Some? ==>
                && Completes(level.value, position.View(), tick.Book()) && 0.0 < level.value.price
                && totals.NetBuys() + resting + level.value.Notional() <= LossCap(rules.profile)
    {
      level := None;
      var wanted := Wanted(rules, position.View(), tick);
      if wanted.None? {
        NoCompletion(rules, position.View(), position.account, sim.orders, tick);
      } else {
        var onTheWay := OnTheWay(wanted.value.outcome);
        var cap := CapOf(rules, position.View(), tick);
        var committed := Committed();
        var size := SizeForCompletion(rules.profile, wanted.value, onTheWay, Max(cap - committed, 0.0));
        SizedCompletion(rules, position.View(), position.account, sim.orders, tick, wanted.value, cap, committed, size);
        if size >= MIN_ORDER_SHARES {
          level := Some(wanted.value.(size := size));
          NotionalPositive(level.value);
        }
      }
    }

    /** The last phase of a tick: late in the period, buy the missing side of the excess at its ask, a few times at most. */
    method TryPairCompletion(tick: TickData)
      requires Valid()
      modifies `memory, `resting, sim`orders, sim`nextId, sim`issued
      ensures Valid()
      ensures CompletesTo(rules, old(Now()), tick, Now())
      ensures OneCompletion(old(sim.orders), sim.orders, position.View(), tick.Book())
    {
      ghost var s := Now();
      RecordedRun(position.events, position.View(), position.account);
      memory := Forgiven(memory, position.View());
      ghost var level := None;
      var may := CompletionAllowed(rules, memory, tick);
      if may {
        level := BuyMissing(tick);
      }
      CompletedState(rules, s, tick, may, level, Now());
    }

    method BuyMissing(tick: TickData) returns (ghost level: Option<LadderLevel>)
      requires Valid()
      modifies `memory, `resting, sim`orders, sim`nextId, sim`issued
      ensures Valid()
      ensures CompletionIs(rules, position.View(), position.account, old(sim.orders), tick, level)
      ensures level.None? ==> Now() == old(Now())
      ensures level.Some? ==>
                && sim.orders == old(sim.orders)[OrderIdOf(old(sim.nextId)) := OrderOf(old(sim.nextId), Buy, level.value, tick.timestamp)]
                && sim.nextId == old(sim.nextId) + 1
                && memory == old(memory).(pairCompletionAttempts := old(memory).pairCompletionAttempts + 1,
                                          lastPairCompletionAt := Some(tick.timestamp))
      ensures OneCompletion(old(sim.orders), sim.orders, position.View(), tick.Book())
    {
      var wanted := SizeCompletion(tick);
      level := wanted;
      if wanted.Some? {
        BuyCompletion(wanted.value, tick.timestamp, tick.Book());
      }
    }

    method BuyCompletion(level: LadderLevel, now: int, ghost book: PaperSim.Book)
      requires Valid()
      requires Completes(level, position.View(), book) && 0.0 <= level.price
      requires totals.NetBuys() + resting + level.Notional() <= LossCap(rules.profile)
      modifies `memory, `resting, sim`orders, sim`nextId, sim`issued
      ensures Valid()
      ensures sim.orders == old(sim.orders)[OrderIdOf(old(sim.nextId)) := OrderOf(old(sim.nextId), Buy, level, now)]
      ensures sim.nextId == old(sim.nextId) + 1
      ensures memory == old(memory).(pairCompletionAttempts := old(memory).pairCompletionAttempts + 1, lastPairCompletionAt := Some(now))
      ensures OneCompletion(old(sim.orders), sim.orders, position.View(), book)
    {
      ghost var o := OrderOf(sim.nextId, Buy, level, now);
      assert CompletesPair(o, position.View(), book);
      PlaceBuy(level, level.Notional(), now);
      memory := memory.(pairCompletionAttempts := memory.pairCompletionAttempts + 1, lastPairCompletionAt := Some(now));
      assert sim.orders == old(sim.orders)[o.orderId := o];
    }

    // ----- one tick -----

    /**
     One row of market data: fills first, then merging and re-quoting if fair value moved, then pair completion.
     The record is that of the tick, and what it promises holds.
     */
    method Step(tick: TickData) returns (ghost rec: TickRecord)
      requires Valid() && BidsAreFree(rules.profile, tick)
      modifies this, sim, position
      ensures Valid()
      ensures rec.before == old(Now()) && rec.after == Now()
      ensures IsTick(rules, tick, rec) && SafeTick(rules, tick, rec)
    {
      ghost var before := Now();
      ghost var cands, refused := TakeFills(tick);
      ghost var filled := Now();
      ghost var merged, d := Now(), NO_DECISION;
      if memory.FvShifted(rules.profile, tick) {
        MergePairs(tick.timestamp);
        merged := Now();
        RecordedRun(position.events, position.View(), position.account);
        d := Requote(tick);
      }
      ghost var quoted := Now();
      TryPairCompletion(tick);
      rec := TickRecord(before, cands, refused, filled, merged, d, quoted, Now());
      CapHolds();
      RecordedRun(position.events, position.View(), position.account);
      TickIsSafe(rules, tick, rec);
    }

    // ----- the end of the period -----

    /** What still holds once the closing merge has been booked. */
    ghost predicate Closed()
      reads this, position
    {
      && position.Valid()
      && totals.sellPnl == position.account.sellPnl && totals.mergePnl == position.account.mergePnl
      && (0.0 <= rules.profile.mergeMinProfitPerPair ==> position.account.costMerged <= position.account.pairsMerged)
      && position.account.paid - position.account.costMerged <= LossCap(rules.profile)
    }

    /**
     Merge all pairs at the end, if that is configured and profitable enough. A closing merge that breaks even
     empties the pairs but is not counted in `mergedPairs`.
     */
    method MergeAtClosing()
      requires Valid()
      modifies `totals, position
      ensures Closed()
      ensures position.events == old(position.events) + ClosingEvents(rules.profile, old(position.View()))
      ensures totals.mergedPairs == old(position.account).pairsMerged + CountedAtClosing(rules.profile, old(position.View()))
    {
      ghost var events := position.events;
      assert events + [] == events;
      var h := position.View();
      if ClosingMerge(rules.profile, h) {
        BookClosingMerge(h.Pairs());
      }
    }

    method BookClosingMerge(pairs: real)
      requires Valid()
      requires 0.0 < pairs == position.View().Pairs()
      requires rules.profile.mergeMinProfitPerPair <= 1.0 - position.View().AvgCombined()
      modifies `totals, position
      ensures Closed()
      ensures position.events == old(position.events) + [Merged(pairs)]
      ensures totals.mergedPairs == old(position.account).pairsMerged + if MergeRealized(old(position.View()), pairs) != 0.0 then pairs else 0.0
    {
      ghost var a, h := position.account, position.View();
      MergePays(h, pairs, rules.profile.mergeMinProfitPerPair);
      var realized := position.RecordMerge(pairs);
      MergeCredit(a, h, pairs);
      if realized != 0.0 {
        totals := totals.(mergePnl := totals.mergePnl + realized, mergedPairs := totals.mergedPairs + pairs);
      }
    }

    /** Settle what is left: pairs are worth a dollar, excess shares a dollar or nothing. */
    method Settle(resolution: Resolution) returns (stats: PeriodFigures)
      requires Closed()
      ensures stats == FiguresOf(position.View(), position.account, totals.mergedPairs, resolution)
      ensures 0.0 <= rules.profile.mergeMinProfitPerPair ==> -LossCap(rules.profile) <= stats.totalPnl
    {
      var h := position.View();
      var locked, spec := h.LockedProfit(), SpecPnl(h, resolution);
      stats := PeriodFigures(true, false, h.yes.qty, h.no.qty, h.Pairs(), locked, totals.mergePnl, totals.mergedPairs,
                             totals.sellPnl, spec, locked + totals.mergePnl + totals.sellPnl + spec);
      RecordedRun(position.events, h, position.account);
      if 0.0 <= rules.profile.mergeMinProfitPerPair {
        LossBound(position.events, resolution, LossCap(rules.profile));
      }
    }

    /** Closing merge and settlement; `paid` is what the recorded run has paid. */
    method Close(resolution: Resolution, ghost run: seq<Event>, ghost counted: real, ghost paid: real) returns (figures: PeriodFigures)
      requires Valid()
      requires run == position.events + ClosingEvents(rules.profile, position.View()) && paid == AccountOf(run).paid
      requires counted == position.account.pairsMerged + CountedAtClosing(rules.profile, position.View())
      modifies `totals, position
      ensures WellFormed(run)
      ensures FiguresAre(figures, run, counted, resolution, paid)
      ensures 0.0 <= rules.profile.mergeMinProfitPerPair ==> -LossCap(rules.profile) <= figures.totalPnl
    {
      MergeAtClosing();
      figures := Settle(resolution);
      FiguresFollow(figures, run, position.View(), position.account, counted, resolution, paid);
    }
  }

  /** A period's outcome is one of three things, all told by the ticks alone. */
  method SimulatePeriod(ticks: seq<TickData>, result: string, profile: ReplayProfile)
    returns (stats: Result<PeriodFigures, string>, ghost trace: seq<TickRecord>)
    requires forall t :: t in ticks ==> BidsAreFree(profile, t)
    ensures stats.Err? <==> |ticks| < MIN_ROWS
    ensures |ticks| >= MIN_ROWS && !profile.AllowsDuration(DetectDurationMins(ticks[0].remainingSecs)) ==> stats == Ok(IDLE)
    ensures |ticks| >= MIN_ROWS && profile.AllowsDuration(DetectDurationMins(ticks[0].remainingSecs)) ==>
              && stats.Ok?
              && IsPeriod(RulesFor(profile, ticks[0].remainingSecs), ticks, ResolutionOf(result), trace, stats.value)
    ensures stats.Ok? && 0.0 <= profile.mergeMinProfitPerPair ==> -LossCap(profile) <= stats.value.totalPnl
    ensures |ticks| >= 20 && !LengthAllowed(profile, ticks[0].remainingSecs) ==> stats == Ok(IDLE)
    ensures |ticks| >= 20 && LengthAllowed(profile, ticks[0].remainingSecs) ==>
              && stats.Ok?
              && PaysOut(stats.value, result, Fold(RunOf(profile, trace)), AccountOf(RunOf(profile, trace)),
                         FilledNotional(RulesFor(profile, ticks[0].remainingSecs), trace))
    ensures stats.Ok? && 0.0 <= profile.mergeMinProfitPerPair ==> LossBounded(profile, stats.value.totalPnl)
  {
    stats, trace := Simulate(ticks, result, profile);
    if |ticks| >= MIN_ROWS && profile.AllowsDuration(DetectDurationMins(ticks[0].remainingSecs)) {
      ResultPays(RulesFor(profile, ticks[0].remainingSecs), ticks, result, trace, stats.value);
    }
  }

  // ----- the outcome of a period in plain figures -----

  /** An hour, a quarter of an hour or five minutes, by the time that is left at the first tick, and configured to be traded. */
  predicate LengthAllowed(profile: ReplayProfile, firstRemaining: real) {
    var mins := if firstRemaining > 1800.0 then 60 else if firstRemaining > 500.0 then 15 else 5;
    profile.allowedDurations == [] || mins in profile.allowedDurations
  }

  /** Money received, a dollar per merged pair and per winning share, less what was paid; without a winner only what is locked in. */
  ghost predicate PaysOut(figures: PeriodFigures, result: string, h: Holding, a: Account, paid: real) {
    && figures.traded && figures.yesQty == h.yes.qty && figures.noQty == h.no.qty
    && (result == "UP" ==> figures.totalPnl == a.proceeds + a.pairsMerged + h.yes.qty - paid)
    && (result == "DOWN" ==> figures.totalPnl == a.proceeds + a.pairsMerged + h.no.qty - paid)
    && (result != "UP" && result != "DOWN" ==> figures.specPnl == 0.0)
    && figures.totalPnl == figures.lockedProfit + figures.mergePnl + figures.sellPnl + figures.specPnl
  }

  /** No more is lost than the cap of the period, or a million without one, and what may be added to restore balance. */
  predicate LossBounded(profile: ReplayProfile, totalPnl: real) {
    var cap := if profile.periodGrossBuyCapUsdc > 0.0 then profile.periodGrossBuyCapUsdc else 1000000.0;
    var extra := if profile.rebalanceBudgetOverride && profile.rebalanceMaxExtraBudget > 0.0 then profile.rebalanceMaxExtraBudget else 0.0;
    totalPnl >= -(cap + extra)
  }

  lemma ResultPays(r: Rules, ticks: seq<TickData>, result: string, trace: seq<TickRecord>, figures: PeriodFigures)
    requires IsPeriod(r, ticks, ResolutionOf(result), trace, figures)
    ensures PaysOut(figures, result, Fold(RunOf(r.profile, trace)), AccountOf(RunOf(r.profile, trace)), FilledNotional(r, trace))
  {
    FiguresPay(figures, RunOf(r.profile, trace), CountedPairs(r.profile, EndOf(trace)), result, FilledNotional(r, trace));
  }

  lemma FiguresPay(figures: PeriodFigures, run: seq<Event>, mergedPairs: real, result: string, paid: real)
    requires FiguresAre(figures, run, mergedPairs, ResolutionOf(result), paid)
    ensures PaysOut(figures, result, Fold(run), AccountOf(run), paid)
  {
    PeriodFiguresMean(figures, run, mergedPairs, ResolutionOf(result), paid);
  }

  /** Ladder levels and activation limit by the length of the period, and a market length of at least a second. */
  lemma RulesMean(profile: ReplayProfile, firstRemaining: real)
    ensures var r := RulesFor(profile, firstRemaining);
      var own := if firstRemaining > 1800.0 then profile.ladderLevels60m
                 else if firstRemaining > 500.0 then profile.ladderLevels15m else profile.ladderLevels5m;
      && r.profile == profile
      && r.ladderLevels == (if own.Some? then own.value else profile.ladderLevels)
      && r.activationLimit == (if firstRemaining > 500.0 then None else profile.buyLevelActivationLimit5m)
      && r.totalMarketSecs == (if firstRemaining >= 1.0 then firstRemaining else 1.0)
  {
  }

  method Simulate(ticks: seq<TickData>, result: string, profile: ReplayProfile)
    returns (stats: Result<PeriodFigures, string>, ghost trace: seq<TickRecord>)
    requires forall t :: t in ticks ==> BidsAreFree(profile, t)
    ensures stats.Err? <==> |ticks| < MIN_ROWS
    ensures |ticks| >= MIN_ROWS && !profile.AllowsDuration(DetectDurationMins(ticks[0].remainingSecs)) ==> stats == Ok(IDLE)
    ensures |ticks| >= MIN_ROWS && profile.AllowsDuration(DetectDurationMins(ticks[0].remainingSecs)) ==>
              && stats.Ok?
              && IsPeriod(RulesFor(profile, ticks[0].remainingSecs), ticks, ResolutionOf(result), trace, stats.value)
    ensures stats.Ok? && 0.0 <= profile.mergeMinProfitPerPair ==> -LossCap(profile) <= stats.value.totalPnl
  {
    trace := [];
    if |ticks| < MIN_ROWS {
      return Err("not enough rows"), trace;
    }
    if !profile.AllowsDuration(DetectDurationMins(ticks[0].remainingSecs)) {
      return Ok(IDLE), trace;
    }
    var figures;
    figures, trace := RunPeriod(ticks, ResolutionOf(result), RulesFor(profile, ticks[0].remainingSecs));
    stats := Ok(figures);
  }

  method ReplayTicks(ticks: seq<TickData>, rules: Rules) returns (replay: Replay, ghost trace: seq<TickRecord>)
    requires forall t :: t in ticks ==> BidsAreFree(rules.profile, t)
    ensures fresh(replay) && fresh(replay.sim) && fresh(replay.position)
    ensures replay.Valid() && replay.rules == rules
    ensures Traced(rules, ticks, trace, replay.Now())
  {
    replay := new Replay(rules);
    trace := [];
    TraceStarts(rules);
    var i := 0;
    while i < |ticks|
      invariant 0 <= i <= |ticks|
      invariant replay.rules == rules && fresh(replay) && fresh(replay.sim) && fresh(replay.position)
      invariant replay.Valid()
      invariant Traced(rules, ticks[..i], trace, replay.Now())
    {
      ghost var rec := replay.Step(ticks[i]);
      TraceGrows(rules, ticks[..i], trace, ticks[i], rec);
      assert ticks[..i] + [ticks[i]] == ticks[..i + 1];
      trace := trace + [rec];
      i := i + 1;
    }
    assert ticks[..i] == ticks;
  }

  method RunPeriod(ticks: seq<TickData>, resolution: Resolution, rules: Rules) returns (figures: PeriodFigures, ghost trace: seq<TickRecord>)
    requires forall t :: t in ticks ==> BidsAreFree(rules.profile, t)
    ensures IsPeriod(rules, ticks, resolution, trace, figures)
    ensures 0.0 <= rules.profile.mergeMinProfitPerPair ==> -LossCap(rules.profile) <= figures.totalPnl
  {
    var replay;
    replay, trace := ReplayTicks(ticks, rules);
    ghost var end, h, a := replay.Now(), replay.position.View(), replay.position.account;
    RecordedRun(end.events, h, a);
    RunPays(rules, ticks, trace, end);
    figures := replay.Close(resolution, RunOf(rules.profile, trace), CountedPairs(rules.profile, end), FilledNotional(rules, trace));
  }

  /**
   What a replayed period is. Its trace follows the ticks, every tick of it is safe, and the figures are those of the
   run that the trace records. The profit is exactly the cash account of that run: proceeds of sales, a dollar per
   merged pair and the worth of what is left, less what the ticks paid for the buys they filled. And if merges are not
   configured to run at a loss, no series of prices, books and fair values, and no result, can lose more than the cap.
   */
  ghost predicate IsPeriod(r: Rules, ticks: seq<TickData>, resolution: Resolution, trace: seq<TickRecord>, figures: PeriodFigures) {
    var run, end := RunOf(r.profile, trace), EndOf(trace);
    && Traced(r, ticks, trace, end)
    && WellFormed(run)
    && FiguresAre(figures, run, CountedPairs(r.profile, end), resolution, FilledNotional(r, trace))
    && (0.0 <= r.profile.mergeMinProfitPerPair ==> -LossCap(r.profile) <= figures.totalPnl)
  }

  /** The same without anything kept out of sight. */
  lemma PeriodMeans(r: Rules, ticks: seq<TickData>, resolution: Resolution, trace: seq<TickRecord>, figures: PeriodFigures)
    requires IsPeriod(r, ticks, resolution, trace, figures)
    ensures IsTrace(r, ticks, trace, EndOf(trace)) && SafeTrace(r, ticks, trace)
    ensures var run := RunOf(r.profile, trace);
      var h, a := Fold(run), AccountOf(run);
      && figures.yesQty == h.yes.qty && figures.noQty == h.no.qty && figures.pairs == h.Pairs()
      && figures.lockedProfit == h.LockedProfit() && figures.specPnl == SpecPnl(h, resolution)
      && figures.mergePnl == a.mergePnl && figures.sellPnl == a.sellPnl && figures.mergedPairs == CountedPairs(r.profile, EndOf(trace))
      && a.paid == FilledNotional(r, trace)
      && figures.totalPnl == a.proceeds + a.pairsMerged + SettlementValue(h, resolution) - a.paid
  {
    RunPays(r, ticks, trace, EndOf(trace));
    PeriodFiguresMean(figures, RunOf(r.profile, trace), CountedPairs(r.profile, EndOf(trace)), resolution, FilledNotional(r, trace));
    assert Look(AboutTraces, 0);
  }

  lemma PeriodFiguresMean(figures: PeriodFigures, run: seq<Event>, mergedPairs: real, r: Resolution, paid: real)
    requires FiguresAre(figures, run, mergedPairs, r, paid)
    ensures figures == FiguresOf(Fold(run), AccountOf(run), mergedPairs, r)
    ensures figures.totalPnl == AccountOf(run).proceeds + AccountOf(run).pairsMerged + SettlementValue(Fold(run), r) - paid
  {
    assert Look(AboutProfit, 0);
  }

  method Wanted(r: Rules, h: Holding, tick: TickData) returns (wanted: Option<LadderLevel>)
    requires h.Valid()
    ensures wanted == WantedCompletion(r, h, tick)
    ensures wanted.Some? ==> Completes(wanted.value, h, tick.Book()) && 0.0 < wanted.value.price
  {
    wanted := WantedCompletion(r, h, tick);
    PairCompletionIs(h, tick.Book().yesAsk, tick.Book().noAsk, PAIR_COMPLETION_MAX_SHARES, r.profile.pairFeeBuffer);
  }

  method CapOf(r: Rules, h: Holding, tick: TickData) returns (cap: real)
    ensures CapIs(r, h, tick, cap) && cap <= LossCap(r.profile)
  {
    cap := CapAt(r, h, tick);
    CapNeverAboveLossCap(r.profile, h, ElapsedPct(tick.remainingSecs, r.totalMarketSecs));
  }

  /** Booking the fills of a tick leads the position to where the fills lead. */
  lemma FillsLead(es: seq<Event>, h: Holding, a: Account, done: seq<PaperOrder>, es': seq<Event>, h': Holding, a': Account)
    requires Records(es, h, a) && Records(es', h', a') && es' == es + FillEvents(done)
    ensures h' == AfterFills(h, done)
  {
    RecordedRun(es, h, a);
    RecordedRun(es', h', a');
    FoldFills(es, done);
  }

  lemma FillsKeepImbalance(es: seq<Event>, h: Holding, a: Account, cands: seq<PaperOrder>, limit: real,
                           es': seq<Event>, h': Holding, a': Account)
    requires Records(es, h, a) && Records(es', h', a')
    requires es' == es + FillEvents(Execute(cands, Some(limit), h.yes.spent, h.no.spent).fills)
    ensures Abs(h.yes.spent - h.no.spent) <= limit
            && (forall o :: o in Execute(cands, Some(limit), h.yes.spent, h.no.spent).fills ==> o.side == Buy)
            ==> Abs(h'.yes.spent - h'.no.spent) <= limit
  {
    var done := Execute(cands, Some(limit), h.yes.spent, h.no.spent).fills;
    FillsLead(es, h, a, done, es', h', a');
    if Abs(h.yes.spent - h.no.spent) <= limit && forall o :: o in done ==> o.side == Buy {
      ImbalanceStaysWithin(h, cands, limit);
    }
  }

  lemma MergeCredit(a: Account, h: Holding, pairs: real)
    requires 0.0 <= pairs <= h.Pairs()
    ensures var b := a.Credit(h, Merged(pairs));
      && b.paid == a.paid && b.sellPnl == a.sellPnl
      && b.costMerged == a.costMerged + pairs * h.AvgCombined() && b.pairsMerged == a.pairsMerged + pairs
      && b.mergePnl == a.mergePnl + MergePnlBy(h, Merged(pairs))
  {
  }

  lemma SellCredit(a: Account, h: Holding, outcome: Outcome, price: real, size: real)
    ensures var e := Sold(outcome, price, size);
      var b := a.Credit(h, e);
      && b.paid == a.paid && b.costMerged == a.costMerged && b.pairsMerged == a.pairsMerged && b.mergePnl == a.mergePnl
      && b.sellPnl == a.sellPnl + SellPnlBy(h, e)
  {
  }

  /** Shares of a bid that the budget and the cap of a single order leave. */
  method SizeForBudget(bid: LadderLevel, remaining: real, notionalCap: real, ghost sizes: (LadderLevel, real) -> real)
    returns (taken: LadderLevel)
    requires 0.0 <= bid.price && 0.0 <= remaining
    requires SizesAre(notionalCap, sizes)
    ensures taken == bid.(size := sizes(bid, remaining)) && taken.size <= bid.size
    ensures taken.Notional() <= remaining
  {
    var inBudget := CutToBudget(remaining, bid.price);
    var size := CutToNotional(Min(bid.size, inBudget), bid.price, notionalCap);
    SizeOfBid(bid, remaining, notionalCap, inBudget, size, sizes);
    MulMonotone(bid.price, size, inBudget);
    taken := bid.(size := size);
  }
}
