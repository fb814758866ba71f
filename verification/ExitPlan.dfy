/** When and how the shares of the heavy side are sold off. */
module ExitPlans {
  import opened Common
  import opened Decimals
  import opened Holdings
  import opened Profile
  import opened Ladders

  datatype ExitMode = NoExit | MakerExit | TakerExit

  datatype ExitPlan =
    | Skip
    | Maker(heavy: Outcome, levels: Ladder)
    | Taker(heavy: Outcome, size: real, price: real)

  const SOFT_EXIT_START_REMAINING_SECS: real := 600.0

  function DynamicLossCap(remainingSecs: real): real {
    if remainingSecs > 420.0 then 0.03
    else if remainingSecs > 300.0 then 0.06
    else if remainingSecs > 180.0 then 0.10
    else if remainingSecs > 120.0 then 0.15
    else 1.00
  }

  function MaxLoss(profile: ReplayProfile, remainingSecs: real): real {
    if remainingSecs > 300.0 then Min(profile.sellbackMaxLossCents, DynamicLossCap(remainingSecs))
    else DynamicLossCap(remainingSecs)
  }

  function SelectExitMode(absExcess: real, remainingSecs: real, breakerSecs: real, profile: ReplayProfile): ExitMode {
    if absExcess <= 0.0 then NoExit
    else
      var forceLate := remainingSecs <= profile.exitForceRemainingSecs && absExcess >= profile.exitSoftExcess;
      var forceBreaker := absExcess >= profile.exitHardExcess && breakerSecs >= profile.exitTakerAfterSecs;
      if forceLate || forceBreaker then TakerExit
      else if absExcess >= profile.exitSoftExcess && remainingSecs <= SOFT_EXIT_START_REMAINING_SECS then MakerExit
      else NoExit
  }

  /** Lowest price at which the heavy side may be sold. */
  function LossFloor(h: Holding, heavy: Outcome, profile: ReplayProfile, remainingSecs: real): real {
    h.Side(heavy).Avg() - MaxLoss(profile, remainingSecs)
  }

  /** Sell levels in falling order, never at a loss beyond the floor and never more than `budget` shares. */
  ghost predicate SellLadder(l: Ladder, heavy: Outcome, floor: real, budget: real) {
    && Descending(l)
    && (forall q :: q in l ==> q.outcome == heavy && q.price > 0.0 && q.price >= floor && q.size >= MIN_ORDER_SHARES)
    && TotalSize(l) <= budget
  }

  /** Rungs one tick apart, from `top` down. */
  ghost predicate OnRungs(l: Ladder, top: real) {
    forall k :: 0 <= k < |l| ==> l[k].price == top - TICK_SIZE * k as real
  }

  /** Each level takes as much as a level may of what the levels before it left over. */
  ghost predicate GreedySizes(l: Ladder, levelSize: real, budget: real) {
    l == [] ||
    var init := l[..|l| - 1];
    GreedySizes(init, levelSize, budget) && l[|l| - 1].size == QuantizeSize(Min(levelSize, budget - TotalSize(init)))
  }

  /** The part of a sell ladder that has been laid out so far; kept out of sight where it is only passed on. */
  ghost predicate SellLevels(l: Ladder, heavy: Outcome, top: real, floor: real, levelSize: real, budget: real) {
    forall n: nat {:trigger Look(AboutExits, n)} :: Look(AboutExits, n) ==>
      && (forall q :: q in l ==> q.outcome == heavy && q.price > 0.0 && q.price >= floor && q.size >= MIN_ORDER_SHARES)
      && OnRungs(l, top) && GreedySizes(l, levelSize, budget)
  }

  lemma NextRung(l: Ladder, q: LadderLevel, top: real)
    requires OnRungs(l, top) && q.price == top - TICK_SIZE * |l| as real
    ensures OnRungs(l + [q], top)
  {
    forall k | 0 <= k < |l| + 1 ensures (l + [q])[k].price == top - TICK_SIZE * k as real {
      assert k < |l| ==> (l + [q])[k] == l[k];
    }
  }

  lemma NextSize(l: Ladder, q: LadderLevel, levelSize: real, budget: real)
    requires GreedySizes(l, levelSize, budget) && q.size == QuantizeSize(Min(levelSize, budget - TotalSize(l)))
    ensures GreedySizes(l + [q], levelSize, budget) && TotalSize(l + [q]) == TotalSize(l) + q.size
  {
    assert (l + [q])[..|l|] == l;
  }

  lemma NextLevel(l: Ladder, q: LadderLevel, top: real, floor: real, levelSize: real, budget: real)
    requires SellLevels(l, q.outcome, top, floor, levelSize, budget)
    requires q.price == top - TICK_SIZE * |l| as real && q.price > 0.0 && q.price >= floor && q.size >= MIN_ORDER_SHARES
    requires q.size == QuantizeSize(Min(levelSize, budget - TotalSize(l)))
    ensures SellLevels(l + [q], q.outcome, top, floor, levelSize, budget)
    ensures TotalSize(l + [q]) == TotalSize(l) + q.size
  {
    assert Look(AboutExits, 0);
    NextRung(l, q, top);
    NextSize(l, q, levelSize, budget);
  }

  /** The levels from the i-th on, with `left` shares still to offer. */
  function SellRungs(heavy: Outcome, top: real, floor: real, left: real, levelSize: real, count: nat, i: nat): Ladder
    decreases count - i
  {
    var price, size := top - TICK_SIZE * i as real, QuantizeSize(Min(levelSize, left));
    if i >= count || price <= 0.0 || price < floor || left <= 0.0 || size < MIN_ORDER_SHARES then []
    else [LadderLevel(heavy, price, size)] + SellRungs(heavy, top, floor, left - size, levelSize, count, i + 1)
  }

  /** Why no further level follows the levels `l`. */
  ghost predicate NoMoreLevels(l: Ladder, top: real, floor: real, levelSize: real, budget: real) {
    var next, left := top - TICK_SIZE * |l| as real, budget - TotalSize(l);
    next <= 0.0 || next < floor || left <= 0.0 || QuantizeSize(Min(levelSize, left)) < MIN_ORDER_SHARES
  }

  /** Levels that are laid out to the end. */
  ghost predicate Finished(l: Ladder, heavy: Outcome, top: real, floor: real, levelSize: real, budget: real, count: nat) {
    && SellLevels(l, heavy, top, floor, levelSize, budget)
    && |l| <= count && TotalSize(l) <= budget
    && (|l| < count ==> NoMoreLevels(l, top, floor, levelSize, budget))
  }

  /** Laying out the rest finishes the levels so far. */
  lemma {:induction false} LaidOut(l: Ladder, heavy: Outcome, top: real, floor: real, left: real, levelSize: real,
                                   budget: real, count: nat)
    returns (r: Ladder)
    requires SellLevels(l, heavy, top, floor, levelSize, budget) && |l| <= count
    requires 0.0 <= left == budget - TotalSize(l)
    ensures r == l + SellRungs(heavy, top, floor, left, levelSize, count, |l|)
    ensures Finished(r, heavy, top, floor, levelSize, budget, count)
    decreases count - |l|
  {
    var price, size := top - TICK_SIZE * |l| as real, QuantizeSize(Min(levelSize, left));
    if |l| >= count || price <= 0.0 || price < floor || left <= 0.0 || size < MIN_ORDER_SHARES {
      r := l;
    } else {
      var q := LadderLevel(heavy, price, size);
      NextLevel(l, q, top, floor, levelSize, budget);
      r := LaidOut(l + [q], heavy, top, floor, left - size, levelSize, budget, count);
      var rest := SellRungs(heavy, top, floor, left - size, levelSize, count, |l| + 1);
      assert SellRungs(heavy, top, floor, left, levelSize, count, |l|) == [q] + rest;
      MoveOver(l, q, rest);
    }
  }

  lemma SellRungsAre(heavy: Outcome, top: real, floor: real, levelSize: real, budget: real, count: nat)
    requires 0.0 <= budget
    ensures var levels := SellRungs(heavy, top, floor, budget, levelSize, count, 0);
      && SellLadder(levels, heavy, floor, budget)
      && |levels| <= count
      && OnRungs(levels, top) && GreedySizes(levels, levelSize, budget)
      && (|levels| < count ==> NoMoreLevels(levels, top, floor, levelSize, budget))
  {
    var levels := SellRungs(heavy, top, floor, budget, levelSize, count, 0);
    var r := LaidOut([], heavy, top, floor, budget, levelSize, budget, count);
    assert r == levels;
    assert Look(AboutExits, 0);
    RungsDescend(levels, top);
  }

  lemma RungsDescend(l: Ladder, top: real)
    requires OnRungs(l, top)
    ensures Descending(l)
  {
  }

  method BuildSellLevels(heavy: Outcome, top: real, floor: real, absExcess: real, levelSize: real, count: nat)
    returns (levels: Ladder)
    requires 0.0 <= absExcess
    ensures levels == SellRungs(heavy, top, floor, absExcess, levelSize, count, 0)
    ensures SellLadder(levels, heavy, floor, absExcess)
    ensures |levels| <= count
    ensures OnRungs(levels, top) && GreedySizes(levels, levelSize, absExcess)
    ensures |levels| < count ==> NoMoreLevels(levels, top, floor, levelSize, absExcess)
  {
    levels := LayLevels(heavy, top, floor, absExcess, levelSize, count);
    SellRungsAre(heavy, top, floor, levelSize, absExcess, count);
  }

  /** The loop that lays out the levels. */
  method LayLevels(heavy: Outcome, top: real, floor: real, absExcess: real, levelSize: real, count: nat)
    returns (levels: Ladder)
    ensures levels == SellRungs(heavy, top, floor, absExcess, levelSize, count, 0)
  {
    levels := [];
    var remaining := absExcess;
    var i := 0;
    while i < count
      invariant 0 <= i <= count
      invariant levels + SellRungs(heavy, top, floor, remaining, levelSize, count, i)
             == SellRungs(heavy, top, floor, absExcess, levelSize, count, 0)
    {
      var price := top - TICK_SIZE * i as real;
      if price <= 0.0 || price < floor || remaining <= 0.0 {
        break;
      }
      var size := QuantizeSize(Min(levelSize, remaining));
      if size < MIN_ORDER_SHARES {
        break;
      }
      remaining := remaining - size;
      MoveOver(levels, LadderLevel(heavy, price, size), SellRungs(heavy, top, floor, remaining, levelSize, count, i + 1));
      levels := levels + [LadderLevel(heavy, price, size)];
      i := i + 1;
    }
  }

  /** The price of the best maker sell before it is checked against floor and book. */
  function MakerTarget(h: Holding, heavy: Outcome, fv: real, bid: real, ask: Option<real>, profile: ReplayProfile): real {
    var anchor :=
      if ask.Some? && ask.value > 0.0 then (if ask.value > bid + TICK_SIZE then ask.value - TICK_SIZE else ask.value)
      else bid + TICK_SIZE;
    var avg := h.Side(heavy).Avg();
    Min(anchor, Max(fv - profile.sellbackEdge, avg + profile.sellbackEdge))
  }

  /** Above the bid: at the ask, cut to a tick, or one tick over the bid. */
  function OverBid(bid: real, ask: Option<real>): real {
    if ask.Some? && ask.value > bid then RoundDownToTick(ask.value, TICK_SIZE) else bid + TICK_SIZE
  }

  /** The price of the best maker sell, or nothing when the loss floor cannot be met. */
  function MakerTop(h: Holding, heavy: Outcome, fv: real, bid: real, ask: Option<real>,
                    profile: ReplayProfile, floor: real): Option<real>
  {
    var target := MakerTarget(h, heavy, fv, bid, ask, profile);
    if target < floor && bid < floor then None
    else
      var rounded := RoundDownToTick(Max(target, floor), TICK_SIZE);
      var raised := if rounded < floor then rounded + TICK_SIZE else rounded;
      if raised <= 0.0 then None
      else
        var top := if raised <= bid then OverBid(bid, ask) else raised;
        if top < floor then None else Some(top)
  }

  /** An ask above the bid that, cut to a tick, is not above it any more: possible only between two ticks. */
  predicate SlipsUnderBid(bid: real, ask: Option<real>) {
    ask.Some? && ask.value > bid >= RoundDownToTick(ask.value, TICK_SIZE)
  }

  /**
   The best maker sell respects the floor. It stays above a real bid, so that it rests, exactly unless the ask
   slips under the bid when it is cut to a tick and the floor leaves room for that price.
   */
  lemma MakerTopIsSafe(h: Holding, heavy: Outcome, fv: real, bid: real, ask: Option<real>,
                       profile: ReplayProfile, floor: real)
    ensures var top := MakerTop(h, heavy, fv, bid, ask, profile, floor);
      top.Some? ==>
        && top.value >= floor
        && (!SlipsUnderBid(bid, ask) ==> top.value > bid)
        && (0.0 < bid ==> (top.value > bid <==> !(SlipsUnderBid(bid, ask) && floor <= RoundDownToTick(ask.value, TICK_SIZE))))
  {
    if 0.0 < bid && SlipsUnderBid(bid, ask) && floor <= RoundDownToTick(ask.value, TICK_SIZE) {
      var target := MakerTarget(h, heavy, fv, bid, ask, profile);
      assert target <= ask.value;
      RoundsBelow(Max(target, floor), floor, ask.value);
    }
  }

  /** Cut to a tick and raised once if that fell under the floor, a price stays at or under a cut price above it. */
  lemma RoundsBelow(price: real, floor: real, ask: real)
    requires price <= ask && floor <= RoundDownToTick(ask, TICK_SIZE)
    ensures var rounded := RoundDownToTick(price, TICK_SIZE);
      (if rounded < floor then rounded + TICK_SIZE else rounded) <= RoundDownToTick(ask, TICK_SIZE)
  {
    var k, n := (price / TICK_SIZE).Floor, (ask / TICK_SIZE).Floor;
    assert price / TICK_SIZE <= ask / TICK_SIZE;
    TicksOrdered(k, n, floor);
  }

  lemma TicksOrdered(k: int, n: int, floor: real)
    requires k <= n && floor <= n as real * TICK_SIZE
    ensures k as real * TICK_SIZE <= n as real * TICK_SIZE
    ensures k as real * TICK_SIZE < floor ==> k as real * TICK_SIZE + TICK_SIZE <= n as real * TICK_SIZE
  {
  }

  /** A falling ladder from the maker price down, unless not even its first level can be offered. */
  function MakerPlan(h: Holding, heavy: Outcome, fv: real, bid: real, ask: Option<real>, profile: ReplayProfile, floor: real)
    : ExitPlan
  {
    var top := MakerTop(h, heavy, fv, bid, ask, profile, floor);
    if top.None? then Skip
    else
      var levels := SellRungs(heavy, top.value, floor, Abs(h.Excess()), profile.sellLevelSize, profile.sellLevels, 0);
      if levels == [] then Skip else Maker(heavy, levels)
  }

  function TakerPlan(h: Holding, heavy: Outcome, bid: real, profile: ReplayProfile, floor: real): ExitPlan {
    var size := QuantizeSize(Min(Abs(h.Excess()), profile.sellLevelSize));
    if bid < floor || size < MIN_ORDER_SHARES then Skip else Taker(heavy, size, bid)
  }

  /** What a tick shows of the heavy side: its fair value, best bid and best ask. */
  datatype Prices = Prices(fv: real, bid: Option<real>, ask: Option<real>)

  /** No exit is considered at all. */
  predicate Quiet(h: Holding, profile: ReplayProfile, inGracePeriod: bool, heavySideHasBuys: bool) {
    Abs(h.Excess()) <= 0.0 || inGracePeriod || (heavySideHasBuys && Abs(h.Excess()) < profile.exitSoftExcess)
  }

  /** The exit plan of a tick, by the mode of the moment and the prices of the heavy side. */
  function ExitPlanOf(h: Holding, yes: Prices, no: Prices, profile: ReplayProfile, remainingSecs: real,
                      breakerSecs: real, inGracePeriod: bool, heavySideHasBuys: bool): ExitPlan
  {
    var mode := SelectExitMode(Abs(h.Excess()), remainingSecs, breakerSecs, profile);
    if Quiet(h, profile, inGracePeriod, heavySideHasBuys) || mode == NoExit then Skip
    else
      var heavy := if h.Excess() > 0.0 then Yes else No;
      var p := if heavy == Yes then yes else no;
      if p.bid.None? || p.bid.value <= 0.0 then Skip
      else if mode == TakerExit then TakerPlan(h, heavy, p.bid.value, profile, LossFloor(h, heavy, profile, remainingSecs))
      else MakerPlan(h, heavy, p.fv, p.bid.value, p.ask, profile, LossFloor(h, heavy, profile, remainingSecs))
  }

  method PlanMaker(h: Holding, heavy: Outcome, fv: real, bid: real, ask: Option<real>, profile: ReplayProfile, floor: real)
    returns (plan: ExitPlan)
    ensures plan == MakerPlan(h, heavy, fv, bid, ask, profile, floor)
  {
    var top := MakerTop(h, heavy, fv, bid, ask, profile, floor);
    if top.None? {
      return Skip;
    }
    var levels := BuildSellLevels(heavy, top.value, floor, Abs(h.Excess()), profile.sellLevelSize, profile.sellLevels);
    plan := if levels == [] then Skip else Maker(heavy, levels);
  }

  method ComputeExcessExitPlan(h: Holding, yes: Prices, no: Prices, profile: ReplayProfile, remainingSecs: real,
                               breakerSecs: real, inGracePeriod: bool, heavySideHasBuys: bool)
    returns (plan: ExitPlan)
    ensures plan == ExitPlanOf(h, yes, no, profile, remainingSecs, breakerSecs, inGracePeriod, heavySideHasBuys)
  {
    if Quiet(h, profile, inGracePeriod, heavySideHasBuys) {
      return Skip;
    }
    var mode := SelectExitMode(Abs(h.Excess()), remainingSecs, breakerSecs, profile);
    if mode == NoExit {
      return Skip;
    }
    var heavy, p := No, no;
    if h.Excess() > 0.0 {
      heavy, p := Yes, yes;
    }
    if p.bid.None? || p.bid.value <= 0.0 {
      return Skip;
    }
    var floor := LossFloor(h, heavy, profile, remainingSecs);
    if mode == TakerExit {
      plan := TakerPlan(h, heavy, p.bid.value, profile, floor);
    } else {
      plan := PlanMaker(h, heavy, p.fv, p.bid.value, p.ask, profile, floor);
    }
  }

  /** The terms of a maker plan: the rungs, their sizes, and where the ladder ends. */
  ghost predicate MakerTerms(h: Holding, heavy: Outcome, levels: Ladder, top: real, floor: real, profile: ReplayProfile) {
    && 0 < |levels| <= profile.sellLevels
    && OnRungs(levels, top)
    && GreedySizes(levels, profile.sellLevelSize, Abs(h.Excess()))
    && SellLadder(levels, heavy, floor, Abs(h.Excess()))
    && (|levels| < profile.sellLevels ==> NoMoreLevels(levels, top, floor, profile.sellLevelSize, Abs(h.Excess())))
  }

  /** A maker exit offers at the maker price, and is skipped exactly when not even one level can be offered there. */
  lemma MakerPlanIs(h: Holding, heavy: Outcome, fv: real, bid: real, ask: Option<real>, profile: ReplayProfile, floor: real)
    requires 0.0 < Abs(h.Excess())
    ensures var top := MakerTop(h, heavy, fv, bid, ask, profile, floor);
      var plan := MakerPlan(h, heavy, fv, bid, ask, profile, floor);
      && (plan == Skip <==>
            || top.None? || top.value <= 0.0
            || profile.sellLevels == 0 || QuantizeSize(Min(profile.sellLevelSize, Abs(h.Excess()))) < MIN_ORDER_SHARES)
      && (plan != Skip ==> plan.Maker? && plan.heavy == heavy && MakerTerms(h, heavy, plan.levels, top.value, floor, profile))
  {
    var top := MakerTop(h, heavy, fv, bid, ask, profile, floor);
    if top.Some? {
      SellRungsAre(heavy, top.value, floor, profile.sellLevelSize, Abs(h.Excess()), profile.sellLevels);
    }
  }

  /**
   What any exit plan promises: only the heavy side is offered, never more of it than the excess and in sellable
   sizes, never below the loss floor, and only while it has a bid. A taker exit sells at that bid.
   */
  lemma ExitPlanIsSafe(h: Holding, yes: Prices, no: Prices, profile: ReplayProfile, remainingSecs: real,
                       breakerSecs: real, inGracePeriod: bool, heavySideHasBuys: bool)
    ensures var plan := ExitPlanOf(h, yes, no, profile, remainingSecs, breakerSecs, inGracePeriod, heavySideHasBuys);
      plan != Skip ==>
        && h.Heavy() == Some(plan.heavy)
        && (var p := if plan.heavy == Yes then yes else no;
            var floor := LossFloor(h, plan.heavy, profile, remainingSecs);
            && p.bid.Some? && 0.0 < p.bid.value
            && (plan.Taker? ==> floor <= plan.price == p.bid.value && MIN_ORDER_SHARES <= plan.size <= Abs(h.Excess()))
            && (plan.Maker? ==>
                  var top := MakerTop(h, plan.heavy, p.fv, p.bid.value, p.ask, profile, floor);
                  top.Some? && MakerTerms(h, plan.heavy, plan.levels, top.value, floor, profile)))
  {
    var heavy := if h.Excess() > 0.0 then Yes else No;
    var p := if heavy == Yes then yes else no;
    if !Quiet(h, profile, inGracePeriod, heavySideHasBuys) && p.bid.Some? {
      MakerPlanIs(h, heavy, p.fv, p.bid.value, p.ask, profile, LossFloor(h, heavy, profile, remainingSecs));
    }
  }

  // ----- when and where an exit is made, in plain figures -----

  /** Shares by which one side exceeds the other. */
  function Unpaired(h: Holding): real {
    if h.yes.qty >= h.no.qty then h.yes.qty - h.no.qty else h.no.qty - h.yes.qty
  }

  /** An exit at the bid: near the end with a large excess, or with a very large one that has lasted. */
  predicate MustSell(h: Holding, profile: ReplayProfile, remainingSecs: real, breakerSecs: real) {
    || (remainingSecs <= profile.exitForceRemainingSecs && Unpaired(h) >= profile.exitSoftExcess)
    || (Unpaired(h) >= profile.exitHardExcess && breakerSecs >= profile.exitTakerAfterSecs)
  }

  /** An exit by offers: in the last ten minutes with a large excess. */
  predicate MayOffer(h: Holding, profile: ReplayProfile, remainingSecs: real) {
    Unpaired(h) >= profile.exitSoftExcess && remainingSecs <= 600.0
  }

  /** What a share may lose: more and more as the period runs out, but up to five minutes before the end never more than configured. */
  function LossAllowed(profile: ReplayProfile, remainingSecs: real): real {
    if remainingSecs > 420.0 then (if profile.sellbackMaxLossCents <= 0.03 then profile.sellbackMaxLossCents else 0.03)
    else if remainingSecs > 300.0 then (if profile.sellbackMaxLossCents <= 0.06 then profile.sellbackMaxLossCents else 0.06)
    else if remainingSecs > 180.0 then 0.10
    else if remainingSecs > 120.0 then 0.15
    else 1.00
  }

  lemma LossFloorMeans(h: Holding, heavy: Outcome, profile: ReplayProfile, remainingSecs: real)
    ensures var l := if heavy == Yes then h.yes else h.no;
      LossFloor(h, heavy, profile, remainingSecs)
      == (if l.qty > 0.0 then l.spent / l.qty else 0.0) - LossAllowed(profile, remainingSecs)
  {
  }

  /**
   Which kind of plan is made when: none without an excess, in the grace period, or while a small excess still has bids on
   its side; at the bid when it must be sold; by offers when it may be. An exit at the bid is made exactly when there is a
   bid at or above the loss floor for a sellable size.
   */
  lemma ExitMeans(h: Holding, yes: Prices, no: Prices, profile: ReplayProfile, remainingSecs: real,
                  breakerSecs: real, inGracePeriod: bool, heavySideHasBuys: bool)
    ensures var plan := ExitPlanOf(h, yes, no, profile, remainingSecs, breakerSecs, inGracePeriod, heavySideHasBuys);
      var idle := Unpaired(h) == 0.0 || inGracePeriod || (heavySideHasBuys && Unpaired(h) < profile.exitSoftExcess);
      var heavy := if h.yes.qty > h.no.qty then Yes else No;
      var p, leg := if heavy == Yes then yes else no, if heavy == Yes then h.yes else h.no;
      var floor := (if leg.qty > 0.0 then leg.spent / leg.qty else 0.0) - LossAllowed(profile, remainingSecs);
      var size := QuantizeSize(if Unpaired(h) <= profile.sellLevelSize then Unpaired(h) else profile.sellLevelSize);
      && (idle ==> plan == Skip)
      && (!idle && MustSell(h, profile, remainingSecs, breakerSecs) ==>
            plan == if p.bid.Some? && 0.0 < p.bid.value && floor <= p.bid.value && 5.0 <= size then Taker(heavy, size, p.bid.value) else Skip)
      && (!idle && !MustSell(h, profile, remainingSecs, breakerSecs) && MayOffer(h, profile, remainingSecs) ==>
            plan == if p.bid.Some? && 0.0 < p.bid.value then MakerPlan(h, heavy, p.fv, p.bid.value, p.ask, profile, floor) else Skip)
      && (!idle && !MustSell(h, profile, remainingSecs, breakerSecs) && !MayOffer(h, profile, remainingSecs) ==> plan == Skip)
  {
    assert Abs(h.Excess()) == Unpaired(h);
    LossFloorMeans(h, if h.yes.qty > h.no.qty then Yes else No, profile, remainingSecs);
  }

  /** The price a maker exit aims at: next to the ask, or a tick over the bid without one, but never above what both fair value and cost call for. */
  function AimedAt(leg: Leg, fv: real, bid: real, ask: Option<real>, profile: ReplayProfile): real {
    var beside := if ask.None? || ask.value <= 0.0 then bid + 0.01
                  else if ask.value > bid + 0.01 then ask.value - 0.01 else ask.value;
    var cost := if leg.qty > 0.0 then leg.spent / leg.qty else 0.0;
    var fair := if fv - profile.sellbackEdge >= cost + profile.sellbackEdge then fv - profile.sellbackEdge else cost + profile.sellbackEdge;
    if beside <= fair then beside else fair
  }

  /**
   The first offer of a maker exit: the aimed price, or the loss floor if that is higher and the bid reaches it, on a tick
   and not under the floor; where that is not above the bid, the ask on a tick, or a tick over the bid.
   */
  lemma MakerTopMeans(h: Holding, heavy: Outcome, fv: real, bid: real, ask: Option<real>, profile: ReplayProfile, floor: real)
    ensures var aim := AimedAt(if heavy == Yes then h.yes else h.no, fv, bid, ask, profile);
      var wanted := if aim >= floor then aim else floor;
      var tick := RoundDownToTick(wanted, 0.01);
      var offer := if tick < floor then tick + 0.01 else tick;
      var top := if offer > bid then offer
                 else if ask.Some? && ask.value > bid then RoundDownToTick(ask.value, 0.01) else bid + 0.01;
      MakerTop(h, heavy, fv, bid, ask, profile, floor)
      == if (aim < floor && bid < floor) || offer <= 0.0 || top < floor then None else Some(top)
  {
    assert MakerTarget(h, heavy, fv, bid, ask, profile) == AimedAt(if heavy == Yes then h.yes else h.no, fv, bid, ask, profile);
  }

  /**
   Under the settings the program starts from, an ask of 50.9 cents over a bid of 50.5 cents is cut to 50 cents:
   the maker exit offers its first level through the bid.
   */
  lemma MakerExitThroughTheBid(h: Holding, yes: Prices, no: Prices)
    requires h == Holding(Leg(20.0, 10.0), Leg(0.0, 0.0)) && yes == Prices(0.5, Some(0.505), Some(0.509))
    ensures var plan := ExitPlanOf(h, yes, no, DEFAULTS, 500.0, 0.0, false, false);
      plan.Maker? && plan.heavy == Yes && plan.levels != [] && plan.levels[0] == LadderLevel(Yes, 0.5, 10.0)
  {
    var floor := LossFloor(h, Yes, DEFAULTS, 500.0);
    assert h.yes.Avg() == 0.5 && floor == 0.48;
    assert RoundDownToTick(0.509, TICK_SIZE) == 0.5 by {
      assert (0.509 / TICK_SIZE).Floor == 50;
    }
    var top := MakerTop(h, Yes, 0.5, 0.505, Some(0.509), DEFAULTS, floor);
    assert top == Some(0.5);
    assert QuantizeSize(10.0) == 10.0 by {
      assert (10.0 * 100.0).Floor == 1000;
    }
    MakerPlanIs(h, Yes, 0.5, 0.505, Some(0.509), DEFAULTS, floor);
    assert SellRungs(Yes, 0.5, floor, 20.0, 10.0, 3, 0)[0] == LadderLevel(Yes, 0.5, 10.0);
  }

  /** Carrying out a taker exit never turns the light side into the heavy one. */
  lemma TakerNeverFlips(h: Holding, heavy: Outcome, size: real)
    requires h.Valid() && h.Heavy() == Some(heavy)
    requires MIN_ORDER_SHARES <= size <= Abs(h.Excess())
    ensures var g := AfterSell(h, heavy, QuantizeSize(Min(size, h.Side(heavy).qty)));
      && (g.Heavy() == None || g.Heavy() == Some(heavy))
      && Abs(g.Excess()) < Abs(h.Excess())
  {
    var q := QuantizeSize(Min(size, h.Side(heavy).qty));
    assert 0.0 < q <= size;
    assert SoldQty(h, heavy, q) == q;
  }
}
