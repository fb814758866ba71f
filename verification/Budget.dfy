/**
 How much a replay may commit to buys: the caps, the size cuts that respect them, and the
 invariant that ties the running totals of a replay to the record of its position.
 */
module Budget {
  import opened Common
  import opened Decimals
  import opened Holdings
  import opened PositionLedger
  import opened MapSum
  import opened PaperSim
  import opened Profile

  /** The only market of a replayed period. */
  const MARKET: string := "bt"

  const DEFAULT_BUY_CAP: real := 1000000.0

  // ----- caps -----

  function RebalanceExtraCapacity(profile: ReplayProfile, h: Holding): real {
    if !profile.rebalanceBudgetOverride then 0.0
    else
      var excess := Abs(h.Excess());
      if excess <= 0.0 || h.AvgCombined() >= 0.98 then 0.0
      else
        var heavyAvg := if h.Heavy().Some? then h.Side(h.Heavy().value).Avg() else 0.0;
        Min(excess * heavyAvg, profile.rebalanceMaxExtraBudget)
  }

  function BaseCap(profile: ReplayProfile): real {
    if profile.periodGrossBuyCapUsdc > 0.0 then profile.periodGrossBuyCapUsdc else DEFAULT_BUY_CAP
  }

  function EffectiveBuyCommitmentCap(profile: ReplayProfile, h: Holding, elapsedPct: real): real {
    var cap := BaseCap(profile);
    var early := elapsedPct < profile.earlyPhasePct && profile.earlyPhaseGrossBuyCapUsdc > 0.0;
    (if early then Min(cap, profile.earlyPhaseGrossBuyCapUsdc) else cap) + RebalanceExtraCapacity(profile, h)
  }

  /** What the configuration alone promises: no tick of any period may commit more. */
  function LossCap(profile: ReplayProfile): real {
    BaseCap(profile) + if profile.rebalanceBudgetOverride then Max(profile.rebalanceMaxExtraBudget, 0.0) else 0.0
  }

  lemma CapNeverAboveLossCap(profile: ReplayProfile, h: Holding, elapsedPct: real)
    ensures EffectiveBuyCommitmentCap(profile, h, elapsedPct) <= LossCap(profile)
  {
  }

  /**
   The commitment cap in plain figures: the cap of the period, or a million, cut to the early cap in the early part, plus what
   restoring balance may take: what the excess shares cost at the average of their side, up to a limit, and nothing
   without excess or where a pair already costs 98 cents.
   */
  lemma CapMeans(profile: ReplayProfile, h: Holding, elapsedPct: real)
    ensures var base := if profile.periodGrossBuyCapUsdc > 0.0 then profile.periodGrossBuyCapUsdc else 1000000.0;
      var early := elapsedPct < profile.earlyPhasePct && 0.0 < profile.earlyPhaseGrossBuyCapUsdc < base;
      EffectiveBuyCommitmentCap(profile, h, elapsedPct)
      == (if early then profile.earlyPhaseGrossBuyCapUsdc else base) + ForBalance(profile, h)
  {
    ExtraMeans(profile, h);
  }

  /** Dollars per share held. */
  function PerShare(l: Leg): real {
    if l.qty > 0.0 then l.spent / l.qty else 0.0
  }

  /** What restoring balance may take on top of the cap. */
  function ForBalance(profile: ReplayProfile, h: Holding): real {
    var excess := if h.yes.qty >= h.no.qty then h.yes.qty - h.no.qty else h.no.qty - h.yes.qty;
    var cost := excess * PerShare(if h.yes.qty >= h.no.qty then h.yes else h.no);
    if !profile.rebalanceBudgetOverride || excess == 0.0 || PerShare(h.yes) + PerShare(h.no) >= 0.98 then 0.0
    else if cost <= profile.rebalanceMaxExtraBudget then cost
    else profile.rebalanceMaxExtraBudget
  }

  lemma ExtraMeans(profile: ReplayProfile, h: Holding)
    ensures RebalanceExtraCapacity(profile, h) == ForBalance(profile, h)
  {
    var excess := if h.yes.qty >= h.no.qty then h.yes.qty - h.no.qty else h.no.qty - h.yes.qty;
    assert Abs(h.Excess()) == excess;
    assert h.AvgCombined() == PerShare(h.yes) + PerShare(h.no);
    if excess != 0.0 {
      var heavy := if h.yes.qty >= h.no.qty then Yes else No;
      assert h.Heavy() == Some(heavy);
      SameFactor(h.Side(heavy).Avg(), Abs(h.Excess()), excess);
    }
  }

  // ----- cutting sizes -----

  function CapBuySizeForNotional(size: real, price: real, notionalCap: real): real {
    if size <= 0.0 || price <= 0.0 || notionalCap <= 0.0 then size
    else Min(size, QuantizeSize((notionalCap / price).Floor as real))
  }

  /** Whole shares that the remaining budget buys; prices under a cent count as a cent. */
  function BudgetCappedSize(remainingCap: real, price: real): real {
    QuantizeSize((remainingCap / Max(price, 0.01)).Floor as real)
  }

  lemma QuotientFits(cap: real, price: real, r: real)
    requires 0.0 <= cap && 0.0 < price && 0.0 <= r <= Max((cap / price).Floor as real, 0.0)
    ensures r * price <= cap
  {
    var q := cap / price;
    DivMul(cap, price);
    DivNonNegative(cap, price);
    MulMonotone(price, r, q);
  }

  lemma DivNonNegative(a: real, b: real)
    requires 0.0 <= a && 0.0 < b
    ensures 0.0 <= a / b
  {
  }

  /** The cut size never costs more than the cap of a single order. */
  lemma NotionalCapHolds(size: real, price: real, notionalCap: real)
    requires 0.0 < size && 0.0 < price && 0.0 < notionalCap
    ensures var r := CapBuySizeForNotional(size, price, notionalCap); r <= size && price * r <= notionalCap
  {
    var whole := QuantizeSize((notionalCap / price).Floor as real);
    CutFits(notionalCap, price, whole, CapBuySizeForNotional(size, price, notionalCap));
  }

  lemma CutFits(cap: real, price: real, whole: real, r: real)
    requires 0.0 <= cap && 0.0 < price && 0.0 <= whole <= Max((cap / price).Floor as real, 0.0) && r <= whole
    ensures price * r <= cap
  {
    QuotientFits(cap, price, whole);
    MulMonotone(price, r, whole);
  }

  /** The cut size never costs more than what is left of the budget. */
  lemma BudgetHolds(remainingCap: real, price: real)
    requires 0.0 <= remainingCap && 0.0 <= price
    ensures var r := BudgetCappedSize(remainingCap, price); 0.0 <= r && price * r <= remainingCap
  {
    var m, r := Max(price, 0.01), BudgetCappedSize(remainingCap, price);
    QuotientFits(remainingCap, m, r);
    MulMonotone(r, price, m);
  }

  lemma QuantizeWhole(k: int)
    requires 0 <= k
    ensures QuantizeSize(k as real) == k as real
  {
    assert (k as real * 100.0).Floor == k * 100;
  }

  lemma WholeSharesThatFit(cap: real, m: real)
    requires 0.0 <= cap && 0.0 < m
    ensures 0 <= (cap / m).Floor
    ensures cap < (cap / m).Floor as real * m + m
  {
    DivNonNegative(cap, m);
    FloorOfQuotient(cap, m);
  }

  /** And it is the largest whole number of shares that fits, counting a price under a cent as a cent. */
  lemma BudgetIsSpent(remainingCap: real, price: real)
    requires 0.0 <= remainingCap
    ensures var m, r := Max(price, 0.01), BudgetCappedSize(remainingCap, price);
      IsWhole(r) && remainingCap < r * m + m
  {
    WholeSharesThatFit(remainingCap, Max(price, 0.01));
    QuantizeWhole((remainingCap / Max(price, 0.01)).Floor);
  }

  /** The two cuts, kept out of sight where only their bounds matter. */
  ghost predicate BudgetCut(remainingCap: real, price: real, size: real) {
    forall n: nat {:trigger Look(AboutSizes, n)} :: Look(AboutSizes, n) ==> size == BudgetCappedSize(remainingCap, price)
  }

  ghost predicate NotionalCut(wanted: real, price: real, notionalCap: real, size: real) {
    forall n: nat {:trigger Look(AboutSizes, n)} :: Look(AboutSizes, n) ==> size == CapBuySizeForNotional(wanted, price, notionalCap)
  }

  method CutToBudget(remainingCap: real, price: real) returns (size: real)
    requires 0.0 <= remainingCap && 0.0 <= price
    ensures BudgetCut(remainingCap, price, size)
    ensures 0.0 <= size && price * size <= remainingCap
  {
    BudgetHolds(remainingCap, price);
    size := BudgetCappedSize(remainingCap, price);
  }

  method CutToNotional(size: real, price: real, notionalCap: real) returns (cut: real)
    requires 0.0 <= price
    ensures NotionalCut(size, price, notionalCap, cut)
    ensures cut <= size
    ensures 0.0 < size && 0.0 < notionalCap ==> price * cut <= notionalCap
  {
    cut := CapBuySizeForNotional(size, price, notionalCap);
    if 0.0 < size && 0.0 < price && 0.0 < notionalCap {
      NotionalCapHolds(size, price, notionalCap);
    }
  }

  // ----- the running totals -----

  function BuyNotional(): PaperOrder -> real {
    (o: PaperOrder) => if o.market == MARKET && o.side == Buy then o.Cost() else 0.0
  }

  /** The totals a replay carries from tick to tick. */
  datatype Totals = Totals(grossBuyFilled: real, costReleased: real, sellPnl: real, mergePnl: real, mergedPairs: real) {

    /** They are the figures of the position's own account. */
    ghost predicate Match(a: Account) {
      && grossBuyFilled == a.paid && costReleased == a.costMerged && mergedPairs == a.pairsMerged
      && sellPnl == a.sellPnl && mergePnl == a.mergePnl
    }

    function NetBuys(): real {
      Max(grossBuyFilled - costReleased, 0.0)
    }
  }

  ghost predicate OrdersSound(orders: map<OrderId, PaperOrder>) {
    forall id :: id in orders ==>
      && orders[id].orderId == id && orders[id].market == MARKET
      && 0.0 <= orders[id].price && MIN_ORDER_SHARES <= orders[id].size
  }

  /** The notional of all resting buys; stated under a trigger so that the sum is not multiplied out everywhere. */
  ghost predicate RestingIs(orders: map<OrderId, PaperOrder>, resting: real) {
    forall n: nat {:trigger Look(AboutResting, n)} :: Look(AboutResting, n) ==> resting == Sum(orders, BuyNotional())
  }

  /**
   What every step of a replay keeps: the totals are those of the account, merges have paid at least
   their cost, and buys filled net of merged cost plus buys resting stay within the cap.
   */
  ghost predicate Sound(profile: ReplayProfile, a: Account, orders: map<OrderId, PaperOrder>, resting: real, t: Totals) {
    && t.Match(a)
    && (0.0 <= profile.mergeMinProfitPerPair ==> a.costMerged <= a.pairsMerged)
    && OrdersSound(orders) && RestingIs(orders, resting) && 0.0 <= resting
    && a.paid - a.costMerged + resting <= LossCap(profile)
  }

  // ----- fills -----

  function EventOf(o: PaperOrder): Event {
    FillEvent(o.side, o.outcome, o.price, o.size)
  }

  function FillEvents(s: seq<PaperOrder>): seq<Event> {
    seq(|s|, i requires 0 <= i < |s| => EventOf(s[i]))
  }

  lemma FillEventsGrow(s: seq<PaperOrder>, i: nat)
    requires i < |s|
    ensures FillEvents(s[..i + 1]) == FillEvents(s[..i]) + [EventOf(s[i])]
    ensures SeqSum(s[..i + 1], BuyNotional()) == SeqSum(s[..i], BuyNotional()) + BuyNotional()(s[i])
  {
    assert s[..i + 1][..i] == s[..i];
  }

  ghost predicate SoundFills(s: seq<PaperOrder>) {
    forall o :: o in s ==> o.market == MARKET && 0.0 <= o.price && MIN_ORDER_SHARES <= o.size
  }

  /** A fill of this market pays exactly its notional and merges nothing. */
  lemma FillCredit(a: Account, h: Holding, o: PaperOrder)
    requires o.market == MARKET
    ensures var b := a.Credit(h, EventOf(o));
      && b.paid == a.paid + BuyNotional()(o)
      && b.costMerged == a.costMerged && b.pairsMerged == a.pairsMerged && b.mergePnl == a.mergePnl
      && b.sellPnl == a.sellPnl + SellPnlBy(h, EventOf(o))
  {
  }

  // ----- orders leaving and entering -----

  lemma NotionalNonNegative(o: PaperOrder)
    requires 0.0 <= o.price && 0.0 <= o.size
    ensures 0.0 <= BuyNotional()(o)
  {
    MulNonNegative(o.price, o.size);
  }

  lemma RestingNonNegative(orders: map<OrderId, PaperOrder>)
    requires OrdersSound(orders)
    ensures 0.0 <= Sum(orders, BuyNotional())
  {
    forall id | id in orders ensures 0.0 <= BuyNotional()(orders[id]) {
      NotionalNonNegative(orders[id]);
    }
    SumNonNegative(orders, BuyNotional());
  }

  /** Taking listed orders out of the map takes exactly their notional out of the sum. */
  lemma {:induction false} SumWithout(orders: map<OrderId, PaperOrder>, s: seq<PaperOrder>, w: PaperOrder -> real)
    requires DistinctIds(s) && forall o :: o in s ==> o.orderId in orders && orders[o.orderId] == o
    ensures Sum(orders - Ids(s), w) + SeqSum(s, w) == Sum(orders, w)
  {
    if s == [] {
      assert orders - Ids(s) == orders;
    } else {
      var k := |s| - 1;
      SumWithout(orders, s[..k], w);
      IdsGrow(s, k);
      assert s[..k + 1] == s;
      MinusTwice(orders, Ids(s[..k]), {s[k].orderId});
      SumRemove(orders - Ids(s[..k]), w, s[k].orderId);
    }
  }

  lemma {:induction false} SeqSumNonNegative(s: seq<PaperOrder>)
    requires SoundFills(s)
    ensures 0.0 <= SeqSum(s, BuyNotional())
  {
    if s != [] {
      SeqSumNonNegative(s[..|s| - 1]);
      NotionalNonNegative(s[|s| - 1]);
    }
  }

  /** Cancelled orders take their notional with them. */
  lemma CancelSound(profile: ReplayProfile, a: Account, orders: map<OrderId, PaperOrder>, resting: real, t: Totals,
                    gone: seq<PaperOrder>)
    returns (resting': real)
    requires Sound(profile, a, orders, resting, t)
    requires DistinctIds(gone) && forall o :: o in gone ==> o.orderId in orders && orders[o.orderId] == o
    ensures Sound(profile, a, orders - Ids(gone), resting', t)
  {
    assert Look(AboutResting, 0);
    resting' := Sum(orders - Ids(gone), BuyNotional());
    SumWithout(orders, gone, BuyNotional());
    SeqSumNonNegative(gone);
    RestingNonNegative(orders - Ids(gone));
  }

  /** A tick of fills and rejections: what is filled is no longer resting, what is rejected is just gone. */
  lemma FillSound(profile: ReplayProfile, a: Account, orders: map<OrderId, PaperOrder>, resting: real, t: Totals,
                  done: seq<PaperOrder>, refused: seq<PaperOrder>, a': Account, t': Totals)
    returns (resting': real)
    requires Sound(profile, a, orders, resting, t)
    requires Selection(done, orders, MARKET) && Selection(refused, orders, MARKET) && Ids(done) !! Ids(refused)
    requires a'.paid == a.paid + SeqSum(done, BuyNotional())
    requires a'.costMerged == a.costMerged && a'.pairsMerged == a.pairsMerged
    requires t'.Match(a')
    ensures Sound(profile, a', orders - (Ids(done) + Ids(refused)), resting', t')
  {
    assert Look(AboutResting, 0);
    SumWithout(orders, done, BuyNotional());
    MinusTwice(orders, Ids(done), Ids(refused));
    var left := orders - Ids(done);
    forall o | o in refused ensures o.orderId in left && left[o.orderId] == o {
      assert o.orderId in Ids(refused);
    }
    SumWithout(left, refused, BuyNotional());
    SeqSumNonNegative(refused);
    resting' := Sum(orders - (Ids(done) + Ids(refused)), BuyNotional());
    RestingNonNegative(orders - (Ids(done) + Ids(refused)));
  }

  /** A new order adds its notional if it is a buy, and is only placed where the cap has room. */
  lemma PlaceSound(profile: ReplayProfile, a: Account, orders: map<OrderId, PaperOrder>, resting: real, t: Totals,
                   o: PaperOrder, cost: real)
    requires Sound(profile, a, orders, resting, t)
    requires o.orderId !in orders && o.market == MARKET && 0.0 <= o.price && MIN_ORDER_SHARES <= o.size
    requires cost == if o.side == Buy then o.Cost() else 0.0
    requires o.side == Buy ==> t.NetBuys() + resting + cost <= LossCap(profile)
    ensures Sound(profile, a, orders[o.orderId := o], resting + cost, t)
  {
    assert Look(AboutResting, 0);
    SumInsert(orders, BuyNotional(), o.orderId, o);
    NotionalNonNegative(o);
  }

  // ----- filled orders are what was paid for -----

  /** The terms of the given orders. */
  ghost function OrdersOf(issued: map<OrderId, PaperOrder>, ids: set<OrderId>): map<OrderId, PaperOrder> {
    map id | id in issued && id in ids :: issued[id]
  }

  /** The money a position has paid is the notional of the buys the simulator has filled, to the cent. */
  ghost predicate PaidIsFilled(issued: map<OrderId, PaperOrder>, filled: set<OrderId>, paid: real) {
    forall n: nat {:trigger Look(AboutPayments, n)} :: Look(AboutPayments, n) ==> paid == Sum(OrdersOf(issued, filled), BuyNotional())
  }

  lemma FillsArePaid(issued: map<OrderId, PaperOrder>, filled: set<OrderId>, paid: real, orders: map<OrderId, PaperOrder>,
                     done: seq<PaperOrder>, filled': set<OrderId>, paid': real)
    requires PaidIsFilled(issued, filled, paid)
    requires orders.Keys !! filled && forall id :: id in orders ==> id in issued && issued[id] == orders[id]
    requires Selection(done, orders, MARKET)
    requires filled' == filled + Ids(done) && paid' == paid + SeqSum(done, BuyNotional())
    ensures PaidIsFilled(issued, filled', paid')
  {
    assert Look(AboutPayments, 0);
    var all := OrdersOf(issued, filled');
    forall o | o in done ensures o.orderId in all && all[o.orderId] == o {
      assert o.orderId in Ids(done);
    }
    SumWithout(all, done, BuyNotional());
    assert all - Ids(done) == OrdersOf(issued, filled);
  }

  lemma PlacingPaysNothing(issued: map<OrderId, PaperOrder>, filled: set<OrderId>, paid: real, o: PaperOrder)
    requires PaidIsFilled(issued, filled, paid) && filled <= issued.Keys && o.orderId !in issued
    ensures PaidIsFilled(issued[o.orderId := o], filled, paid)
  {
    assert Look(AboutPayments, 0);
    assert OrdersOf(issued[o.orderId := o], filled) == OrdersOf(issued, filled);
  }

  lemma MergePays(h: Holding, pairs: real, minProfit: real)
    requires h.Valid() && 0.0 <= pairs <= h.Pairs() && minProfit <= 1.0 - h.AvgCombined()
    ensures PairsBy(h, Merged(pairs)) == pairs
    ensures 0.0 <= CostMergedBy(h, Merged(pairs)) == pairs * h.AvgCombined()
    ensures 0.0 <= minProfit ==> CostMergedBy(h, Merged(pairs)) <= pairs
  {
    StepNonNegative(h, Merged(pairs));
    var cost := h.AvgCombined();
    if 0.0 <= minProfit {
      MulMonotone(pairs, cost, 1.0);
    }
  }

  /** A merge at or above the configured profit releases no more cost than it pays out. */
  lemma MergeSound(profile: ReplayProfile, a: Account, orders: map<OrderId, PaperOrder>, resting: real, t: Totals,
                   pairs: real, cost: real, a': Account, t': Totals)
    requires Sound(profile, a, orders, resting, t)
    requires 0.0 <= cost && (0.0 <= profile.mergeMinProfitPerPair ==> cost <= pairs)
    requires a'.paid == a.paid && a'.costMerged == a.costMerged + cost && a'.pairsMerged == a.pairsMerged + pairs
    requires t'.Match(a')
    ensures Sound(profile, a', orders, resting, t')
  {
  }

  // ----- the imbalance guard and the position -----

  /** The position after the fills of a tick. */
  ghost function AfterFills(h: Holding, fills: seq<PaperOrder>): Holding {
    if fills == [] then h else After(AfterFills(h, fills[..|fills| - 1]), EventOf(fills[|fills| - 1]))
  }

  lemma {:induction false} FoldFills(es: seq<Event>, s: seq<PaperOrder>)
    ensures Fold(es + FillEvents(s)) == AfterFills(Fold(es), s)
  {
    if s == [] {
      assert es + FillEvents(s) == es;
    } else {
      var k := |s| - 1;
      FoldFills(es, s[..k]);
      FillEventsGrow(s, k);
      assert s[..k + 1] == s;
      assert es + FillEvents(s) == (es + FillEvents(s[..k])) + [EventOf(s[k])];
      assert (es + FillEvents(s))[..|es| + k] == es + FillEvents(s[..k]);
    }
  }

  lemma BuyAddsCost(g: Holding, r: Run, o: PaperOrder)
    requires o.side == Buy && g.yes.spent == r.yesCost && g.no.spent == r.noCost
    ensures var g' := After(g, EventOf(o));
      g'.yes.spent == r.Accept(o).yesCost && g'.no.spent == r.Accept(o).noCost
  {
  }

  /** On a tick that offers no sell, the simulator's running costs are the costs of the position after the fills. */
  lemma {:induction false} RunningCostsArePositionCosts(h: Holding, cands: seq<PaperOrder>, limit: Option<real>)
    requires forall o :: o in cands ==> o.side == Buy
    ensures var r := Execute(cands, limit, h.yes.spent, h.no.spent);
      var g := AfterFills(h, r.fills);
      g.yes.spent == r.yesCost && g.no.spent == r.noCost
  {
    if cands != [] {
      var init, o := cands[..|cands| - 1], cands[|cands| - 1];
      RunningCostsArePositionCosts(h, init, limit);
      var before := Execute(init, limit, h.yes.spent, h.no.spent);
      if !before.Blocks(o, limit) {
        BuyAddsCost(AfterFills(h, before.fills), before, o);
        assert (before.fills + [o])[..|before.fills|] == before.fills;
      }
    }
  }

  function CostOf(r: Run, o: Outcome): real {
    if o.Yes? then r.yesCost else r.noCost
  }

  /** How far one accepted order drives the two apart: the sale price, down to an empty cost, against the average cost. */
  ghost function OrderDrift(g: Holding, r: Run, o: PaperOrder, side: Outcome): real {
    if o.side == Buy || o.outcome != side then 0.0
    else Min(o.Cost(), CostOf(r, side)) - g.Side(side).Avg() * SoldQty(g, side, o.size)
  }

  /** The same summed over all orders a tick fills. */
  ghost function Drift(h: Holding, cands: seq<PaperOrder>, limit: Option<real>, side: Outcome): real {
    if cands == [] then 0.0
    else
      var init, o := cands[..|cands| - 1], cands[|cands| - 1];
      var before := Execute(init, limit, h.yes.spent, h.no.spent);
      Drift(h, init, limit, side)
      + if before.Blocks(o, limit) then 0.0 else OrderDrift(AfterFills(h, before.fills), before, o, side)
  }

  lemma DriftOfBuy(g: Holding, r: Run, o: PaperOrder, side: Outcome)
    requires o.side == Buy
    ensures After(g, EventOf(o)).Side(side).spent - g.Side(side).spent == CostOf(r.Accept(o), side) - CostOf(r, side)
  {
    if o.outcome != side {
      assert After(g, EventOf(o)).Side(side) == g.Side(side);
    }
  }

  lemma DriftOfSell(g: Holding, r: Run, o: PaperOrder, side: Outcome)
    requires o.side == Sell
    ensures After(g, EventOf(o)).Side(side).spent - g.Side(side).spent
            == CostOf(r.Accept(o), side) - CostOf(r, side) + OrderDrift(g, r, o, side)
  {
    if o.outcome != side {
      assert After(g, EventOf(o)).Side(side) == g.Side(side);
    } else {
      assert After(g, EventOf(o)).Side(side) == g.Side(side).Release(SoldQty(g, side, o.size));
    }
  }

  lemma DriftOfOrder(g: Holding, r: Run, o: PaperOrder, side: Outcome, drift: real)
    requires g.Side(side).spent == CostOf(r, side) + drift
    ensures After(g, EventOf(o)).Side(side).spent == CostOf(r.Accept(o), side) + drift + OrderDrift(g, r, o, side)
  {
    if o.side == Buy {
      DriftOfBuy(g, r, o, side);
    } else {
      DriftOfSell(g, r, o, side);
    }
  }

  /**
   On any tick, with or without sells, the position's cost of a side is the simulator's running cost plus the
   drift of the sells: the two agree exactly when every sale's proceeds make up for the cost it released.
   */
  lemma {:induction false} DriftIsExact(h: Holding, cands: seq<PaperOrder>, limit: Option<real>, side: Outcome)
    ensures var r := Execute(cands, limit, h.yes.spent, h.no.spent);
      AfterFills(h, r.fills).Side(side).spent == CostOf(r, side) + Drift(h, cands, limit, side)
  {
    if cands != [] {
      var init, o := cands[..|cands| - 1], cands[|cands| - 1];
      DriftIsExact(h, init, limit, side);
      var before := Execute(init, limit, h.yes.spent, h.no.spent);
      if !before.Blocks(o, limit) {
        DriftOfOrder(AfterFills(h, before.fills), before, o, side, Drift(h, init, limit, side));
        assert (before.fills + [o])[..|before.fills|] == before.fills;
      }
    }
  }

  // ----- exactly when they agree -----

  /** Dollars, and shares, of the sells of one side that a tick offers. */
  function SellCost(cands: seq<PaperOrder>, side: Outcome): real {
    if cands == [] then 0.0
    else
      var o := cands[|cands| - 1];
      SellCost(cands[..|cands| - 1], side) + if o.side == Sell && o.outcome == side then o.Cost() else 0.0
  }

  function SellSize(cands: seq<PaperOrder>, side: Outcome): real {
    if cands == [] then 0.0
    else
      var o := cands[|cands| - 1];
      SellSize(cands[..|cands| - 1], side) + if o.side == Sell && o.outcome == side then o.size else 0.0
  }

  ghost predicate Priced(cands: seq<PaperOrder>) {
    forall o :: o in cands ==> 0.0 <= o.price && 0.0 <= o.size && 0.0 <= o.Cost()
  }

  ghost predicate NoBuysOf(cands: seq<PaperOrder>, side: Outcome) {
    forall o :: o in cands ==> !(o.side == Buy && o.outcome == side)
  }

  /** No sell of the side is offered behind a buy of the same side. */
  ghost predicate SellsFirst(cands: seq<PaperOrder>, side: Outcome) {
    forall i, j :: 0 <= i < j < |cands| && cands[j].side == Sell && cands[j].outcome == side ==>
      !(cands[i].side == Buy && cands[i].outcome == side)
  }

  lemma SellsAdd(cands: seq<PaperOrder>, side: Outcome)
    requires Priced(cands)
    ensures 0.0 <= SellCost(cands, side) && 0.0 <= SellSize(cands, side)
  {
    if cands != [] {
      SellsAdd(cands[..|cands| - 1], side);
      assert cands[|cands| - 1] in cands;
    }
  }

  /** A leg and its running cost after sells of `size` shares for `proceeds` dollars. */
  ghost predicate SoldDown(l: Leg, proceeds: real, size: real, cost: real, g: Leg) {
    forall n: nat {:trigger Look(AboutPayments, n)} :: Look(AboutPayments, n) ==>
      cost == Max(l.spent - proceeds, 0.0) && g == l.Release(Min(size, l.qty))
  }

  lemma NotSoldYet(l: Leg)
    requires l.Valid()
    ensures SoldDown(l, 0.0, 0.0, l.spent, l)
  {
    ReleaseNothing(l);
  }

  lemma OneMoreSell(l: Leg, proceeds: real, size: real, cost: real, g: Leg, more: real, shares: real)
    requires l.Valid() && 0.0 <= proceeds && 0.0 <= size && 0.0 <= more && 0.0 <= shares
    requires SoldDown(l, proceeds, size, cost, g)
    ensures SoldDown(l, proceeds + more, size + shares, cost - Min(more, cost), g.Release(Max(Min(shares, g.qty), 0.0)))
  {
    assert Look(AboutPayments, 0);
    ReleasesAdd(l, Min(size, l.qty), Max(Min(shares, g.qty), 0.0));
  }

  /** What one order does to a side, on the position and on the running cost. */
  lemma SideAfter(g: Holding, r: Run, o: PaperOrder, side: Outcome)
    ensures o.outcome != side ==>
              After(g, EventOf(o)).Side(side) == g.Side(side) && CostOf(r.Accept(o), side) == CostOf(r, side)
    ensures o.side == Sell && o.outcome == side ==>
              && After(g, EventOf(o)).Side(side) == g.Side(side).Release(Max(Min(o.size, g.Side(side).qty), 0.0))
              && CostOf(r.Accept(o), side) == CostOf(r, side) - Min(o.Cost(), CostOf(r, side))
  {
  }

  /** The run of a tick, and the position after it, one order further. */
  lemma OneOrderFurther(h: Holding, cands: seq<PaperOrder>, limit: Option<real>)
    requires cands != []
    ensures var init, o := cands[..|cands| - 1], cands[|cands| - 1];
      var before, r := Execute(init, limit, h.yes.spent, h.no.spent), Execute(cands, limit, h.yes.spent, h.no.spent);
      && r == (if before.Blocks(o, limit) then before else before.Accept(o))
      && AfterFills(h, r.fills) == (if before.Blocks(o, limit) then AfterFills(h, before.fills)
                                    else After(AfterFills(h, before.fills), EventOf(o)))
  {
    var init, o := cands[..|cands| - 1], cands[|cands| - 1];
    var before := Execute(init, limit, h.yes.spent, h.no.spent);
    assert (before.fills + [o])[..|before.fills|] == before.fills;
  }

  /** Where a tick offers no buys of a side, its sells take shares at average cost and proceeds off the running cost. */
  lemma {:induction false} OnlySells(h: Holding, cands: seq<PaperOrder>, limit: Option<real>, side: Outcome)
    requires h.Valid() && Priced(cands) && NoBuysOf(cands, side)
    ensures var r := Execute(cands, limit, h.yes.spent, h.no.spent);
      SoldDown(h.Side(side), SellCost(cands, side), SellSize(cands, side), CostOf(r, side), AfterFills(h, r.fills).Side(side))
  {
    if cands == [] {
      NotSoldYet(h.Side(side));
    } else {
      var init, o := cands[..|cands| - 1], cands[|cands| - 1];
      assert o in cands && cands == init + [o];
      OnlySells(h, init, limit, side);
      SellsAdd(init, side);
      OneOrderFurther(h, cands, limit);
      var before := Execute(init, limit, h.yes.spent, h.no.spent);
      SellOrNot(h.Side(side), init, AfterFills(h, before.fills), before, o, side, before.Blocks(o, limit));
    }
  }

  lemma SellOrNot(l: Leg, init: seq<PaperOrder>, g: Holding, r: Run, o: PaperOrder, side: Outcome, blocked: bool)
    requires l.Valid() && 0.0 <= SellCost(init, side) && 0.0 <= SellSize(init, side) && 0.0 <= o.size && 0.0 <= o.Cost()
    requires SoldDown(l, SellCost(init, side), SellSize(init, side), CostOf(r, side), g.Side(side))
    requires !(o.side == Buy && o.outcome == side) && (blocked ==> o.side == Buy)
    ensures var g' := if blocked then g else After(g, EventOf(o));
      var r' := if blocked then r else r.Accept(o);
      SoldDown(l, SellCost(init + [o], side), SellSize(init + [o], side), CostOf(r', side), g'.Side(side))
  {
    assert (init + [o])[..|init|] == init;
    SideAfter(g, r, o, side);
    if o.outcome == side {
      OneMoreSell(l, SellCost(init, side), SellSize(init, side), CostOf(r, side), g.Side(side), o.Cost(), o.size);
    }
  }

  /** What the two differ by after sells of a side; out of sight until the products are needed. */
  ghost predicate IsGap(l: Leg, proceeds: real, size: real, gap: real) {
    forall n: nat {:trigger Look(AboutPayments, n)} :: Look(AboutPayments, n) ==>
      gap == Min(proceeds, l.spent) - l.Avg() * Min(size, l.qty)
  }

  lemma GapOfSoldDown(l: Leg, proceeds: real, size: real, cost: real, g: Leg)
    requires SoldDown(l, proceeds, size, cost, g)
    ensures IsGap(l, proceeds, size, g.spent - cost)
  {
    assert Look(AboutPayments, 0);
  }

  lemma SameSells(init: seq<PaperOrder>, o: PaperOrder, side: Outcome)
    requires !(o.side == Sell && o.outcome == side)
    ensures SellCost(init + [o], side) == SellCost(init, side) && SellSize(init + [o], side) == SellSize(init, side)
  {
    assert (init + [o])[..|init|] == init;
  }

  /** Cost of a side after a tick: the position's less the running one. */
  ghost function GapAfter(h: Holding, cands: seq<PaperOrder>, limit: Option<real>, side: Outcome): real {
    var r := Execute(cands, limit, h.yes.spent, h.no.spent);
    AfterFills(h, r.fills).Side(side).spent - CostOf(r, side)
  }

  /** The gap a tick opens between the two, in terms of the opening position and of the offered sells alone. */
  lemma {:induction false} GapOfSells(h: Holding, cands: seq<PaperOrder>, limit: Option<real>, side: Outcome)
    requires h.Valid() && Priced(cands) && SellsFirst(cands, side)
    ensures IsGap(h.Side(side), SellCost(cands, side), SellSize(cands, side), GapAfter(h, cands, limit, side))
  {
    if cands == [] {
      NoSellsNoGap(h.Side(side));
    } else {
      var init, o := cands[..|cands| - 1], cands[|cands| - 1];
      assert cands == init + [o];
      if o.side == Sell && o.outcome == side {
        forall x | x in cands ensures !(x.side == Buy && x.outcome == side) {
          var i :| 0 <= i < |cands| && cands[i] == x;
        }
        OnlySells(h, cands, limit, side);
        var r := Execute(cands, limit, h.yes.spent, h.no.spent);
        GapOfSoldDown(h.Side(side), SellCost(cands, side), SellSize(cands, side), CostOf(r, side), AfterFills(h, r.fills).Side(side));
      } else {
        GapOfSells(h, init, limit, side);
        SameSells(init, o, side);
        SameGap(h, cands, limit, side);
      }
    }
  }

  lemma {:induction false} SameGap(h: Holding, cands: seq<PaperOrder>, limit: Option<real>, side: Outcome)
    requires cands != [] && !(cands[|cands| - 1].side == Sell && cands[|cands| - 1].outcome == side)
    ensures GapAfter(h, cands, limit, side) == GapAfter(h, cands[..|cands| - 1], limit, side)
  {
    var o := cands[|cands| - 1];
    OneOrderFurther(h, cands, limit);
    var before := Execute(cands[..|cands| - 1], limit, h.yes.spent, h.no.spent);
    GapStays(AfterFills(h, before.fills), before, o, side);
  }

  lemma NoSellsNoGap(l: Leg)
    requires l.Valid()
    ensures IsGap(l, 0.0, 0.0, 0.0)
  {
  }

  /** A buy, or an order of the other side, moves both alike. */
  lemma GapStays(g: Holding, r: Run, o: PaperOrder, side: Outcome)
    requires !(o.side == Sell && o.outcome == side)
    ensures After(g, EventOf(o)).Side(side).spent - CostOf(r.Accept(o), side) == g.Side(side).spent - CostOf(r, side)
  {
    if o.side == Buy {
      DriftOfBuy(g, r, o, side);
    } else {
      SideAfter(g, r, o, side);
    }
  }

  /**
   With sells on offer the guard's running cost is the position's cost exactly when the proceeds of the side's sells,
   as far as the side has cost, equal the average cost of the shares that really leave.
   */
  lemma GuardAgreesExactly(h: Holding, cands: seq<PaperOrder>, limit: Option<real>, side: Outcome)
    requires h.Valid() && Priced(cands) && SellsFirst(cands, side)
    ensures var r := Execute(cands, limit, h.yes.spent, h.no.spent);
      AfterFills(h, r.fills).Side(side).spent == CostOf(r, side)
      <==> ProceedsMakeUp(h.Side(side), SellCost(cands, side), SellSize(cands, side))
  {
    GapOfSells(h, cands, limit, side);
    GapCloses(h.Side(side), SellCost(cands, side), SellSize(cands, side), GapAfter(h, cands, limit, side));
  }

  /** The condition of `GuardAgreesExactly`, on the opening leg and the totals of the offered sells. */
  ghost predicate ProceedsMakeUp(l: Leg, proceeds: real, size: real) {
    forall n: nat {:trigger Look(AboutPayments, n)} :: Look(AboutPayments, n) ==>
      Min(proceeds, l.spent) == l.Avg() * Min(size, l.qty)
  }

  lemma GapCloses(l: Leg, proceeds: real, size: real, gap: real)
    requires IsGap(l, proceeds, size, gap)
    ensures gap == 0.0 <==> ProceedsMakeUp(l, proceeds, size)
  {
    assert Look(AboutPayments, 0);
  }

  /** A sell that qualifies is always filled, so a tick without sell fills had none to offer. */
  lemma {:induction false} NoSellOffered(cands: seq<PaperOrder>, limit: Option<real>, y: real, n: real)
    requires forall o :: o in Execute(cands, limit, y, n).fills ==> o.side == Buy
    ensures forall o :: o in cands ==> o.side == Buy
  {
    if cands != [] {
      var before, r := Execute(cands[..|cands| - 1], limit, y, n), Execute(cands, limit, y, n);
      var last := cands[|cands| - 1];
      assert forall x :: x in before.fills ==> x in r.fills;
      NoSellOffered(cands[..|cands| - 1], limit, y, n);
      assert last.side == Sell ==> last in r.fills;
    }
  }

  /** So an imbalance that starts a tick within the limit ends it within the limit, whatever crossed. */
  lemma ImbalanceStaysWithin(h: Holding, cands: seq<PaperOrder>, limit: real)
    requires Abs(h.yes.spent - h.no.spent) <= limit
    requires forall o :: o in Execute(cands, Some(limit), h.yes.spent, h.no.spent).fills ==> o.side == Buy
    ensures var g := AfterFills(h, Execute(cands, Some(limit), h.yes.spent, h.no.spent).fills);
      Abs(g.yes.spent - g.no.spent) <= limit
  {
    NoSellOffered(cands, Some(limit), h.yes.spent, h.no.spent);
    BuyTickStaysWithin(cands, limit, h.yes.spent, h.no.spent);
    RunningCostsArePositionCosts(h, cands, Some(limit));
  }

  const CROSSED_SELL: PaperOrder := PaperOrder("s", MARKET, Yes, 0.9, 10.0, Sell, 0)
  const CROSSED_BUY: PaperOrder := PaperOrder("b", MARKET, Yes, 0.8, 15.0, Buy, 0)

  /** The fair value of YES jumps over a resting sell while the ask falls under a resting buy, both five seconds old. */
  const CROSSING_TICK: Tick :=
    Tick(MARKET, PaperSim.Book(Some(0.75), None, None, None), Some((0.5, 0.5)), (0.95, 0.05), false, 5 * NANOS_PER_SEC)

  /**
   With sells in the same tick the promise fails: the guard takes the sale price off its running cost,
   the position only gives up average cost. Here the tick starts balanced and ends 7 apart under a limit of 5.
   */
  lemma SellsCanBreakTheGuard()
    ensures Offered(CROSSING_TICK, map["s" := CROSSED_SELL, "b" := CROSSED_BUY], [CROSSED_SELL, CROSSED_BUY], [])
    ensures var h := Holding(Leg(20.0, 10.0), Leg(20.0, 10.0));
      var r := Execute([CROSSED_SELL, CROSSED_BUY], Some(5.0), h.yes.spent, h.no.spent);
      var g := AfterFills(h, r.fills);
      && Abs(h.yes.spent - h.no.spent) == 0.0
      && r.fills == [CROSSED_SELL, CROSSED_BUY] && r.Imbalance() == 3.0
      && Abs(g.yes.spent - g.no.spent) == 7.0
  {
    var h := Holding(Leg(20.0, 10.0), Leg(20.0, 10.0));
    ExecuteTwo(CROSSED_SELL, CROSSED_BUY, Some(5.0), 10.0, 10.0);
    AfterTwo(h, CROSSED_SELL, CROSSED_BUY);
    assert h.yes.Avg() == 0.5;
    assert CROSSED_SELL.Cost() == 9.0 && CROSSED_BUY.Cost() == 12.0;
    BothOffered();
  }

  lemma BothOffered()
    ensures Offered(CROSSING_TICK, map["s" := CROSSED_SELL, "b" := CROSSED_BUY], [CROSSED_SELL, CROSSED_BUY], [])
  {
    var t, cands := CROSSING_TICK, [CROSSED_SELL, CROSSED_BUY];
    assert t.Fills(CROSSED_SELL) && t.Fills(CROSSED_BUY) && !t.Rejects(CROSSED_SELL) && !t.Rejects(CROSSED_BUY);
    assert CROSSED_SELL in cands && CROSSED_BUY in cands;
  }

  lemma ExecuteTwo(a: PaperOrder, b: PaperOrder, limit: Option<real>, y: real, n: real)
    ensures Execute([a, b], limit, y, n) == Run(y, n, []).Offer(a, limit).Offer(b, limit)
  {
    assert [a, b][..1] == [a] && [a][..0] == [];
    assert Execute([a], limit, y, n) == Run(y, n, []).Offer(a, limit);
  }

  lemma AfterTwo(h: Holding, a: PaperOrder, b: PaperOrder)
    ensures AfterFills(h, [a, b]) == After(After(h, EventOf(a)), EventOf(b))
  {
    assert [a, b][..1] == [a] && [a][..0] == [];
    assert AfterFills(h, [a]) == After(h, EventOf(a));
  }
}
