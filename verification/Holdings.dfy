/**
 Average-cost accounting of a YES/NO position, on values.

 A position is the quantity of each token and the money spent on what is still
 held. It changes by buys, by sells (at most what is held, at the average cost
 of the side) and by merges (a YES and a NO token are turned back into one
 dollar, at the average cost of both sides). A run of a position is the
 sequence of these events. Money paid and received is read off the events alone,
 so it is an independent account of what the profit figures should add up to.
 */
module Holdings {
  import opened Common

  /** One side of a position: shares held and what is still booked as spent on them. */
  datatype Leg = Leg(qty: real, spent: real) {

    function Avg(): real {
      if qty > 0.0 then spent / qty else 0.0
    }

    function Add(q: real, cost: real): Leg {
      Leg(qty + q, spent + cost)
    }

    /** Take `q` shares out at the average cost. */
    function Release(q: real): Leg {
      Leg(qty - q, spent - Avg() * q)
    }

    /** Nothing is negative, and an empty side carries no cost. */
    ghost predicate Valid() {
      0.0 <= qty && 0.0 <= spent && (qty == 0.0 ==> spent == 0.0)
    }
  }

  datatype Holding = Holding(yes: Leg, no: Leg) {

    function Side(o: Outcome): Leg {
      if o.Yes? then yes else no
    }

    function WithSide(o: Outcome, leg: Leg): Holding {
      if o.Yes? then Holding(leg, no) else Holding(yes, leg)
    }

    function AvgCombined(): real {
      yes.Avg() + no.Avg()
    }

    function Pairs(): real {
      Min(yes.qty, no.qty)
    }

    function TotalQty(): real {
      yes.qty + no.qty
    }

    function Excess(): real {
      yes.qty - no.qty
    }

    function Heavy(): Option<Outcome> {
      if yes.qty > no.qty then Some(Yes) else if no.qty > yes.qty then Some(No) else None
    }

    function Light(): Option<Outcome> {
      if yes.qty < no.qty then Some(Yes) else if no.qty < yes.qty then Some(No) else None
    }

    function LockedProfit(): real {
      if Pairs() > 0.0 then Pairs() * (1.0 - AvgCombined()) else 0.0
    }

    /** What an accountant calls the book value: everything spent on tokens still held. */
    function Book(): real {
      yes.spent + no.spent
    }

    ghost predicate Valid() {
      yes.Valid() && no.Valid()
    }
  }

  const EMPTY: Holding := Holding(Leg(0.0, 0.0), Leg(0.0, 0.0))

  datatype Event =
    | Bought(outcome: Outcome, price: real, size: real)
    | Sold(outcome: Outcome, price: real, size: real)
    | Merged(pairs: real)
  {
    /** Buys carry a size and no negative price, sells no negative price. */
    ghost predicate WellFormed() {
      match this
      case Bought(_, price, size) => 0.0 <= price && 0.0 < size
      case Sold(_, price, _) => 0.0 <= price
      case Merged(_) => true
    }
  }

  /** Shares a sell really takes out of the position. */
  function SoldQty(h: Holding, o: Outcome, size: real): real {
    Max(Min(size, h.Side(o).qty), 0.0)
  }

  /** Pairs a merge really takes out of the position. */
  function MergedQty(h: Holding, pairs: real): real {
    Max(Min(pairs, h.Pairs()), 0.0)
  }

  /** A merge takes shares out of a leg at the average cost, and never books a negative cost. */
  function MergeLeg(l: Leg, k: real): Leg {
    Leg(l.qty - k, Max(l.spent - l.Avg() * k, 0.0))
  }

  function AfterBuy(h: Holding, o: Outcome, price: real, size: real): Holding {
    h.WithSide(o, h.Side(o).Add(size, price * size))
  }

  function AfterSell(h: Holding, o: Outcome, size: real): Holding {
    h.WithSide(o, h.Side(o).Release(SoldQty(h, o, size)))
  }

  function AfterMerge(h: Holding, pairs: real): Holding {
    var k := MergedQty(h, pairs);
    if k <= 0.0 then h else Holding(MergeLeg(h.yes, k), MergeLeg(h.no, k))
  }

  function SellRealized(h: Holding, o: Outcome, price: real, size: real): real {
    (price - h.Side(o).Avg()) * SoldQty(h, o, size)
  }

  function MergeRealized(h: Holding, pairs: real): real {
    MergedQty(h, pairs) * (1.0 - h.AvgCombined())
  }

  function After(h: Holding, e: Event): Holding {
    match e
    case Bought(o, price, size) => AfterBuy(h, o, price, size)
    case Sold(o, _, size) => AfterSell(h, o, size)
    case Merged(pairs) => AfterMerge(h, pairs)
  }

  // ----- runs -----

  ghost predicate WellFormed(es: seq<Event>) {
    forall i :: 0 <= i < |es| ==> es[i].WellFormed()
  }

  /** The position a run of events leads to. */
  ghost function Fold(es: seq<Event>): Holding {
    if es == [] then EMPTY else After(Fold(es[..|es| - 1]), es[|es| - 1])
  }

  function PaidBy(e: Event): real {
    if e.Bought? then e.price * e.size else 0.0
  }

  function ProceedsBy(h: Holding, e: Event): real {
    if e.Sold? then e.price * SoldQty(h, e.outcome, e.size) else 0.0
  }

  function PairsBy(h: Holding, e: Event): real {
    if e.Merged? then MergedQty(h, e.pairs) else 0.0
  }

  function SellPnlBy(h: Holding, e: Event): real {
    if e.Sold? then SellRealized(h, e.outcome, e.price, e.size) else 0.0
  }

  function MergePnlBy(h: Holding, e: Event): real {
    if e.Merged? then MergeRealized(h, e.pairs) else 0.0
  }

  function CostMergedBy(h: Holding, e: Event): real {
    if e.Merged? then MergedQty(h, e.pairs) * h.AvgCombined() else 0.0
  }

  /**
   What a run adds up to. The first three are pure cash: money paid for buys, money received for shares
   really sold, and pairs merged at one dollar each. The others are what the replay books: profit over
   average cost of sells and of merges, and the cost basis that merges released.
   */
  datatype Account = Account(paid: real, proceeds: real, pairsMerged: real,
                             sellPnl: real, mergePnl: real, costMerged: real)
  {
    function Credit(h: Holding, e: Event): Account {
      Account(paid + PaidBy(e), proceeds + ProceedsBy(h, e), pairsMerged + PairsBy(h, e),
              sellPnl + SellPnlBy(h, e), mergePnl + MergePnlBy(h, e), costMerged + CostMergedBy(h, e))
    }
  }

  const NOTHING_BOOKED: Account := Account(0.0, 0.0, 0.0, 0.0, 0.0, 0.0)

  ghost function AccountOf(es: seq<Event>): Account {
    if es == [] then NOTHING_BOOKED else AccountOf(es[..|es| - 1]).Credit(Fold(es[..|es| - 1]), es[|es| - 1])
  }

  // ----- settlement -----

  datatype Resolution = Up | Down | Unresolved

  /** Profit on the unpaired excess, as the replay computes it at the end of a period. */
  function SpecPnl(h: Holding, r: Resolution): real {
    var excessYes := h.yes.qty - h.Pairs();
    var excessNo := h.no.qty - h.Pairs();
    match r
    case Up => excessYes * (1.0 - h.yes.Avg()) - excessNo * h.no.Avg()
    case Down => excessNo * (1.0 - h.no.Avg()) - excessYes * h.yes.Avg()
    case Unresolved => 0.0
  }

  /** Dollars the end position is worth: one per winning token; unresolved excess counts at cost. */
  function SettlementValue(h: Holding, r: Resolution): real {
    match r
    case Up => h.yes.qty
    case Down => h.no.qty
    case Unresolved =>
      h.Pairs() + (h.yes.qty - h.Pairs()) * h.yes.Avg() + (h.no.qty - h.Pairs()) * h.no.Avg()
  }

  // ----- facts about one leg -----

  lemma AvgTimesQty(l: Leg)
    requires l.Valid()
    ensures l.Avg() * l.qty == l.spent && 0.0 <= l.Avg()
  {
    if l.qty > 0.0 { DivMul(l.spent, l.qty); }
  }

  lemma AvgOf(l: Leg, a: real)
    requires l.qty > 0.0 && l.spent == a * l.qty
    ensures l.Avg() == a
  {
  }

  /** Taking shares out at the average cost keeps the leg valid and the average of what is left. */
  lemma ReleaseKeepsAverage(l: Leg, q: real)
    requires l.Valid() && 0.0 <= q <= l.qty
    ensures var m := l.Release(q);
      && m.Valid()
      && (m.qty > 0.0 ==> m.Avg() == l.Avg())
  {
    var m := l.Release(q);
    AvgTimesQty(l);
    MulNonNegative(l.Avg(), l.qty - q);
    assert m.spent == l.Avg() * (l.qty - q);
    if m.qty > 0.0 { AvgOf(m, l.Avg()); }
  }

  /** For a valid leg the floor at zero in a merge never bites: exactly the average cost leaves. */
  lemma MergeLegReleases(l: Leg, k: real)
    requires l.Valid() && 0.0 <= k <= l.qty
    ensures MergeLeg(l, k) == l.Release(k)
  {
    ReleaseKeepsAverage(l, k);
  }

  lemma ReleaseNothing(l: Leg)
    ensures l.Release(0.0) == l
  {
  }

  lemma ReleasesAdd(l: Leg, a: real, b: real)
    requires l.Valid() && 0.0 <= a && 0.0 <= b && a + b <= l.qty
    ensures l.Release(a).Release(b) == l.Release(a + b)
  {
    ReleaseKeepsAverage(l, a);
    if l.Release(a).qty > 0.0 {
      assert l.Avg() * a + l.Avg() * b == l.Avg() * (a + b);
    } else {
      ReleaseNothing(l.Release(a));
    }
  }

  // ----- facts about one event -----

  lemma AfterMergeReleases(h: Holding, pairs: real)
    requires h.Valid()
    ensures var k := MergedQty(h, pairs);
      0.0 <= k <= h.Pairs() && AfterMerge(h, pairs) == Holding(h.yes.Release(k), h.no.Release(k))
  {
    var k := MergedQty(h, pairs);
    MergeLegReleases(h.yes, k);
    MergeLegReleases(h.no, k);
    if k <= 0.0 {
      ReleaseNothing(h.yes);
      ReleaseNothing(h.no);
    }
  }

  /** A position that is not negative and has no cost without shares stays so under every event. */
  lemma AfterKeepsValid(h: Holding, e: Event)
    requires h.Valid() && e.WellFormed()
    ensures After(h, e).Valid()
  {
    match e
    case Bought(o, price, size) => MulNonNegative(price, size);
    case Sold(o, _, size) => ReleaseKeepsAverage(h.Side(o), SoldQty(h, o, size));
    case Merged(pairs) =>
      var k := MergedQty(h, pairs);
      AfterMergeReleases(h, pairs);
      ReleaseKeepsAverage(h.yes, k);
      ReleaseKeepsAverage(h.no, k);
  }

  // ----- merge algebra -----

  /** A merge leaves the YES-NO excess and the average cost of every side that is still held. */
  lemma MergeKeepsAverages(h: Holding, pairs: real)
    requires h.Valid()
    ensures var g := AfterMerge(h, pairs);
      && g.Valid()
      && g.Excess() == h.Excess()
      && (g.yes.qty > 0.0 ==> g.yes.Avg() == h.yes.Avg())
      && (g.no.qty > 0.0 ==> g.no.Avg() == h.no.Avg())
  {
    AfterMergeReleases(h, pairs);
    ReleaseKeepsAverage(h.yes, MergedQty(h, pairs));
    ReleaseKeepsAverage(h.no, MergedQty(h, pairs));
  }

  lemma SameFactor(x: real, a: real, b: real)
    requires a == b
    ensures x * a == x * b
  {
  }

  /** Locked profit of any position, with the profit of one pair given. */
  lemma LockedIs(h: Holding, perPair: real)
    requires 0.0 <= h.Pairs() && (0.0 < h.Pairs() ==> 1.0 - h.AvgCombined() == perPair)
    ensures h.LockedProfit() == h.Pairs() * perPair
  {
    if 0.0 < h.Pairs() {
      SameFactor(h.Pairs(), 1.0 - h.AvgCombined(), perPair);
    } else {
      assert h.Pairs() == 0.0;
    }
  }

  lemma SplitProduct(pairs: real, k: real, perPair: real)
    ensures pairs * perPair == k * perPair + (pairs - k) * perPair
  {
  }

  /** Merging only realizes profit that was already locked: nothing is gained or lost by the act. */
  lemma MergeConservesLockedProfit(h: Holding, pairs: real)
    requires h.Valid()
    ensures h.LockedProfit() == MergeRealized(h, pairs) + AfterMerge(h, pairs).LockedProfit()
  {
    var g, k := AfterMerge(h, pairs), MergedQty(h, pairs);
    assert 0.0 <= k <= h.Pairs() && g.Pairs() == h.Pairs() - k by {
      AfterMergeReleases(h, pairs);
    }
    assert 0.0 < g.Pairs() ==> g.AvgCombined() == h.AvgCombined() by {
      MergeKeepsAverages(h, pairs);
    }
    LockedMoves(h, g, pairs);
  }

  lemma LockedMoves(h: Holding, g: Holding, pairs: real)
    requires 0.0 <= MergedQty(h, pairs) <= h.Pairs() && g.Pairs() == h.Pairs() - MergedQty(h, pairs)
    requires 0.0 < g.Pairs() ==> g.AvgCombined() == h.AvgCombined()
    ensures h.LockedProfit() == MergeRealized(h, pairs) + g.LockedProfit()
  {
    var k, perPair := MergedQty(h, pairs), 1.0 - h.AvgCombined();
    LockedIs(h, perPair);
    LockedIs(g, perPair);
    SplitProduct(h.Pairs(), k, perPair);
    SameFactor(perPair, g.Pairs(), h.Pairs() - k);
  }

  lemma MergedQtyAdds(h: Holding, k1: real, k2: real)
    requires h.Valid() && 0.0 <= k1 && 0.0 <= k2
    ensures var g := AfterMerge(h, k1);
      && 0.0 <= MergedQty(h, k1) && 0.0 <= MergedQty(g, k2)
      && MergedQty(h, k1 + k2) == MergedQty(h, k1) + MergedQty(g, k2) <= h.Pairs()
  {
    AfterMergeReleases(h, k1);
  }

  /** Two merges leave the position one merge of the sum leaves. */
  lemma MergesAdd(h: Holding, k1: real, k2: real)
    requires h.Valid() && 0.0 <= k1 && 0.0 <= k2
    ensures AfterMerge(AfterMerge(h, k1), k2) == AfterMerge(h, k1 + k2)
  {
    var g := AfterMerge(h, k1);
    MergeKeepsAverages(h, k1);
    MergedQtyAdds(h, k1, k2);
    AfterMergeReleases(h, k1);
    AfterMergeReleases(g, k2);
    AfterMergeReleases(h, k1 + k2);
    ReleasesAdd(h.yes, MergedQty(h, k1), MergedQty(g, k2));
    ReleasesAdd(h.no, MergedQty(h, k1), MergedQty(g, k2));
  }

  /** Two merges realize what one merge of the sum realizes. */
  lemma MergeProfitsAdd(h: Holding, k1: real, k2: real)
    requires h.Valid() && 0.0 <= k1 && 0.0 <= k2
    ensures MergeRealized(h, k1) + MergeRealized(AfterMerge(h, k1), k2) == MergeRealized(h, k1 + k2)
  {
    MergeKeepsAverages(h, k1);
    MergesAdd(h, k1, k2);
    MergeConservesLockedProfit(h, k1);
    MergeConservesLockedProfit(AfterMerge(h, k1), k2);
    MergeConservesLockedProfit(h, k1 + k2);
  }

  // ----- whole runs -----

  /** Every reachable position is valid. */
  lemma {:induction false} FoldValid(es: seq<Event>)
    requires WellFormed(es)
    ensures Fold(es).Valid()
  {
    if es != [] {
      var init := es[..|es| - 1];
      FoldValid(init);
      AfterKeepsValid(Fold(init), es[|es| - 1]);
    }
  }

  /** One event: cash in less cash out is profit booked less the growth of the book value. */
  ghost predicate CashBalances(h: Holding, e: Event) {
    ProceedsBy(h, e) + PairsBy(h, e) - PaidBy(e) == SellPnlBy(h, e) + MergePnlBy(h, e) - After(h, e).Book() + h.Book()
  }

  lemma BuyCash(h: Holding, e: Event)
    requires e.Bought?
    ensures CashBalances(h, e)
  {
  }

  lemma SellCash(h: Holding, e: Event)
    requires e.Sold?
    ensures CashBalances(h, e)
  {
    var q, avg := SoldQty(h, e.outcome, e.size), h.Side(e.outcome).Avg();
    assert h.Book() - After(h, e).Book() == avg * q;
    assert e.price * q == (e.price - avg) * q + avg * q;
  }

  lemma MergeCash(h: Holding, e: Event)
    requires h.Valid() && e.Merged?
    ensures CashBalances(h, e)
  {
    var k := MergedQty(h, e.pairs);
    AfterMergeReleases(h, e.pairs);
    ReleasedBook(h, k);
    MergePnlIs(h, e.pairs);
  }

  lemma ReleasedBook(h: Holding, k: real)
    ensures Holding(h.yes.Release(k), h.no.Release(k)).Book() == h.Book() - k * h.AvgCombined()
  {
    SplitFactor(k, h.yes.Avg(), h.no.Avg());
  }

  lemma SplitFactor(k: real, a: real, b: real)
    ensures k * (a + b) == a * k + b * k
  {
  }

  lemma MergePnlIs(h: Holding, pairs: real)
    ensures MergeRealized(h, pairs) == MergedQty(h, pairs) - MergedQty(h, pairs) * h.AvgCombined()
  {
  }

  /** Cash in less cash out is profit booked less what is still tied up in the position. */
  lemma {:induction false} CashFlow(es: seq<Event>)
    requires WellFormed(es)
    ensures var a := AccountOf(es);
      a.proceeds + a.pairsMerged - a.paid == a.sellPnl + a.mergePnl - Fold(es).Book()
  {
    if es != [] {
      var init := es[..|es| - 1];
      CashFlow(init);
      FoldValid(init);
      var h, e := Fold(init), es[|es| - 1];
      assert CashBalances(h, e) by {
        if e.Bought? {
          BuyCash(h, e);
        } else if e.Sold? {
          SellCash(h, e);
        } else {
          MergeCash(h, e);
        }
      }
    }
  }

  /** A winner at one dollar and a loser at nothing, in scalars. */
  lemma WinnerScalars(locked: real, spec: real, k: real, w: real, l: real, aw: real, al: real, sw: real, sl: real)
    requires aw * w == sw && al * l == sl
    requires locked == k * (1.0 - (aw + al)) && spec == (w - k) * (1.0 - aw) - (l - k) * al
    ensures locked + spec == w - sw - sl
  {
    assert locked == k - k * aw - k * al;
    assert (w - k) * (1.0 - aw) == w - k - aw * w + k * aw;
    assert (l - k) * al == al * l - k * al;
  }

  /** Pairs at one dollar and everything else at cost. */
  lemma AtCostScalars(locked: real, value: real, k: real, y: real, n: real, ay: real, an: real, sy: real, sn: real)
    requires ay * y == sy && an * n == sn
    requires locked == k * (1.0 - (ay + an)) && value == k + (y - k) * ay + (n - k) * an
    ensures locked == value - sy - sn
  {
    assert locked == k - k * ay - k * an;
    assert (y - k) * ay == ay * y - k * ay;
    assert (n - k) * an == an * n - k * an;
  }

  lemma UpSplits(h: Holding)
    requires h.Valid()
    ensures h.LockedProfit() + SpecPnl(h, Up) == SettlementValue(h, Up) - h.Book()
  {
    AvgTimesQty(h.yes);
    AvgTimesQty(h.no);
    LockedIs(h, 1.0 - (h.yes.Avg() + h.no.Avg()));
    WinnerScalars(h.LockedProfit(), SpecPnl(h, Up), h.Pairs(), h.yes.qty, h.no.qty,
                  h.yes.Avg(), h.no.Avg(), h.yes.spent, h.no.spent);
  }

  lemma DownSplits(h: Holding)
    requires h.Valid()
    ensures h.LockedProfit() + SpecPnl(h, Down) == SettlementValue(h, Down) - h.Book()
  {
    AvgTimesQty(h.yes);
    AvgTimesQty(h.no);
    LockedIs(h, 1.0 - (h.no.Avg() + h.yes.Avg()));
    WinnerScalars(h.LockedProfit(), SpecPnl(h, Down), h.Pairs(), h.no.qty, h.yes.qty,
                  h.no.Avg(), h.yes.Avg(), h.no.spent, h.yes.spent);
  }

  lemma UnresolvedSplits(h: Holding)
    requires h.Valid()
    ensures h.LockedProfit() + SpecPnl(h, Unresolved) == SettlementValue(h, Unresolved) - h.Book()
  {
    AvgTimesQty(h.yes);
    AvgTimesQty(h.no);
    LockedIs(h, 1.0 - (h.yes.Avg() + h.no.Avg()));
    AtCostScalars(h.LockedProfit(), SettlementValue(h, Unresolved), h.Pairs(), h.yes.qty, h.no.qty,
                  h.yes.Avg(), h.no.Avg(), h.yes.spent, h.no.spent);
  }

  /** Locked and speculative profit together are the settlement value less the book value. */
  ghost predicate Settles(h: Holding, r: Resolution) {
    h.LockedProfit() + SpecPnl(h, r) == SettlementValue(h, r) - h.Book()
  }

  lemma SettlementSplits(h: Holding, r: Resolution)
    requires h.Valid()
    ensures Settles(h, r)
  {
    if r == Up {
      UpSplits(h);
    } else if r == Down {
      DownSplits(h);
    } else {
      UnresolvedSplits(h);
    }
  }

  /** The profit figure of a period: locked, merged, sold and speculative. */
  function TotalPnl(h: Holding, a: Account, r: Resolution): real {
    h.LockedProfit() + a.mergePnl + a.sellPnl + SpecPnl(h, r)
  }

  /** It is exactly what a cash account of the same run says. */
  lemma ProfitIsCash(es: seq<Event>, r: Resolution)
    requires WellFormed(es)
    ensures var h, a := Fold(es), AccountOf(es);
      TotalPnl(h, a, r) == a.proceeds + a.pairsMerged + SettlementValue(h, r) - a.paid
  {
    FoldValid(es);
    CashFlow(es);
    SettlementSplits(Fold(es), r);
  }

  lemma StepNonNegative(h: Holding, e: Event)
    requires h.Valid() && e.WellFormed()
    ensures 0.0 <= ProceedsBy(h, e) && 0.0 <= PairsBy(h, e) && 0.0 <= CostMergedBy(h, e)
  {
    AvgTimesQty(h.yes);
    AvgTimesQty(h.no);
    match e
    case Bought(_, _, _) =>
    case Sold(o, price, size) => MulNonNegative(price, SoldQty(h, o, size));
    case Merged(pairs) => MulNonNegative(MergedQty(h, pairs), h.AvgCombined());
  }

  lemma {:induction false} ReceiptsNonNegative(es: seq<Event>)
    requires WellFormed(es)
    ensures var a := AccountOf(es); 0.0 <= a.proceeds && 0.0 <= a.pairsMerged && 0.0 <= a.costMerged
  {
    if es != [] {
      var init := es[..|es| - 1];
      ReceiptsNonNegative(init);
      FoldValid(init);
      StepNonNegative(Fold(init), es[|es| - 1]);
    }
  }

  lemma SettlementNonNegative(h: Holding, r: Resolution)
    requires h.Valid()
    ensures 0.0 <= SettlementValue(h, r)
  {
    AvgTimesQty(h.yes);
    AvgTimesQty(h.no);
    MulNonNegative(h.yes.qty - h.Pairs(), h.yes.Avg());
    MulNonNegative(h.no.qty - h.Pairs(), h.no.Avg());
  }

  /**
   Worst case: if merges never ran at a loss and at most `cap` was tied up in buys
   net of merged cost, no resolution of the market can lose more than `cap`.
   */
  lemma LossBound(es: seq<Event>, r: Resolution, cap: real)
    requires WellFormed(es)
    requires AccountOf(es).costMerged <= AccountOf(es).pairsMerged
    requires AccountOf(es).paid - AccountOf(es).costMerged <= cap
    ensures -cap <= TotalPnl(Fold(es), AccountOf(es), r)
  {
    ProfitIsCash(es, r);
    ReceiptsNonNegative(es);
    FoldValid(es);
    SettlementNonNegative(Fold(es), r);
  }

  // ----- a position and its record -----

  /**
   The position and the account are what the recorded events lead to. The statement sits under a trigger so
   that the averages of a whole run are not multiplied out wherever a position is mentioned.
   */
  ghost predicate Records(es: seq<Event>, h: Holding, a: Account) {
    && h.Valid()
    && forall n: nat {:trigger Look(AboutRuns, n)} :: Look(AboutRuns, n) ==> WellFormed(es) && h == Fold(es) && a == AccountOf(es)
  }

  lemma NothingRecorded()
    ensures Records([], EMPTY, NOTHING_BOOKED)
  {
  }

  lemma RecordEvent(es: seq<Event>, h: Holding, a: Account, e: Event)
    requires Records(es, h, a) && e.WellFormed()
    ensures Records(es + [e], After(h, e), a.Credit(h, e))
  {
    assert Look(AboutRuns, 0);
    assert (es + [e])[..|es|] == es;
    assert forall i :: 0 <= i < |es| ==> (es + [e])[i] == es[i];
    AfterKeepsValid(h, e);
    assert Fold(es + [e]) == After(h, e);
    assert AccountOf(es + [e]) == a.Credit(h, e);
  }

  lemma RecordedRun(es: seq<Event>, h: Holding, a: Account)
    requires Records(es, h, a)
    ensures WellFormed(es) && h == Fold(es) && a == AccountOf(es)
  {
    assert Look(AboutRuns, 0);
  }
}
