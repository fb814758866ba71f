/**
 The paper-trading matching simulator: limit orders rest in a map, and every
 tick of a market rejects, fills or keeps each of its orders.

 `issued` remembers the terms of every order ever placed; `filled`,
 `rejected` and `cancelled` hold the ids that left the map, by the way they left.
 */
module PaperSim {
  import opened Common
  import opened Digits
  import opened MapSum

  type OrderId = string

  datatype PaperOrder = PaperOrder(orderId: OrderId, market: string, outcome: Outcome, price: real, size: real,
                                   side: Side, placedAt: int)
  {
    function Cost(): real {
      price * size
    }
  }

  datatype PaperFill = PaperFill(order: PaperOrder, fillPrice: real, fillTime: int)

  /** Best prices of both tokens; a side of the book may be empty. */
  datatype Book = Book(yesAsk: Option<real>, noAsk: Option<real>, yesBid: Option<real>, noBid: Option<real>)

  const PROXIMITY_FILL_EVERY_N: nat := 20
  const PROXIMITY_MAX_DISTANCE: real := 0.02
  const PROXIMITY_MIN_REST_SECS: int := 5
  const QUEUE_MIN_REST_SECS: int := 3
  const POSTONLY_FRESH_SECS: int := 1

  // ----- order ids -----

  function OrderIdOf(n: nat): OrderId {
    "paper_" + ZeroPad(Numeral(n), 6)
  }

  lemma OrderIdsDiffer(a: nat, b: nat)
    requires OrderIdOf(a) == OrderIdOf(b)
    ensures a == b
  {
    var pa, pb := ZeroPad(Numeral(a), 6), ZeroPad(Numeral(b), 6);
    assert pa == OrderIdOf(a)[6..] && pb == OrderIdOf(b)[6..];
    PaddingKeepsValue(Numeral(a), 6);
    PaddingKeepsValue(Numeral(b), 6);
    NumeralRoundTrip(a);
    NumeralRoundTrip(b);
  }

  // ----- one tick of one market -----

  /** Everything a fill check looks at besides the order. */
  datatype Tick = Tick(market: string, book: Book, prevFv: Option<(real, real)>, fv: (real, real),
                       proximityEligible: bool, now: int)
  {
    /** The best price on the other side of the book. */
    function Opposite(o: PaperOrder): Option<real> {
      match (o.side, o.outcome)
      case (Buy, Yes) => book.yesAsk
      case (Buy, No) => book.noAsk
      case (Sell, Yes) => book.yesBid
      case (Sell, No) => book.noBid
    }

    predicate Crosses(o: PaperOrder) {
      var best := Opposite(o);
      best.Some? && if o.side == Buy then o.price >= best.value else best.value >= o.price
    }

    function RestingSecs(o: PaperOrder): int {
      NumSeconds(now - o.placedAt)
    }

    function FvOf(o: PaperOrder, pair: (real, real)): real {
      if o.outcome == Yes then pair.0 else pair.1
    }

    /** The fair value moved through the order's price since the last tick of the market. */
    predicate FvCrossed(o: PaperOrder) {
      prevFv.Some? &&
      var prev, cur := FvOf(o, prevFv.value), FvOf(o, fv);
      if o.side == Buy then prev > o.price && cur <= o.price else prev < o.price && cur >= o.price
    }

    predicate Near(o: PaperOrder) {
      var best := Opposite(o);
      best.Some? &&
      var distance := if o.side == Buy then best.value - o.price else o.price - best.value;
      0.0 < distance <= PROXIMITY_MAX_DISTANCE
    }

    /** A fresh order that would trade at once is refused by a post-only exchange. */
    predicate Rejects(o: PaperOrder) {
      o.market == market && Crosses(o) && RestingSecs(o) < POSTONLY_FRESH_SECS
    }

    predicate Fills(o: PaperOrder) {
      && o.market == market
      && !Rejects(o)
      && (|| (RestingSecs(o) >= QUEUE_MIN_REST_SECS && Crosses(o))
          || FvCrossed(o)
          || (proximityEligible && RestingSecs(o) >= PROXIMITY_MIN_REST_SECS && Near(o)))
    }
  }

  function Ids(s: seq<PaperOrder>): set<OrderId> {
    set o | o in s :: o.orderId
  }

  ghost predicate DistinctIds(s: seq<PaperOrder>) {
    forall i, j :: 0 <= i < j < |s| ==> s[i].orderId != s[j].orderId
  }

  /** `s` lists exactly the orders of `m` that `keep` selects, each once. */
  ghost predicate Enumerates(s: seq<PaperOrder>, m: map<OrderId, PaperOrder>, keep: PaperOrder -> bool) {
    && DistinctIds(s)
    && (forall o :: o in s ==> o.orderId in m && m[o.orderId] == o && keep(o))
    && (forall id :: id in m && keep(m[id]) ==> m[id] in s)
  }

  /** The same while the walk over `m` still has `rest` to go. */
  ghost predicate EnumeratesSoFar(s: seq<PaperOrder>, m: map<OrderId, PaperOrder>, rest: map<OrderId, PaperOrder>,
                                  keep: PaperOrder -> bool)
  {
    && DistinctIds(s)
    && (forall o :: o in s ==> o.orderId in m && o.orderId !in rest && m[o.orderId] == o && keep(o))
    && (forall id :: id in m && id !in rest && keep(m[id]) ==> m[id] in s)
  }

  lemma EnumerateStep(s: seq<PaperOrder>, m: map<OrderId, PaperOrder>, rest: map<OrderId, PaperOrder>,
                      keep: PaperOrder -> bool, id: OrderId)
    requires EnumeratesSoFar(s, m, rest, keep)
    requires id in rest && id in m && m[id].orderId == id
    ensures EnumeratesSoFar(if keep(m[id]) then s + [m[id]] else s, m, rest - {id}, keep)
  {
    var t := s + [m[id]];
    forall i | 0 <= i < |s| ensures s[i].orderId != id {
      assert s[i] in s;
    }
    assert forall o :: o in t <==> o in s || o == m[id];
  }

  // ----- best price first -----

  ghost predicate PriceDescending(s: seq<PaperOrder>) {
    forall i, j :: 0 <= i < j < |s| ==> s[i].price >= s[j].price
  }

  /** Stable insertion: after every order that is not cheaper. */
  function InsertByPrice(s: seq<PaperOrder>, o: PaperOrder): seq<PaperOrder> {
    if s == [] || s[|s| - 1].price >= o.price then s + [o]
    else InsertByPrice(s[..|s| - 1], o) + [s[|s| - 1]]
  }

  function SortByPrice(s: seq<PaperOrder>): seq<PaperOrder> {
    if s == [] then [] else InsertByPrice(SortByPrice(s[..|s| - 1]), s[|s| - 1])
  }

  lemma {:induction false} InsertKeepsOrder(s: seq<PaperOrder>, o: PaperOrder)
    requires PriceDescending(s)
    ensures PriceDescending(InsertByPrice(s, o))
    ensures multiset(InsertByPrice(s, o)) == multiset(s) + multiset{o}
  {
    if s == [] || s[|s| - 1].price >= o.price {
      AppendCheapest(s, o);
    } else {
      var init, last := s[..|s| - 1], s[|s| - 1];
      assert s == init + [last];
      InsertKeepsOrder(init, o);
      var t := InsertByPrice(init, o);
      forall x | x in t ensures x.price >= last.price {
        assert x in multiset(t);
        assert x in init || x == o;
      }
      AppendCheapest(t, last);
    }
  }

  lemma AppendCheapest(s: seq<PaperOrder>, o: PaperOrder)
    requires PriceDescending(s) && forall x :: x in s ==> x.price >= o.price
    ensures PriceDescending(s + [o])
  {
  }

  lemma {:induction false} SortSorts(s: seq<PaperOrder>)
    ensures PriceDescending(SortByPrice(s))
    ensures multiset(SortByPrice(s)) == multiset(s)
  {
    if s != [] {
      var init, last := s[..|s| - 1], s[|s| - 1];
      assert s == init + [last];
      SortSorts(init);
      InsertKeepsOrder(SortByPrice(init), last);
    }
  }

  lemma CountedTwice(s: seq<PaperOrder>, i: int, j: int)
    requires 0 <= i < j < |s| && s[i] == s[j]
    ensures multiset(s)[s[i]] >= 2
  {
    assert s == s[..j] + s[j..];
    assert s[i] in s[..j] && s[j] in s[j..];
    assert s[i] in multiset(s[..j]) && s[j] in multiset(s[j..]);
  }

  lemma {:induction false} DistinctCounts(s: seq<PaperOrder>, o: PaperOrder)
    requires DistinctIds(s)
    ensures multiset(s)[o] <= 1
  {
    if s != [] {
      var init, last := s[..|s| - 1], s[|s| - 1];
      assert s == init + [last];
      DistinctCounts(init, o);
      assert o == last ==> o !in init;
      assert multiset(init)[o] > 0 ==> o in init;
    }
  }

  lemma SortKeepsEnumeration(s: seq<PaperOrder>, m: map<OrderId, PaperOrder>, keep: PaperOrder -> bool)
    requires Enumerates(s, m, keep)
    ensures Enumerates(SortByPrice(s), m, keep)
  {
    var t := SortByPrice(s);
    SortSorts(s);
    forall o ensures o in t <==> o in s {
      assert o in t <==> o in multiset(t);
      assert o in s <==> o in multiset(s);
    }
    forall i, j | 0 <= i < j < |t| ensures t[i].orderId != t[j].orderId {
      assert t[i] in s && t[j] in s;
      DistinctCounts(s, t[i]);
      if t[i] == t[j] {
        CountedTwice(t, i, j);
      }
    }
  }

  // ----- filling under the imbalance guard -----

  /** Running costs of both sides and the orders accepted so far. */
  datatype Run = Run(yesCost: real, noCost: real, fills: seq<PaperOrder>) {

    function Imbalance(): real {
      Abs(yesCost - noCost)
    }

    function Accept(o: PaperOrder): Run {
      match (o.side, o.outcome)
      case (Buy, Yes) => Run(yesCost + o.Cost(), noCost, fills + [o])
      case (Buy, No) => Run(yesCost, noCost + o.Cost(), fills + [o])
      case (Sell, Yes) => Run(yesCost - Min(o.Cost(), yesCost), noCost, fills + [o])
      case (Sell, No) => Run(yesCost, noCost - Min(o.Cost(), noCost), fills + [o])
    }

    /** A buy is passed over when it would take the imbalance past the limit. */
    predicate Blocks(o: PaperOrder, limit: Option<real>) {
      limit.Some? && o.side == Buy && Accept(o).Imbalance() > limit.value
    }

    function Offer(o: PaperOrder, limit: Option<real>): Run {
      if Blocks(o, limit) then this else Accept(o)
    }
  }

  function Execute(cands: seq<PaperOrder>, limit: Option<real>, yesCost: real, noCost: real): Run {
    if cands == [] then Run(yesCost, noCost, [])
    else Execute(cands[..|cands| - 1], limit, yesCost, noCost).Offer(cands[|cands| - 1], limit)
  }

  lemma {:induction false} ExecutedAreCandidates(cands: seq<PaperOrder>, limit: Option<real>, y: real, n: real)
    requires DistinctIds(cands)
    ensures DistinctIds(Execute(cands, limit, y, n).fills)
    ensures forall o :: o in Execute(cands, limit, y, n).fills ==> o in cands
    ensures forall o :: o in cands && o.side == Sell ==> o in Execute(cands, limit, y, n).fills
  {
    if cands != [] {
      var init := cands[..|cands| - 1];
      ExecutedAreCandidates(init, limit, y, n);
      var before := Execute(init, limit, y, n).fills;
      forall i | 0 <= i < |before| ensures before[i].orderId != cands[|cands| - 1].orderId {
        assert before[i] in init;
      }
    }
  }

  /**
   The guard at every point of a tick: after an accepted buy the running imbalance is within
   the limit, and a buy is only passed over when accepting it would have left the limit.
   */
  lemma GuardHolds(cands: seq<PaperOrder>, limit: real, y: real, n: real, k: nat)
    requires k < |cands| && cands[k].side == Buy
    ensures var before := Execute(cands[..k], Some(limit), y, n);
      var after := Execute(cands[..k + 1], Some(limit), y, n);
      || (after.fills == before.fills + [cands[k]] && after.Imbalance() <= limit)
      || (after == before && before.Accept(cands[k]).Imbalance() > limit)
  {
    assert cands[..k + 1][..k] == cands[..k];
  }

  /** On a tick that offers no sells the imbalance ends within the limit, or no buy was taken at all. */
  lemma {:induction false} BuyTickStaysWithin(cands: seq<PaperOrder>, limit: real, y: real, n: real)
    requires forall o :: o in cands ==> o.side == Buy
    ensures var r := Execute(cands, Some(limit), y, n);
      || r.Imbalance() <= limit
      || r == Run(y, n, [])
  {
    if cands != [] {
      BuyTickStaysWithin(cands[..|cands| - 1], limit, y, n);
    }
  }

  // ----- where an order can be -----

  /** Every id ever issued is in exactly one place, and a resting order has the terms it was placed with. */
  ghost predicate Accounted(issued: map<OrderId, PaperOrder>, orders: map<OrderId, PaperOrder>,
                            filled: set<OrderId>, rejected: set<OrderId>, cancelled: set<OrderId>)
  {
    && issued.Keys == orders.Keys + filled + rejected + cancelled
    && orders.Keys !! filled && orders.Keys !! rejected && orders.Keys !! cancelled
    && filled !! rejected && filled !! cancelled && rejected !! cancelled
    && (forall id :: id in orders ==> orders[id] == issued[id])
  }

  lemma PlacingAccounted(issued: map<OrderId, PaperOrder>, orders: map<OrderId, PaperOrder>, filled: set<OrderId>,
                         rejected: set<OrderId>, cancelled: set<OrderId>, id: OrderId, o: PaperOrder)
    requires Accounted(issued, orders, filled, rejected, cancelled) && id !in issued
    ensures Accounted(issued[id := o], orders[id := o], filled, rejected, cancelled)
  {
  }

  lemma LeavingAccounted(issued: map<OrderId, PaperOrder>, orders: map<OrderId, PaperOrder>, filled: set<OrderId>,
                         rejected: set<OrderId>, cancelled: set<OrderId>,
                         f: set<OrderId>, r: set<OrderId>, c: set<OrderId>)
    requires Accounted(issued, orders, filled, rejected, cancelled)
    requires f <= orders.Keys && r <= orders.Keys && c <= orders.Keys && f !! r && f !! c && r !! c
    ensures Accounted(issued, orders - (f + r + c), filled + f, rejected + r, cancelled + c)
  {
    assert (orders - (f + r + c)).Keys == orders.Keys - (f + r + c);
  }

  lemma MinusTwice(m: map<OrderId, PaperOrder>, a: set<OrderId>, b: set<OrderId>)
    ensures m - a - b == m - (a + b)
  {
  }

  // ----- the simulator -----

  class PaperSimulator {
    var orders: map<OrderId, PaperOrder>
    var nextId: nat
    var lastFv: map<string, (real, real)>
    var tickCounter: nat

    ghost var issued: map<OrderId, PaperOrder>
    ghost var filled: set<OrderId>
    ghost var rejected: set<OrderId>
    ghost var cancelled: set<OrderId>

    ghost predicate Conserved()
      reads this
    {
      Accounted(issued, orders, filled, rejected, cancelled)
    }

    /** Ids are handed out in order and never twice. */
    ghost predicate Numbered()
      reads this
    {
      && (forall id :: id in issued ==> issued[id].orderId == id)
      && (forall id :: id in issued ==> exists k: nat :: k < nextId && id == OrderIdOf(k))
    }

    ghost predicate Valid()
      reads this
    {
      Conserved() && Numbered()
    }

    constructor ()
      ensures Valid() && orders == map[] && issued == map[] && nextId == 1 && tickCounter == 0 && lastFv == map[]
    {
      orders, nextId, lastFv, tickCounter := map[], 1, map[], 0;
      issued, filled, rejected, cancelled := map[], {}, {}, {};
    }

    lemma NextIdIsFresh()
      requires Valid()
      ensures OrderIdOf(nextId) !in issued
    {
      if OrderIdOf(nextId) in issued {
        var k: nat :| k < nextId && OrderIdOf(nextId) == OrderIdOf(k);
        OrderIdsDiffer(nextId, k);
      }
    }

    method PlaceAt(side: Side, market: string, outcome: Outcome, price: real, size: real, now: int)
      returns (orderId: OrderId)
      requires Valid()
      modifies `orders, `nextId, `issued
      ensures Valid()
      ensures orderId == OrderIdOf(old(nextId)) && orderId !in old(issued)
      ensures var o := PaperOrder(orderId, market, outcome, price, size, side, now);
        orders == old(orders)[orderId := o] && issued == old(issued)[orderId := o]
      ensures nextId == old(nextId) + 1
    {
      NextIdIsFresh();
      orderId := OrderIdOf(nextId);
      nextId := nextId + 1;
      var order := PaperOrder(orderId, market, outcome, price, size, side, now);
      PlacingAccounted(issued, orders, filled, rejected, cancelled, orderId, order);
      orders := orders[orderId := order];
      issued := issued[orderId := order];
    }

    method PlaceBuyAt(market: string, outcome: Outcome, price: real, size: real, now: int) returns (orderId: OrderId)
      requires Valid()
      modifies `orders, `nextId, `issued
      ensures Valid()
      ensures orderId == OrderIdOf(old(nextId)) && orderId !in old(issued)
      ensures var o := PaperOrder(orderId, market, outcome, price, size, Buy, now);
        orders == old(orders)[orderId := o] && issued == old(issued)[orderId := o]
      ensures nextId == old(nextId) + 1
    {
      orderId := PlaceAt(Buy, market, outcome, price, size, now);
    }

    method PlaceSellAt(market: string, outcome: Outcome, price: real, size: real, now: int) returns (orderId: OrderId)
      requires Valid()
      modifies `orders, `nextId, `issued
      ensures Valid()
      ensures orderId == OrderIdOf(old(nextId)) && orderId !in old(issued)
      ensures var o := PaperOrder(orderId, market, outcome, price, size, Sell, now);
        orders == old(orders)[orderId := o] && issued == old(issued)[orderId := o]
      ensures nextId == old(nextId) + 1
    {
      orderId := PlaceAt(Sell, market, outcome, price, size, now);
    }

    /** Take one order out, if it is still resting. */
    method Cancel(orderId: OrderId) returns (order: Option<PaperOrder>)
      requires Valid()
      modifies `orders, `cancelled
      ensures Valid()
      ensures order == if orderId in old(orders) then Some(old(issued)[orderId]) else None
      ensures orders == old(orders) - {orderId}
      ensures cancelled == if orderId in old(orders) then old(cancelled) + {orderId} else old(cancelled)
    {
      if orderId in orders {
        order := Some(orders[orderId]);
        LeavingAccounted(issued, orders, filled, rejected, cancelled, {}, {}, {orderId});
        assert {} + {} + {orderId} == {orderId} && filled + {} == filled && rejected + {} == rejected;
        orders := orders - {orderId};
        cancelled := cancelled + {orderId};
      } else {
        order := None;
        assert orders - {orderId} == orders;
      }
    }

    /** The orders of a market, in no particular order. */
    method OrdersForMarket(market: string) returns (found: seq<PaperOrder>)
      requires Valid()
      ensures Enumerates(found, orders, InMarket(market))
    {
      var rest := orders;
      found := [];
      while rest != map[]
        invariant rest.Keys <= orders.Keys && forall id :: id in rest ==> rest[id] == orders[id]
        invariant EnumeratesSoFar(found, orders, rest, InMarket(market))
        decreases rest.Keys
      {
        var id :| id in rest;
        EnumerateStep(found, orders, rest, InMarket(market), id);
        if rest[id].market == market {
          found := found + [rest[id]];
        }
        rest := rest - {id};
      }
    }

    /** Cancel a list of resting orders, one at a time. */
    method CancelEach(victims: seq<PaperOrder>)
      requires Valid()
      requires DistinctIds(victims) && Ids(victims) <= orders.Keys
      modifies `orders, `cancelled
      ensures Valid()
      ensures orders == old(orders) - Ids(victims) && cancelled == old(cancelled) + Ids(victims)
    {
      ghost var resting, gone := orders, cancelled;
      var i := 0;
      while i < |victims|
        invariant 0 <= i <= |victims|
        invariant Valid()
        invariant orders == resting - Ids(victims[..i]) && cancelled == gone + Ids(victims[..i])
      {
        CancelledNext(victims, i, resting, gone);
        var _ := Cancel(victims[i].orderId);
        i := i + 1;
      }
      assert victims[..i] == victims;
    }

    method CancelMarket(market: string) returns (gone: seq<PaperOrder>)
      requires Valid()
      modifies `orders, `cancelled
      ensures Valid()
      ensures Enumerates(gone, old(orders), InMarket(market))
      ensures orders == old(orders) - Ids(gone) && cancelled == old(cancelled) + Ids(gone)
      ensures forall id :: id in orders ==> orders[id].market != market
    {
      gone := OrdersForMarket(market);
      CancelEach(gone);
      forall id | id in orders ensures orders[id].market != market {
        assert orders[id] == old(orders)[id];
      }
    }

    /** Shares of resting buys of one outcome. */
    method RestingBuyShares(market: string, outcome: Outcome) returns (total: real)
      ensures total == Sum(orders, BuySharesOf(market, outcome))
    {
      var rest := orders;
      total := 0.0;
      while rest != map[]
        invariant total + Sum(rest, BuySharesOf(market, outcome)) == Sum(orders, BuySharesOf(market, outcome))
        decreases rest.Keys
      {
        var id :| id in rest;
        SumRemove(rest, BuySharesOf(market, outcome), id);
        if rest[id].market == market && rest[id].outcome == outcome && rest[id].side == Buy {
          total := total + rest[id].size;
        }
        rest := rest - {id};
      }
    }

    /** Walk the map once and sort the orders of the market into rejections and candidates. */
    method Classify(tick: Tick) returns (cands: seq<PaperOrder>, rejections: seq<PaperOrder>)
      requires Valid()
      ensures Enumerates(cands, orders, Filling(tick))
      ensures Enumerates(rejections, orders, Rejecting(tick))
    {
      var rest := orders;
      cands, rejections := [], [];
      while rest != map[]
        invariant rest.Keys <= orders.Keys && forall id :: id in rest ==> rest[id] == orders[id]
        invariant EnumeratesSoFar(cands, orders, rest, Filling(tick))
        invariant EnumeratesSoFar(rejections, orders, rest, Rejecting(tick))
        decreases rest.Keys
      {
        var id :| id in rest;
        var order := rest[id];
        EnumerateStep(cands, orders, rest, Filling(tick), id);
        EnumerateStep(rejections, orders, rest, Rejecting(tick), id);
        if tick.Rejects(order) {
          rejections := rejections + [order];
        } else if tick.Fills(order) {
          cands := cands + [order];
        }
        rest := rest - {id};
      }
    }

    /** Offer the candidates one by one, best price first, under the imbalance guard. */
    method ExecuteCandidates(cands: seq<PaperOrder>, limit: Option<real>, yesCost: real, noCost: real, now: int)
      returns (fills: seq<PaperFill>)
      ensures fills == FillsOf(Execute(cands, limit, yesCost, noCost).fills, now)
    {
      var run := Run(yesCost, noCost, []);
      fills := [];
      var i := 0;
      while i < |cands|
        invariant 0 <= i <= |cands|
        invariant run == Execute(cands[..i], limit, yesCost, noCost)
        invariant fills == FillsOf(run.fills, now)
      {
        var order := cands[i];
        assert cands[..i + 1][..i] == cands[..i];
        if !run.Blocks(order, limit) {
          run := run.Accept(order);
          fills := fills + [PaperFill(order, order.price, now)];
        }
        i := i + 1;
      }
      assert cands[..i] == cands;
    }

    /**
     One tick of one market. Fresh crossing orders are rejected; the others that meet a
     fill condition are offered best price first and fill at their limit price. `cands` is the
     order in which they were offered.
     */
    method CheckFillsAt(market: string, book: Book, fv: (real, real), limit: Option<real>,
                        yesCost: real, noCost: real, now: int)
      returns (fills: seq<PaperFill>, rejections: seq<PaperOrder>, ghost cands: seq<PaperOrder>)
      requires Valid()
      modifies this
      ensures Valid()
      ensures tickCounter == old(tickCounter) + 1 && lastFv == old(lastFv)[market := fv]
      ensures Offered(TickAt(old(lastFv), old(tickCounter), market, book, fv, now), old(orders), cands, rejections)
      ensures fills == FillsOf(Execute(cands, limit, yesCost, noCost).fills, now)
      ensures var done := Ids(Execute(cands, limit, yesCost, noCost).fills);
        && done <= old(orders).Keys && Ids(rejections) <= old(orders).Keys && done !! Ids(rejections)
        && orders == old(orders) - (done + Ids(rejections))
        && filled == old(filled) + done && rejected == old(rejected) + Ids(rejections)
      ensures issued == old(issued) && nextId == old(nextId) && cancelled == old(cancelled)
    {
      var tick := TickAt(lastFv, tickCounter, market, book, fv, now);
      tickCounter := tickCounter + 1;
      lastFv := lastFv[market := fv];
      fills, rejections, cands := FillMarket(tick, limit, yesCost, noCost);
    }

    method FillMarket(tick: Tick, limit: Option<real>, yesCost: real, noCost: real)
      returns (fills: seq<PaperFill>, rejections: seq<PaperOrder>, ghost cands: seq<PaperOrder>)
      requires Valid()
      modifies `orders, `filled, `rejected
      ensures Valid()
      ensures Offered(tick, old(orders), cands, rejections)
      ensures fills == FillsOf(Execute(cands, limit, yesCost, noCost).fills, tick.now)
      ensures var done := Ids(Execute(cands, limit, yesCost, noCost).fills);
        && done <= old(orders).Keys && Ids(rejections) <= old(orders).Keys && done !! Ids(rejections)
        && orders == old(orders) - (done + Ids(rejections))
        && filled == old(filled) + done && rejected == old(rejected) + Ids(rejections)
    {
      var sorted;
      sorted, rejections := Candidates(tick);
      cands := sorted;
      fills := ExecuteCandidates(sorted, limit, yesCost, noCost, tick.now);
      TickSelects(tick, orders, sorted, rejections, limit, yesCost, noCost);
      FillIds(Execute(sorted, limit, yesCost, noCost).fills, tick.now);
      Remove(set f | f in fills :: f.order.orderId, Ids(rejections));
    }

    method Candidates(tick: Tick) returns (sorted: seq<PaperOrder>, rejections: seq<PaperOrder>)
      requires Valid()
      ensures Offered(tick, orders, sorted, rejections)
    {
      var found;
      found, rejections := Classify(tick);
      sorted := SortByPrice(found);
      SortSorts(found);
      SortKeepsEnumeration(found, orders, Filling(tick));
    }

    method Remove(done: set<OrderId>, refused: set<OrderId>)
      requires Valid()
      requires done <= orders.Keys && refused <= orders.Keys && done !! refused
      modifies `orders, `filled, `rejected
      ensures Valid()
      ensures orders == old(orders) - (done + refused)
      ensures filled == old(filled) + done && rejected == old(rejected) + refused
    {
      MinusTwice(orders, refused, done);
      LeavingAccounted(issued, orders, filled, rejected, cancelled, done, refused, {});
      assert refused + done == done + refused == done + refused + {} && cancelled + {} == cancelled;
      orders := orders - refused;
      orders := orders - done;
      filled := filled + done;
      rejected := rejected + refused;
    }
  }

  /** Distinct resting orders of one market. */
  ghost predicate Selection(s: seq<PaperOrder>, m: map<OrderId, PaperOrder>, market: string) {
    && DistinctIds(s)
    && Ids(s) <= m.Keys
    && (forall o :: o in s ==> o.orderId in m && m[o.orderId] == o && o.market == market)
  }

  /** The orders a tick offers, best price first, and the orders it rejects: exactly those that qualify. */
  ghost predicate Offered(tick: Tick, m: map<OrderId, PaperOrder>, cands: seq<PaperOrder>, rejections: seq<PaperOrder>) {
    && Enumerates(cands, m, Filling(tick)) && PriceDescending(cands)
    && Enumerates(rejections, m, Rejecting(tick))
  }

  // ----- what a tick selects, on the raw figures -----

  /** A buy that trades at once against the ask is rejected in its first second. */
  ghost predicate BuyRejected(price: real, ask: Option<real>, age: int) {
    ask.Some? && ask.value <= price && age < 1_000_000_000
  }

  /**
   A buy is offered when the ask has come down to it and it has rested three seconds, when its fair value falls through
   its price, or, on every twentieth tick, when it has rested five seconds within two cents under the ask.
   */
  ghost predicate BuyOffered(price: real, ask: Option<real>, prevFv: Option<real>, fv: real, counter: nat, age: int) {
    || (ask.Some? && ask.value <= price && 3_000_000_000 <= age)
    || (prevFv.Some? && fv <= price < prevFv.value)
    || (ask.Some? && price < ask.value <= price + 0.02 && 5_000_000_000 <= age && (counter + 1) % 20 == 0)
  }

  ghost predicate SellRejected(price: real, bid: Option<real>, age: int) {
    bid.Some? && price <= bid.value && age < 1_000_000_000
  }

  /** The same for sells, against the bid and a rising fair value. */
  ghost predicate SellOffered(price: real, bid: Option<real>, prevFv: Option<real>, fv: real, counter: nat, age: int) {
    || (bid.Some? && price <= bid.value && 3_000_000_000 <= age)
    || (prevFv.Some? && prevFv.value < price <= fv)
    || (bid.Some? && price - 0.02 <= bid.value < price && 5_000_000_000 <= age && (counter + 1) % 20 == 0)
  }

  /** What a resting order of the market meets, by side and outcome, given what decides about it on the raw figures. */
  ghost predicate Meets(o: PaperOrder, cands: seq<PaperOrder>, rejections: seq<PaperOrder>, offered: bool, refused: bool) {
    && (o in rejections <==> refused)
    && (o in cands <==> offered && !refused)
  }

  /**
   Which orders a tick offers, rejects and leaves, in the figures the fill check is called with: a YES order meets the
   YES side of the book and the YES fair values, a NO order the NO side; buys look at the ask and sells at the bid.
   */
  lemma OfferedMeans(lastFv: map<string, (real, real)>, counter: nat, market: string, book: Book, fv: (real, real), now: int,
                     m: map<OrderId, PaperOrder>, cands: seq<PaperOrder>, rejections: seq<PaperOrder>, id: OrderId)
    requires Offered(TickAt(lastFv, counter, market, book, fv, now), m, cands, rejections)
    requires id in m && m[id].orderId == id && m[id].market == market
    ensures var o := m[id];
      var age := now - o.placedAt;
      var prevYes := if market in lastFv then Some(lastFv[market].0) else None;
      var prevNo := if market in lastFv then Some(lastFv[market].1) else None;
      && (o.side == Buy && o.outcome == Yes ==>
            Meets(o, cands, rejections, BuyOffered(o.price, book.yesAsk, prevYes, fv.0, counter, age), BuyRejected(o.price, book.yesAsk, age)))
      && (o.side == Buy && o.outcome == No ==>
            Meets(o, cands, rejections, BuyOffered(o.price, book.noAsk, prevNo, fv.1, counter, age), BuyRejected(o.price, book.noAsk, age)))
      && (o.side == Sell && o.outcome == Yes ==>
            Meets(o, cands, rejections, SellOffered(o.price, book.yesBid, prevYes, fv.0, counter, age), SellRejected(o.price, book.yesBid, age)))
      && (o.side == Sell && o.outcome == No ==>
            Meets(o, cands, rejections, SellOffered(o.price, book.noBid, prevNo, fv.1, counter, age), SellRejected(o.price, book.noBid, age)))
  {
    var t, o := TickAt(lastFv, counter, market, book, fv, now), m[id];
    WholeSeconds(now - o.placedAt, 1);
    WholeSeconds(now - o.placedAt, 3);
    WholeSeconds(now - o.placedAt, 5);
    assert o in cands <==> t.Fills(o);
    assert o in rejections <==> t.Rejects(o);
  }

  function SwapOutcome(o: PaperOrder): PaperOrder {
    o.(outcome := if o.outcome == Yes then No else Yes)
  }

  function SwapOrders(m: map<OrderId, PaperOrder>): map<OrderId, PaperOrder> {
    map id | id in m :: SwapOutcome(m[id])
  }

  function SwapAll(s: seq<PaperOrder>): seq<PaperOrder> {
    seq(|s|, i requires 0 <= i < |s| => SwapOutcome(s[i]))
  }

  /** Nothing about a tick depends on which token is called YES: with both sides exchanged it offers and rejects the same orders. */
  lemma SwapKeepsOffers(lastFv: map<string, (real, real)>, counter: nat, market: string, book: Book, fv: (real, real), now: int,
                        m: map<OrderId, PaperOrder>, cands: seq<PaperOrder>, rejections: seq<PaperOrder>)
    requires Offered(TickAt(lastFv, counter, market, book, fv, now), m, cands, rejections)
    ensures var swappedFv := map k | k in lastFv :: (lastFv[k].1, lastFv[k].0);
      var swappedBook := Book(book.noAsk, book.yesAsk, book.noBid, book.yesBid);
      Offered(TickAt(swappedFv, counter, market, swappedBook, (fv.1, fv.0), now), SwapOrders(m), SwapAll(cands), SwapAll(rejections))
  {
    var t := TickAt(lastFv, counter, market, book, fv, now);
    var swappedFv := map k | k in lastFv :: (lastFv[k].1, lastFv[k].0);
    var u := TickAt(swappedFv, counter, market, Book(book.noAsk, book.yesAsk, book.noBid, book.yesBid), (fv.1, fv.0), now);
    forall o: PaperOrder ensures u.Fills(SwapOutcome(o)) == t.Fills(o) && u.Rejects(SwapOutcome(o)) == t.Rejects(o) {
      SwapSelects(t, u, o);
    }
    SwapEnumerates(m, cands, Filling(t), Filling(u));
    SwapEnumerates(m, rejections, Rejecting(t), Rejecting(u));
  }

  lemma SwapSelects(t: Tick, u: Tick, o: PaperOrder)
    requires u.book == Book(t.book.noAsk, t.book.yesAsk, t.book.noBid, t.book.yesBid) && u.fv == (t.fv.1, t.fv.0)
    requires u.prevFv == if t.prevFv.Some? then Some((t.prevFv.value.1, t.prevFv.value.0)) else None
    requires u.market == t.market && u.now == t.now && u.proximityEligible == t.proximityEligible
    ensures u.Fills(SwapOutcome(o)) == t.Fills(o) && u.Rejects(SwapOutcome(o)) == t.Rejects(o)
  {
  }

  lemma SwapEnumerates(m: map<OrderId, PaperOrder>, s: seq<PaperOrder>, keep: PaperOrder -> bool, swapped: PaperOrder -> bool)
    requires Enumerates(s, m, keep) && forall o: PaperOrder :: swapped(SwapOutcome(o)) == keep(o)
    ensures Enumerates(SwapAll(s), SwapOrders(m), swapped)
  {
    forall o | o in SwapAll(s) ensures o.orderId in SwapOrders(m) && SwapOrders(m)[o.orderId] == o && swapped(o) {
      var i :| 0 <= i < |s| && SwapAll(s)[i] == o;
      assert s[i] in s;
    }
    forall id | id in SwapOrders(m) && swapped(SwapOrders(m)[id]) ensures SwapOrders(m)[id] in SwapAll(s) {
      assert m[id] in s;
      var i :| 0 <= i < |s| && s[i] == m[id];
      assert SwapAll(s)[i] == SwapOrders(m)[id];
    }
  }

  /** Fills and rejections of a tick are different orders, all of the market of the tick. */
  lemma TickSelects(tick: Tick, m: map<OrderId, PaperOrder>, cands: seq<PaperOrder>, rejections: seq<PaperOrder>,
                    limit: Option<real>, y: real, n: real)
    requires Offered(tick, m, cands, rejections)
    ensures var done := Execute(cands, limit, y, n).fills;
      && Selection(done, m, tick.market)
      && Selection(rejections, m, tick.market)
      && Ids(done) !! Ids(rejections)
  {
    var done := Execute(cands, limit, y, n).fills;
    ExecutedAreCandidates(cands, limit, y, n);
    forall o | o in done ensures o.orderId in m && m[o.orderId] == o && tick.Fills(o) {
      assert o in cands;
    }
    forall id | id in Ids(done) ensures id in m && tick.Fills(m[id]) {
      var o :| o in done && o.orderId == id;
    }
    forall id | id in Ids(rejections) ensures id in m && tick.Rejects(m[id]) {
      var o :| o in rejections && o.orderId == id;
    }
  }

  /** A tick of one market leaves every order of the other markets resting. */
  lemma OtherMarketsStay(tick: Tick, m: map<OrderId, PaperOrder>, cands: seq<PaperOrder>, rejections: seq<PaperOrder>,
                         limit: Option<real>, y: real, n: real, id: OrderId)
    requires Offered(tick, m, cands, rejections)
    requires id in m && m[id].market != tick.market
    ensures id in m - (Ids(Execute(cands, limit, y, n).fills) + Ids(rejections))
  {
    TickSelects(tick, m, cands, rejections, limit, y, n);
  }

  function InMarket(market: string): PaperOrder -> bool {
    (o: PaperOrder) => o.market == market
  }

  function Filling(tick: Tick): PaperOrder -> bool {
    (o: PaperOrder) => tick.Fills(o)
  }

  function Rejecting(tick: Tick): PaperOrder -> bool {
    (o: PaperOrder) => tick.Rejects(o)
  }

  lemma IdsGrow(s: seq<PaperOrder>, i: nat)
    requires i < |s|
    ensures Ids(s[..i + 1]) == Ids(s[..i]) + {s[i].orderId}
    ensures DistinctIds(s) ==> s[i].orderId !in Ids(s[..i])
  {
    assert s[..i + 1] == s[..i] + [s[i]];
  }

  lemma CancelledNext(s: seq<PaperOrder>, i: nat, m: map<OrderId, PaperOrder>, gone: set<OrderId>)
    requires i < |s| && DistinctIds(s) && Ids(s) <= m.Keys
    ensures s[i].orderId in m - Ids(s[..i])
    ensures m - Ids(s[..i]) - {s[i].orderId} == m - Ids(s[..i + 1])
    ensures gone + Ids(s[..i]) + {s[i].orderId} == gone + Ids(s[..i + 1])
  {
    IdsGrow(s, i);
    assert s[i] in s;
    assert s[i].orderId in Ids(s);
    MinusTwice(m, Ids(s[..i]), {s[i].orderId});
  }

  function BuySharesOf(market: string, outcome: Outcome): PaperOrder -> real {
    (o: PaperOrder) => if o.market == market && o.outcome == outcome && o.side == Buy then o.size else 0.0
  }

  function TickAt(lastFv: map<string, (real, real)>, counter: nat, market: string, book: Book, fv: (real, real), now: int): Tick {
    Tick(market, book, if market in lastFv then Some(lastFv[market]) else None, fv,
         (counter + 1) % PROXIMITY_FILL_EVERY_N == 0, now)
  }

  /** Fills carry the order, its limit price and the time of the tick. */
  function FillsOf(s: seq<PaperOrder>, now: int): seq<PaperFill> {
    seq(|s|, i requires 0 <= i < |s| => PaperFill(s[i], s[i].price, now))
  }

  lemma FillIds(s: seq<PaperOrder>, now: int)
    ensures (set f | f in FillsOf(s, now) :: f.order.orderId) == Ids(s)
  {
    var fs := FillsOf(s, now);
    forall id | id in Ids(s) ensures id in (set f | f in fs :: f.order.orderId) {
      var i :| 0 <= i < |s| && s[i].orderId == id;
      assert fs[i] in fs;
    }
  }
}
