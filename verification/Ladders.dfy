/**
 The bid ladders of a tick: built under the fair value, re-anchored to the
 asks, skewed away from the heavy side, cut by the cost filters and resized.
 */
module Ladders {
  import opened Common
  import opened Decimals
  import opened Holdings
  import opened Profile

  datatype LadderLevel = LadderLevel(outcome: Outcome, price: real, size: real) {
    function Notional(): real {
      price * size
    }
  }

  type Ladder = seq<LadderLevel>

  /** Distance between two rungs: one tick. */
  const STEP: real := TICK_SIZE

  ghost predicate Descending(l: Ladder) {
    forall i, j :: 0 <= i < j < |l| ==> l[i].price > l[j].price
  }

  /** Bids for one outcome, strictly descending, none of them non-positive unless the floor allows it. */
  ghost predicate Quotes(l: Ladder, o: Outcome, floor: real) {
    && Descending(l)
    && (forall q :: q in l ==> q.outcome == o && (q.price > 0.0 || q.price >= floor))
  }

  // ----- building -----

  function SizeAtLevel(profile: ReplayProfile, level: nat): real {
    var factor := Max(1.0 - level as real * profile.ladderSizeDecay, 0.2);
    QuantizeSize(Max(profile.baseOrderShares * factor, MIN_ORDER_SHARES))
  }

  lemma SizesMeetMinimum(profile: ReplayProfile, level: nat)
    ensures SizeAtLevel(profile, level) >= MIN_ORDER_SHARES
  {
    var factor := Max(1.0 - level as real * profile.ladderSizeDecay, 0.2);
    var wanted := Max(profile.baseOrderShares * factor, MIN_ORDER_SHARES);
    var r := QuantizeSize(wanted);
    assert (r * 100.0).Floor as real > 499.0;
  }

  function SizesOf(profile: ReplayProfile): nat -> real {
    (level: nat) => SizeAtLevel(profile, level)
  }

  ghost predicate IsRung(q: LadderLevel, sizes: nat -> real, o: Outcome, top: real, minBid: real, i: nat) {
    q == LadderLevel(o, top - STEP * i as real, sizes(i)) && q.price >= minBid && q.price > 0.0
  }

  /**
   Rungs one tick apart from `top` down, as long as they stay at or above `minBid` and positive: no
   rung is missing, none is too low, and each has the size of its level.
   */
  ghost predicate IsGrid(l: Ladder, sizes: nat -> real, o: Outcome, top: real, minBid: real, levels: nat) {
    && |l| <= levels
    && (forall i :: 0 <= i < |l| ==> IsRung(l[i], sizes, o, top, minBid, i))
    && (|l| < levels ==> top - STEP * |l| as real < minBid || top - STEP * |l| as real <= 0.0)
  }

  /** The rungs from the i-th on. */
  function GridFrom(sizes: nat -> real, o: Outcome, top: real, minBid: real, levels: nat, i: nat): Ladder
    decreases levels - i
  {
    var price := top - STEP * i as real;
    if i >= levels || price < minBid || price <= 0.0 then []
    else [LadderLevel(o, price, sizes(i))] + GridFrom(sizes, o, top, minBid, levels, i + 1)
  }

  function Grid(profile: ReplayProfile, o: Outcome, top: real, minBid: real, levels: nat): Ladder {
    GridFrom(SizesOf(profile), o, top, minBid, levels, 0)
  }

  /** What the recursion lays out from the i-th rung on. */
  lemma {:induction false} GridFromIs(sizes: nat -> real, o: Outcome, top: real, minBid: real, levels: nat, i: nat)
    requires i <= levels
    ensures var g := GridFrom(sizes, o, top, minBid, levels, i);
      && i + |g| <= levels
      && (forall j :: 0 <= j < |g| ==> IsRung(g[j], sizes, o, top, minBid, i + j))
      && (i + |g| < levels ==> top - STEP * (i + |g|) as real < minBid || top - STEP * (i + |g|) as real <= 0.0)
    decreases levels - i
  {
    var price := top - STEP * i as real;
    if i < levels && price >= minBid && price > 0.0 {
      var rest := GridFrom(sizes, o, top, minBid, levels, i + 1);
      GridFromIs(sizes, o, top, minBid, levels, i + 1);
      var g := [LadderLevel(o, price, sizes(i))] + rest;
      forall j | 0 <= j < |g| ensures IsRung(g[j], sizes, o, top, minBid, i + j) {
        if j > 0 {
          assert g[j] == rest[j - 1] && IsRung(rest[j - 1], sizes, o, top, minBid, i + 1 + (j - 1));
        }
      }
    }
  }

  lemma GridIsGrid(sizes: nat -> real, o: Outcome, top: real, minBid: real, levels: nat)
    ensures IsGrid(GridFrom(sizes, o, top, minBid, levels, 0), sizes, o, top, minBid, levels)
  {
    GridFromIs(sizes, o, top, minBid, levels, 0);
  }

  lemma GridQuotes(l: Ladder, sizes: nat -> real, o: Outcome, top: real, minBid: real, levels: nat, floor: real)
    requires IsGrid(l, sizes, o, top, minBid, levels)
    ensures Quotes(l, o, floor)
  {
  }

  method BuildLadder(profile: ReplayProfile, o: Outcome, top: real, minBid: real, levels: nat, ghost low: real) returns (l: Ladder)
    ensures l == Grid(profile, o, top, minBid, levels)
    ensures IsGrid(l, SizesOf(profile), o, top, minBid, levels)
    ensures Quotes(l, o, low)
  {
    l := LayRungs(SizesOf(profile), o, top, minBid, levels);
    GridIsGrid(SizesOf(profile), o, top, minBid, levels);
    GridQuotes(l, SizesOf(profile), o, top, minBid, levels, low);
  }

  lemma GridNext(done: Ladder, sizes: nat -> real, o: Outcome, top: real, minBid: real, levels: nat, i: nat, price: real)
    requires i < levels && price == top - STEP * i as real && minBid <= price && 0.0 < price
    ensures done + GridFrom(sizes, o, top, minBid, levels, i)
         == (done + [LadderLevel(o, price, sizes(i))]) + GridFrom(sizes, o, top, minBid, levels, i + 1)
  {
    MoveOver(done, LadderLevel(o, price, sizes(i)), GridFrom(sizes, o, top, minBid, levels, i + 1));
  }

  /** The loop that lays out the rungs. */
  method LayRungs(sizes: nat -> real, o: Outcome, top: real, minBid: real, levels: nat) returns (l: Ladder)
    ensures l == GridFrom(sizes, o, top, minBid, levels, 0)
  {
    l := [];
    var i := 0;
    while i < levels
      invariant 0 <= i <= levels
      invariant l + GridFrom(sizes, o, top, minBid, levels, i) == GridFrom(sizes, o, top, minBid, levels, 0)
    {
      var price := top - STEP * i as real;
      if price < minBid || price <= 0.0 {
        break;
      }
      GridNext(l, sizes, o, top, minBid, levels, i, price);
      l := l + [LadderLevel(o, price, sizes(i))];
      i := i + 1;
    }
  }

  function MinBid(profile: ReplayProfile, fv: real): real {
    Max(fv * profile.minBidFvRatio, profile.minBidFloor)
  }

  /** How far an excess of YES shares moves the YES bids down and the NO bids up. */
  function Skew(profile: ReplayProfile, h: Holding): real {
    if Abs(h.Excess()) > 0.0 then h.Excess() * profile.skewPerShare else 0.0
  }

  /** Middle of a ladder before rounding: a share of fair value, moved against the excess. */
  function Center(profile: ReplayProfile, fv: real, skew: real): real {
    RoundDownToTick(Max(profile.targetCombined * fv - skew, MinBid(profile, fv)), TICK_SIZE)
  }

  /** One side: nothing when the outcome is dead and the other is not held, one floor bid when it is. */
  function SideOf(profile: ReplayProfile, o: Outcome, fv: real, skew: real, otherQty: real, levels: nat): Ladder {
    if fv >= profile.fvDeadThreshold then Grid(profile, o, Center(profile, fv, skew), MinBid(profile, fv), levels)
    else if otherQty == 0.0 then []
    else [LadderLevel(o, MinBid(profile, fv), profile.baseOrderShares)]
  }

  /** Both sides, skewed in opposite directions; nothing at all when both outcomes are dead. */
  function BidLadders(profile: ReplayProfile, fvUp: real, fvDown: real, h: Holding, levels: nat): (Ladder, Ladder) {
    if fvUp < profile.fvDeadThreshold && fvDown < profile.fvDeadThreshold then ([], [])
    else (SideOf(profile, Yes, fvUp, Skew(profile, h), h.no.qty, levels),
          SideOf(profile, No, fvDown, -Skew(profile, h), h.yes.qty, levels))
  }

  // ----- the same in cents -----

  /** The whole number of cents that the price is cut down to. */
  ghost predicate CentsOf(cents: int, price: real) {
    cents as real * 0.01 <= price < cents as real * 0.01 + 0.01
  }

  /** The size of a rung shrinks with its level, to a fifth at most, and is never less than five shares. */
  ghost predicate SizeOfRung(size: real, profile: ReplayProfile, level: nat) {
    var factor := if 1.0 - level as real * profile.ladderSizeDecay >= 0.2 then 1.0 - level as real * profile.ladderSizeDecay else 0.2;
    var wanted := if profile.baseOrderShares * factor >= 5.0 then profile.baseOrderShares * factor else 5.0;
    size <= wanted < size + 0.01 && IsWhole(size * 100.0)
  }

  /** Bids a cent apart, from the given cents down to the lowest price allowed. */
  ghost predicate CentLadder(l: Ladder, profile: ReplayProfile, o: Outcome, cents: int, low: real, levels: nat) {
    && |l| <= levels
    && (forall i :: 0 <= i < |l| ==>
          && l[i].outcome == o && l[i].price == (cents - i) as real * 0.01 && l[i].price >= low && l[i].price > 0.0
          && SizeOfRung(l[i].size, profile, i))
    && (|l| < levels ==> (cents - |l|) as real * 0.01 < low || (cents - |l|) as real * 0.01 <= 0.0)
  }

  /** Bids a cent apart, from the largest whole number of cents that `wanted` reaches. */
  ghost predicate LadderFrom(l: Ladder, profile: ReplayProfile, o: Outcome, wanted: real, low: real, levels: nat) {
    exists cents: int :: CentsOf(cents, wanted) && CentLadder(l, profile, o, cents, low, levels)
  }

  /**
   The bids of one outcome, from its fair value and the price wanted for it: none while both outcomes are dead, or this one
   is and the other is not held; one bid at the lowest price allowed while only this one is dead; a ladder from the
   wanted price otherwise. The lowest price allowed is a share of the fair value, or the floor if that is more.
   */
  ghost predicate SideBids(l: Ladder, profile: ReplayProfile, o: Outcome, fv: real, wanted: real, otherFv: real, otherQty: real, levels: nat) {
    var low := if fv * profile.minBidFvRatio >= profile.minBidFloor then fv * profile.minBidFvRatio else profile.minBidFloor;
    if fv < profile.fvDeadThreshold && (otherFv < profile.fvDeadThreshold || otherQty == 0.0) then l == []
    else if fv < profile.fvDeadThreshold then l == [LadderLevel(o, low, profile.baseOrderShares)]
    else LadderFrom(l, profile, o, if wanted >= low then wanted else low, low, levels)
  }

  lemma SizesOfRungs(profile: ReplayProfile, level: nat)
    ensures SizeOfRung(SizesOf(profile)(level), profile, level)
  {
  }

  lemma RungInCents(q: LadderLevel, profile: ReplayProfile, o: Outcome, top: real, minBid: real, i: nat, cents: int)
    requires IsRung(q, SizesOf(profile), o, top, minBid, i) && top == cents as real * 0.01
    ensures q.outcome == o && q.price == (cents - i) as real * 0.01 && q.price >= minBid && q.price > 0.0
    ensures SizeOfRung(q.size, profile, i)
  {
    SizesOfRungs(profile, i);
  }

  lemma GridInCents(l: Ladder, profile: ReplayProfile, o: Outcome, wanted: real, minBid: real, levels: nat)
    requires IsGrid(l, SizesOf(profile), o, RoundDownToTick(wanted, TICK_SIZE), minBid, levels)
    ensures LadderFrom(l, profile, o, wanted, minBid, levels)
  {
    var top := RoundDownToTick(wanted, TICK_SIZE);
    var cents := (top / TICK_SIZE).Floor;
    assert top == cents as real * 0.01;
    assert CentsOf(cents, wanted);
    CentsFromGrid(l, profile, o, cents, minBid, levels);
  }

  lemma CentsFromGrid(l: Ladder, profile: ReplayProfile, o: Outcome, cents: int, minBid: real, levels: nat)
    requires IsGrid(l, SizesOf(profile), o, cents as real * 0.01, minBid, levels)
    ensures CentLadder(l, profile, o, cents, minBid, levels)
  {
    forall i | 0 <= i < |l|
      ensures l[i].outcome == o && l[i].price == (cents - i) as real * 0.01 && l[i].price >= minBid && l[i].price > 0.0
              && SizeOfRung(l[i].size, profile, i)
    {
      RungInCents(l[i], profile, o, cents as real * 0.01, minBid, i, cents);
    }
  }

  lemma SideInCents(l: Ladder, profile: ReplayProfile, o: Outcome, fv: real, skew: real, wanted: real, otherFv: real, otherQty: real, levels: nat)
    requires fv >= profile.fvDeadThreshold || otherFv >= profile.fvDeadThreshold
    requires l == SideOf(profile, o, fv, skew, otherQty, levels) && wanted == profile.targetCombined * fv - skew
    ensures SideBids(l, profile, o, fv, wanted, otherFv, otherQty, levels)
  {
    if fv >= profile.fvDeadThreshold {
      var low := MinBid(profile, fv);
      GridIsGrid(SizesOf(profile), o, Center(profile, fv, skew), low, levels);
      CenterIs(profile, fv, skew, wanted);
      GridInCents(l, profile, o, Max(wanted, low), low, levels);
    }
  }

  lemma CenterIs(profile: ReplayProfile, fv: real, skew: real, wanted: real)
    requires wanted == profile.targetCombined * fv - skew
    ensures Center(profile, fv, skew) == RoundDownToTick(Max(wanted, MinBid(profile, fv)), TICK_SIZE)
  {
  }

  lemma SkewIs(profile: ReplayProfile, h: Holding)
    ensures Skew(profile, h) == (h.yes.qty - h.no.qty) * profile.skewPerShare
  {
    var excess := h.yes.qty - h.no.qty;
    assert h.Excess() == excess;
    if excess == 0.0 {
      assert excess * profile.skewPerShare == 0.0;
    } else {
      SameFactor(profile.skewPerShare, h.Excess(), excess);
    }
  }

  /** An excess of shares lowers the bids of its own side and raises those of the other, by the same amount per share. */
  lemma BidsInCents(profile: ReplayProfile, fvUp: real, fvDown: real, h: Holding, levels: nat, yes: Ladder, no: Ladder, shift: real)
    requires (yes, no) == BidLadders(profile, fvUp, fvDown, h, levels) && shift == (h.yes.qty - h.no.qty) * profile.skewPerShare
    ensures SideBids(yes, profile, Yes, fvUp, profile.targetCombined * fvUp - shift, fvDown, h.no.qty, levels)
    ensures SideBids(no, profile, No, fvDown, profile.targetCombined * fvDown + shift, fvUp, h.yes.qty, levels)
  {
    SkewIs(profile, h);
    if fvUp >= profile.fvDeadThreshold || fvDown >= profile.fvDeadThreshold {
      SideInCents(yes, profile, Yes, fvUp, shift, profile.targetCombined * fvUp - shift, fvDown, h.no.qty, levels);
      SideInCents(no, profile, No, fvDown, -shift, profile.targetCombined * fvDown + shift, fvUp, h.yes.qty, levels);
    }
  }

  lemma FirstInCents(l: Ladder, profile: ReplayProfile, o: Outcome, wanted: real, m: Ladder, wanted': real, low: real, levels: nat)
    requires LadderFrom(l, profile, o, wanted, low, levels) && LadderFrom(m, profile, o, wanted', low, levels)
    requires wanted <= wanted' && l != [] && m != []
    ensures l[0].price <= m[0].price
  {
    var k :| CentsOf(k, wanted) && CentLadder(l, profile, o, k, low, levels);
    var n :| CentsOf(n, wanted') && CentLadder(m, profile, o, n, low, levels);
    assert k <= n;
  }

  lemma SideFollows(l: Ladder, m: Ladder, profile: ReplayProfile, o: Outcome, fv: real, wanted: real, wanted': real,
                    otherFv: real, otherQty: real, otherQty': real, levels: nat)
    requires SideBids(l, profile, o, fv, wanted, otherFv, otherQty, levels)
    requires SideBids(m, profile, o, fv, wanted', otherFv, otherQty', levels)
    requires wanted <= wanted' && l != [] && m != []
    ensures l[0].price <= m[0].price
  {
    if fv >= profile.fvDeadThreshold {
      var low := if fv * profile.minBidFvRatio >= profile.minBidFloor then fv * profile.minBidFvRatio else profile.minBidFloor;
      FirstInCents(l, profile, o, if wanted >= low then wanted else low, m, if wanted' >= low then wanted' else low, low, levels);
    }
  }

  /**
   More YES excess never raises the first YES bid nor lowers the first NO bid, whatever the fair values are, when a share
   of excess is set to move the bids away from it.
   */
  lemma ExcessMovesBids(profile: ReplayProfile, fvUp: real, fvDown: real, h: Holding, h': Holding, levels: nat,
                        yes: Ladder, no: Ladder, yes': Ladder, no': Ladder)
    requires (yes, no) == BidLadders(profile, fvUp, fvDown, h, levels)
    requires (yes', no') == BidLadders(profile, fvUp, fvDown, h', levels)
    requires h.yes.qty - h.no.qty <= h'.yes.qty - h'.no.qty && 0.0 <= profile.skewPerShare
    ensures yes != [] && yes' != [] ==> yes'[0].price <= yes[0].price
    ensures no != [] && no' != [] ==> no'[0].price >= no[0].price
  {
    ShiftFollows(h.yes.qty - h.no.qty, h'.yes.qty - h'.no.qty, profile.skewPerShare);
    BidsFollow(profile, fvUp, fvDown, h, h', levels, yes, no, yes', no',
               (h.yes.qty - h.no.qty) * profile.skewPerShare, (h'.yes.qty - h'.no.qty) * profile.skewPerShare);
  }

  lemma ShiftFollows(a: real, b: real, s: real)
    requires a <= b
    ensures 0.0 <= s ==> a * s <= b * s
    ensures s <= 0.0 ==> b * s <= a * s
  {
    if 0.0 <= s {
      MulMonotone(s, a, b);
    }
    if s <= 0.0 {
      MulMonotone(-s, a, b);
    }
  }

  /** Under a negative setting it is the other way round. */
  lemma NegativeSkewMovesBids(profile: ReplayProfile, fvUp: real, fvDown: real, h: Holding, h': Holding, levels: nat,
                              yes: Ladder, no: Ladder, yes': Ladder, no': Ladder)
    requires (yes, no) == BidLadders(profile, fvUp, fvDown, h, levels)
    requires (yes', no') == BidLadders(profile, fvUp, fvDown, h', levels)
    requires h.yes.qty - h.no.qty <= h'.yes.qty - h'.no.qty && profile.skewPerShare <= 0.0
    ensures yes != [] && yes' != [] ==> yes'[0].price >= yes[0].price
    ensures no != [] && no' != [] ==> no'[0].price <= no[0].price
  {
    ShiftFollows(h.yes.qty - h.no.qty, h'.yes.qty - h'.no.qty, profile.skewPerShare);
    BidsFollow(profile, fvUp, fvDown, h', h, levels, yes', no', yes, no,
               (h'.yes.qty - h'.no.qty) * profile.skewPerShare, (h.yes.qty - h.no.qty) * profile.skewPerShare);
  }

  lemma BidsFollow(profile: ReplayProfile, fvUp: real, fvDown: real, h: Holding, h': Holding, levels: nat,
                   yes: Ladder, no: Ladder, yes': Ladder, no': Ladder, shift: real, shift': real)
    requires (yes, no) == BidLadders(profile, fvUp, fvDown, h, levels) && shift == (h.yes.qty - h.no.qty) * profile.skewPerShare
    requires (yes', no') == BidLadders(profile, fvUp, fvDown, h', levels) && shift' == (h'.yes.qty - h'.no.qty) * profile.skewPerShare
    requires shift <= shift'
    ensures yes != [] && yes' != [] ==> yes'[0].price <= yes[0].price
    ensures no != [] && no' != [] ==> no[0].price <= no'[0].price
  {
    BidsInCents(profile, fvUp, fvDown, h, levels, yes, no, shift);
    BidsInCents(profile, fvUp, fvDown, h', levels, yes', no', shift');
    BothFollow(profile, fvUp, fvDown, h, h', levels, yes, no, yes', no',
               profile.targetCombined * fvUp, profile.targetCombined * fvDown, shift, shift');
  }

  lemma BothFollow(profile: ReplayProfile, fvUp: real, fvDown: real, h: Holding, h': Holding, levels: nat,
                   yes: Ladder, no: Ladder, yes': Ladder, no': Ladder, up: real, down: real, shift: real, shift': real)
    requires shift <= shift'
    requires SideBids(yes, profile, Yes, fvUp, up - shift, fvDown, h.no.qty, levels)
    requires SideBids(no, profile, No, fvDown, down + shift, fvUp, h.yes.qty, levels)
    requires SideBids(yes', profile, Yes, fvUp, up - shift', fvDown, h'.no.qty, levels)
    requires SideBids(no', profile, No, fvDown, down + shift', fvUp, h'.yes.qty, levels)
    ensures yes != [] && yes' != [] ==> yes'[0].price <= yes[0].price
    ensures no != [] && no' != [] ==> no[0].price <= no'[0].price
  {
    if yes != [] && yes' != [] {
      SideFollows(yes', yes, profile, Yes, fvUp, up - shift', up - shift, fvDown, h'.no.qty, h.no.qty, levels);
    }
    if no != [] && no' != [] {
      SideFollows(no, no', profile, No, fvDown, down + shift, down + shift', fvUp, h.yes.qty, h'.yes.qty, levels);
    }
  }

  method SideLadder(profile: ReplayProfile, o: Outcome, fv: real, skew: real, otherQty: real, levels: nat)
    returns (l: Ladder)
    ensures l == SideOf(profile, o, fv, skew, otherQty, levels)
    ensures Quotes(l, o, MinBid(profile, fv))
    ensures fv >= profile.fvDeadThreshold ==> IsGrid(l, SizesOf(profile), o, Center(profile, fv, skew), MinBid(profile, fv), levels)
  {
    if fv < profile.fvDeadThreshold {
      if otherQty == 0.0 {
        l := [];
      } else {
        l := [LadderLevel(o, MinBid(profile, fv), profile.baseOrderShares)];
      }
    } else {
      l := BuildLadder(profile, o, Center(profile, fv, skew), MinBid(profile, fv), levels, MinBid(profile, fv));
    }
  }

  method ComputeBidLadder(profile: ReplayProfile, fvUp: real, fvDown: real, h: Holding, levels: nat)
    returns (yes: Ladder, no: Ladder)
    ensures (yes, no) == BidLadders(profile, fvUp, fvDown, h, levels)
    ensures Quotes(yes, Yes, MinBid(profile, fvUp)) && Quotes(no, No, MinBid(profile, fvDown))
    ensures fvUp >= profile.fvDeadThreshold ==>
              IsGrid(yes, SizesOf(profile), Yes, Center(profile, fvUp, Skew(profile, h)), MinBid(profile, fvUp), levels)
    ensures fvDown >= profile.fvDeadThreshold ==>
              IsGrid(no, SizesOf(profile), No, Center(profile, fvDown, -Skew(profile, h)), MinBid(profile, fvDown), levels)
    ensures var shift := (h.yes.qty - h.no.qty) * profile.skewPerShare;
      && SideBids(yes, profile, Yes, fvUp, profile.targetCombined * fvUp - shift, fvDown, h.no.qty, levels)
      && SideBids(no, profile, No, fvDown, profile.targetCombined * fvDown + shift, fvUp, h.yes.qty, levels)
  {
    yes, no := BothSides(profile, fvUp, fvDown, h, levels);
    BidsInCents(profile, fvUp, fvDown, h, levels, yes, no, (h.yes.qty - h.no.qty) * profile.skewPerShare);
  }

  method BothSides(profile: ReplayProfile, fvUp: real, fvDown: real, h: Holding, levels: nat) returns (yes: Ladder, no: Ladder)
    ensures (yes, no) == BidLadders(profile, fvUp, fvDown, h, levels)
    ensures Quotes(yes, Yes, MinBid(profile, fvUp)) && Quotes(no, No, MinBid(profile, fvDown))
    ensures fvUp >= profile.fvDeadThreshold ==>
              IsGrid(yes, SizesOf(profile), Yes, Center(profile, fvUp, Skew(profile, h)), MinBid(profile, fvUp), levels)
    ensures fvDown >= profile.fvDeadThreshold ==>
              IsGrid(no, SizesOf(profile), No, Center(profile, fvDown, -Skew(profile, h)), MinBid(profile, fvDown), levels)
  {
    if fvUp < profile.fvDeadThreshold && fvDown < profile.fvDeadThreshold {
      return [], [];
    }
    yes := SideLadder(profile, Yes, fvUp, Skew(profile, h), h.no.qty, levels);
    no := SideLadder(profile, No, fvDown, -Skew(profile, h), h.yes.qty, levels);
  }

  // ----- anchoring to the ask -----

  /** Highest bid that keeps the post-only buffer to the ask. */
  function AnchorTop(profile: ReplayProfile, ask: real): real {
    RoundDownToTick(Max(ask - TICK_SIZE * profile.postonlyBufferTicks as real, 0.0), TICK_SIZE)
  }

  /** With a buffer of at least one tick, no bid is at or through the ask. */
  ghost predicate BelowAsk(profile: ReplayProfile, l: Ladder, ask: Option<real>) {
    1 <= profile.postonlyBufferTicks && ask.Some? && 0.0 < ask.value ==> forall q :: q in l ==> q.price < ask.value
  }

  /** A ladder that crosses the ask or lags the anchor is rebuilt from the anchor. */
  function AnchoredOf(profile: ReplayProfile, o: Outcome, l: Ladder, ask: Option<real>, minBid: real, levels: nat): Ladder {
    if ask.Some? && l != [] && (l[0].price >= ask.value || l[0].price < AnchorTop(profile, ask.value))
    then Grid(profile, o, AnchorTop(profile, ask.value), minBid, levels)
    else l
  }

  method AnchorToAsk(profile: ReplayProfile, o: Outcome, l: Ladder, ask: Option<real>, minBid: real, levels: nat)
    returns (r: Ladder)
    requires Quotes(l, o, minBid)
    ensures r == AnchoredOf(profile, o, l, ask, minBid, levels)
    ensures Quotes(r, o, minBid)
    ensures BelowAsk(profile, r, ask)
  {
    r := l;
    if ask.Some? {
      var maxBid := AnchorTop(profile, ask.value);
      if l != [] && (l[0].price >= ask.value || l[0].price < maxBid) {
        r := BuildLadder(profile, o, maxBid, minBid, levels, minBid);
        AnchoredBelowAsk(profile, o, r, ask.value, minBid, levels);
      } else {
        forall q | q in r ensures q.price < ask.value {
          TopIsBest(l, q);
        }
      }
    }
  }

  /** A ladder anchored to a positive ask never quotes at or through it. */
  lemma AnchoredBelowAsk(profile: ReplayProfile, o: Outcome, l: Ladder, ask: real, minBid: real, levels: nat)
    requires IsGrid(l, SizesOf(profile), o, AnchorTop(profile, ask), minBid, levels)
    ensures BelowAsk(profile, l, Some(ask))
  {
    if 0.0 < ask && 1 <= profile.postonlyBufferTicks {
      assert AnchorTop(profile, ask) <= Max(ask - TICK_SIZE * profile.postonlyBufferTicks as real, 0.0) < ask;
    }
  }

  /**
   Anchoring in cents: `cents` is the highest bid that stays the buffer of ticks under the ask. A ladder that starts at or
   through the ask, or under those cents, is laid out anew from them; any other is left alone.
   */
  lemma AnchoredInCents(profile: ReplayProfile, o: Outcome, l: Ladder, ask: Option<real>, minBid: real, levels: nat, cents: int)
    requires ask.Some? ==>
               var room := ask.value - 0.01 * profile.postonlyBufferTicks as real;
               CentsOf(cents, if room >= 0.0 then room else 0.0)
    ensures var r := AnchoredOf(profile, o, l, ask, minBid, levels);
      if ask.Some? && l != [] && (l[0].price >= ask.value || l[0].price < cents as real * 0.01)
      then CentLadder(r, profile, o, cents, minBid, levels)
      else r == l
  {
    if ask.Some? && l != [] {
      var room := Max(ask.value - TICK_SIZE * profile.postonlyBufferTicks as real, 0.0);
      var top := AnchorTop(profile, ask.value);
      assert top == RoundDownToTick(room, TICK_SIZE);
      SameCents(cents, room);
      if l[0].price >= ask.value || l[0].price < top {
        GridIsGrid(SizesOf(profile), o, top, minBid, levels);
        CentsFromGrid(Grid(profile, o, top, minBid, levels), profile, o, cents, minBid, levels);
      }
    }
  }

  /** There is only one whole number of cents that a price is cut down to. */
  lemma SameCents(cents: int, price: real)
    requires CentsOf(cents, price)
    ensures RoundDownToTick(price, TICK_SIZE) == cents as real * 0.01
  {
    var top := RoundDownToTick(price, TICK_SIZE);
    var k := (top / TICK_SIZE).Floor;
    assert top == k as real * 0.01;
    assert k == cents;
  }

  // ----- filtering -----

  function Retain(l: Ladder, keep: LadderLevel -> bool): Ladder {
    if l == [] then []
    else
      var last := l[|l| - 1];
      Retain(l[..|l| - 1], keep) + if keep(last) then [last] else []
  }

  lemma {:induction false} RetainKeeps(l: Ladder, keep: LadderLevel -> bool)
    ensures forall q :: q in Retain(l, keep) <==> q in l && keep(q)
  {
    if l != [] {
      RetainKeeps(l[..|l| - 1], keep);
      assert forall q :: q in l <==> q in l[..|l| - 1] || q == l[|l| - 1];
    }
  }

  lemma {:induction false} RetainDescends(l: Ladder, keep: LadderLevel -> bool)
    requires Descending(l)
    ensures Descending(Retain(l, keep))
  {
    if l != [] {
      var init := l[..|l| - 1];
      RetainDescends(init, keep);
      RetainKeeps(init, keep);
      var r := Retain(init, keep);
      forall i | 0 <= i < |r| ensures r[i].price > l[|l| - 1].price {
        assert r[i] in r;
        assert r[i] in init;
      }
    }
  }

  lemma RetainQuotes(l: Ladder, keep: LadderLevel -> bool, o: Outcome, floor: real)
    requires Quotes(l, o, floor)
    ensures Quotes(Retain(l, keep), o, floor)
  {
    RetainDescends(l, keep);
    RetainKeeps(l, keep);
  }

  lemma TopIsBest(l: Ladder, q: LadderLevel)
    requires Descending(l) && q in l
    ensures q.price <= l[0].price
  {
    var i :| 0 <= i < |l| && l[i] == q;
  }

  /** Ticks by which the heavy side is lowered; a count that does not fit in 32 bits counts as none. */
  function SkewTicks(profile: ReplayProfile, absExcess: real): nat {
    if profile.sharesPerSkewTick <= 0.0 || absExcess <= profile.skewActivationThreshold then 0
    else
      var raw := ((absExcess - profile.skewActivationThreshold) / profile.sharesPerSkewTick).Floor;
      var ticks := if 0 <= raw <= U32_MAX then raw else 0;
      if ticks <= profile.maxSkewTicks then ticks else profile.maxSkewTicks
  }

  function LowerBy(l: Ladder, shift: real): Ladder {
    seq(|l|, i requires 0 <= i < |l| => l[i].(price := l[i].price - shift))
  }

  function AtLeastFloor(floor: real): LadderLevel -> bool {
    (q: LadderLevel) => q.price >= floor && q.price > 0.0
  }

  predicate IsHeavy(h: Holding, o: Outcome) {
    if o == Yes then h.Excess() > 0.0 else h.Excess() <= 0.0
  }

  /** The heavy side is lowered by whole ticks of its excess, and what falls under the floor is dropped. */
  function SkewedOf(profile: ReplayProfile, l: Ladder, o: Outcome, h: Holding): Ladder {
    var ticks := SkewTicks(profile, Abs(h.Excess()));
    if ticks > 0 && IsHeavy(h, o) then Retain(LowerBy(l, TICK_SIZE * ticks as real), AtLeastFloor(profile.minBidFloor)) else l
  }

  /** Lower the bids of the heavy side, and drop those that fall under the floor. */
  method ApplyPostAnchorSkew(profile: ReplayProfile, yes: Ladder, no: Ladder, h: Holding, ghost lowYes: real, ghost lowNo: real)
    returns (yes': Ladder, no': Ladder)
    requires Quotes(yes, Yes, lowYes) && Quotes(no, No, lowNo)
    ensures yes' == SkewedOf(profile, yes, Yes, h) && no' == SkewedOf(profile, no, No, h)
    ensures Quotes(yes', Yes, lowYes) && Quotes(no', No, lowNo)
    ensures forall ask :: BelowAsk(profile, yes, ask) ==> BelowAsk(profile, yes', ask)
    ensures forall ask :: BelowAsk(profile, no, ask) ==> BelowAsk(profile, no', ask)
  {
    yes', no' := yes, no;
    var ticks := SkewTicks(profile, Abs(h.Excess()));
    if ticks == 0 {
      return;
    }
    var shift := TICK_SIZE * ticks as real;
    if h.Excess() > 0.0 {
      yes' := Retain(LowerBy(yes, shift), AtLeastFloor(profile.minBidFloor));
      LoweredQuotes(yes, Yes, shift, profile.minBidFloor, lowYes);
    } else {
      no' := Retain(LowerBy(no, shift), AtLeastFloor(profile.minBidFloor));
      LoweredQuotes(no, No, shift, profile.minBidFloor, lowNo);
    }
  }

  /** Whole ticks for the shares past the threshold; what does not fit in 32 bits counts as none. */
  ghost predicate TicksFor(ticks: nat, profile: ReplayProfile, excess: real) {
    if profile.sharesPerSkewTick <= 0.0 || excess <= profile.skewActivationThreshold
       || (excess - profile.skewActivationThreshold) / profile.sharesPerSkewTick >= 4294967296.0
    then ticks == 0
    else
      var wanted := (excess - profile.skewActivationThreshold) / profile.sharesPerSkewTick;
      ticks as real <= wanted && ticks <= profile.maxSkewTicks && (ticks == profile.maxSkewTicks || wanted < ticks as real + 1.0)
  }

  lemma SkewTicksAre(profile: ReplayProfile, excess: real)
    ensures TicksFor(SkewTicks(profile, excess), profile, excess)
  {
  }

  lemma TicksAgree(profile: ReplayProfile, excess: real, ticks: nat, n: nat)
    requires TicksFor(ticks, profile, excess) && TicksFor(n, profile, excess)
    ensures ticks == n
  {
  }

  lemma TicksOfExcess(profile: ReplayProfile, h: Holding, ticks: nat)
    requires TicksFor(ticks, profile, if h.yes.qty >= h.no.qty then h.yes.qty - h.no.qty else h.no.qty - h.yes.qty)
    ensures ticks == SkewTicks(profile, Abs(h.Excess()))
  {
    var excess := if h.yes.qty >= h.no.qty then h.yes.qty - h.no.qty else h.no.qty - h.yes.qty;
    assert Abs(h.Excess()) == excess;
    SkewTicksAre(profile, excess);
    TicksAgree(profile, excess, ticks, SkewTicks(profile, excess));
  }

  /** A bid after every bid went down by the shift, and those under the floor were dropped. */
  ghost predicate LoweredBid(q: LadderLevel, l: Ladder, shift: real, floor: real) {
    q.price >= floor && q.price > 0.0 && q.(price := q.price + shift) in l
  }

  /** Post-anchor skew in cents: each bid of the side with more shares goes down by the same ticks, and goes when under the floor. */
  lemma SkewedInCents(profile: ReplayProfile, l: Ladder, o: Outcome, h: Holding, ticks: nat, q: LadderLevel)
    requires TicksFor(ticks, profile, if h.yes.qty >= h.no.qty then h.yes.qty - h.no.qty else h.no.qty - h.yes.qty)
    ensures var r := SkewedOf(profile, l, o, h);
      if ticks > 0 && (if o == Yes then h.yes.qty > h.no.qty else h.yes.qty <= h.no.qty)
      then q in r <==> LoweredBid(q, l, 0.01 * ticks as real, profile.minBidFloor)
      else r == l
  {
    TicksOfExcess(profile, h, ticks);
    SkewedBy(profile, l, o, h, ticks, q);
  }

  lemma SkewedBy(profile: ReplayProfile, l: Ladder, o: Outcome, h: Holding, ticks: nat, q: LadderLevel)
    requires ticks == SkewTicks(profile, Abs(h.Excess()))
    ensures var r := SkewedOf(profile, l, o, h);
      if ticks > 0 && (if o == Yes then h.yes.qty > h.no.qty else h.yes.qty <= h.no.qty)
      then q in r <==> LoweredBid(q, l, 0.01 * ticks as real, profile.minBidFloor)
      else r == l
  {
    LoweredExactly(l, TICK_SIZE * ticks as real, profile.minBidFloor, q);
  }

  lemma LoweredExactly(l: Ladder, shift: real, floor: real, q: LadderLevel)
    ensures q in Retain(LowerBy(l, shift), AtLeastFloor(floor)) <==> LoweredBid(q, l, shift, floor)
  {
    var lowered := LowerBy(l, shift);
    RetainKeeps(lowered, AtLeastFloor(floor));
    var raised := q.(price := q.price + shift);
    if q in lowered {
      var i :| 0 <= i < |lowered| && lowered[i] == q;
      assert l[i] == raised;
    }
    if raised in l {
      var i :| 0 <= i < |l| && l[i] == raised;
      assert lowered[i] == q;
    }
  }

  lemma LoweredQuotes(l: Ladder, o: Outcome, shift: real, floor: real, low: real)
    requires Quotes(l, o, low)
    ensures Quotes(Retain(LowerBy(l, shift), AtLeastFloor(floor)), o, low)
    ensures 0.0 <= shift ==>
              forall q :: q in Retain(LowerBy(l, shift), AtLeastFloor(floor)) ==> exists p :: p in l && q.price <= p.price
  {
    var lowered := LowerBy(l, shift);
    forall q | q in lowered ensures q.outcome == o {
      var i :| 0 <= i < |lowered| && lowered[i] == q;
      assert l[i] in l;
    }
    RetainDescends(lowered, AtLeastFloor(floor));
    RetainKeeps(lowered, AtLeastFloor(floor));
    if 0.0 <= shift {
      forall q | q in lowered ensures exists p :: p in l && q.price <= p.price {
        var i :| 0 <= i < |lowered| && lowered[i] == q;
        assert l[i] in l && q.price <= l[i].price;
      }
    }
  }

  function AtMost(max: real): LadderLevel -> bool {
    (q: LadderLevel) => q.price <= max
  }

  /** What a pair may cost, seen from each side, and the average cost of each side that is held. */
  datatype CostLimits = CostLimits(limitYes: real, limitNo: real, avgYes: Option<real>, avgNo: Option<real>)

  function LimitsOf(profile: ReplayProfile, h: Holding): CostLimits {
    CostLimits(profile.CombinedCostLimit(h, Yes), profile.CombinedCostLimit(h, No),
               if h.yes.qty > 0.0 then Some(h.yes.Avg()) else None,
               if h.no.qty > 0.0 then Some(h.no.Avg()) else None)
  }

  /** A side with fewer shares than the other may cost more; averages are what was spent per share that is held. */
  lemma LimitsMean(profile: ReplayProfile, h: Holding)
    ensures LimitsOf(profile, h)
         == CostLimits(if h.yes.qty < h.no.qty then profile.lightSideMaxCombined else profile.maxCombinedAvgCost,
                       if h.no.qty < h.yes.qty then profile.lightSideMaxCombined else profile.maxCombinedAvgCost,
                       if h.yes.qty > 0.0 then Some(h.yes.spent / h.yes.qty) else None,
                       if h.no.qty > 0.0 then Some(h.no.spent / h.no.qty) else None)
  {
  }

  /**
   What the four cost filters are for: any YES bid and any NO bid together cost no more than both
   sides' limits, and a bid on top of the held other side's average cost stays in its own limit.
   */
  ghost predicate CostGuarded(c: CostLimits, yes: Ladder, no: Ladder) {
    && (forall y, n :: y in yes && n in no ==> y.price + n.price <= c.limitYes && y.price + n.price <= c.limitNo)
    && (c.avgNo.Some? ==> forall y :: y in yes ==> y.price + c.avgNo.value <= c.limitYes)
    && (c.avgYes.Some? ==> forall n :: n in no ==> n.price + c.avgYes.value <= c.limitNo)
  }

  function WithinBest(l: Ladder, limit: real, other: Ladder): Ladder {
    if other == [] then l else Retain(l, AtMost(limit - other[0].price))
  }

  function WithinAverage(l: Ladder, limit: real, avg: Option<real>): Ladder {
    if avg.None? then l else Retain(l, AtMost(limit - avg.value))
  }

  /** Each filter in turn looks at the best bid left on the other side, then at the held average cost. */
  function CostFiltered(c: CostLimits, yes: Ladder, no: Ladder): (Ladder, Ladder) {
    var y := WithinBest(yes, c.limitYes, no);
    var n := WithinBest(no, c.limitNo, y);
    (WithinAverage(y, c.limitYes, c.avgNo), WithinAverage(n, c.limitNo, c.avgYes))
  }

  method ApplyCostFilters(c: CostLimits, yes: Ladder, no: Ladder, ghost lowYes: real, ghost lowNo: real)
    returns (yes': Ladder, no': Ladder)
    requires Quotes(yes, Yes, lowYes) && Quotes(no, No, lowNo)
    ensures (yes', no') == CostFiltered(c, yes, no)
    ensures Quotes(yes', Yes, lowYes) && Quotes(no', No, lowNo)
    ensures (forall q :: q in yes' ==> q in yes) && (forall q :: q in no' ==> q in no)
    ensures CostGuarded(c, yes', no')
    ensures DroppedOnlyForCost(c, yes, no, yes', no')
  {
    var y1 := FilterByBest(yes, c.limitYes, no, Yes, lowYes);
    var n1 := FilterByBest(no, c.limitNo, y1, No, lowNo);
    CrossGuard(c, yes, no, y1, n1);
    yes' := FilterByAverage(y1, c.limitYes, c.avgNo, Yes, lowYes);
    no' := FilterByAverage(n1, c.limitNo, c.avgYes, No, lowNo);
  }

  method FilterByBest(l: Ladder, limit: real, other: Ladder, o: Outcome, ghost low: real) returns (r: Ladder)
    requires Quotes(l, o, low)
    ensures r == WithinBest(l, limit, other) && Quotes(r, o, low)
    ensures forall q :: q in r <==> q in l && (other != [] ==> q.price + other[0].price <= limit)
  {
    r := l;
    if other != [] {
      r := RetainAtMost(l, limit - other[0].price, o, low);
    }
  }

  method FilterByAverage(l: Ladder, limit: real, avg: Option<real>, o: Outcome, ghost low: real) returns (r: Ladder)
    requires Quotes(l, o, low)
    ensures r == WithinAverage(l, limit, avg) && Quotes(r, o, low)
    ensures forall q :: q in r <==> q in l && (avg.Some? ==> q.price + avg.value <= limit)
  {
    r := l;
    if avg.Some? {
      r := RetainAtMost(l, limit - avg.value, o, low);
    }
  }

  method RetainAtMost(l: Ladder, max: real, o: Outcome, ghost low: real) returns (r: Ladder)
    requires Quotes(l, o, low)
    ensures r == Retain(l, AtMost(max)) && Quotes(r, o, low)
    ensures forall q :: q in r <==> q in l && q.price <= max
  {
    r := Retain(l, AtMost(max));
    RetainQuotes(l, AtMost(max), o, low);
    RetainKeeps(l, AtMost(max));
  }

  /** A bid is dropped only when it is too dear next to the other side's best bid or held average. */
  ghost predicate DroppedOnlyForCost(c: CostLimits, yes: Ladder, no: Ladder, yes': Ladder, no': Ladder) {
    && (forall y :: y in yes && y !in yes' ==>
          || (no != [] && y.price + no[0].price > c.limitYes)
          || (c.avgNo.Some? && y.price + c.avgNo.value > c.limitYes))
    && (forall n :: n in no && n !in no' ==>
          || (yes != [] && n.price + yes[0].price > c.limitNo)
          || (c.avgYes.Some? && n.price + c.avgYes.value > c.limitNo))
  }

  lemma CrossGuard(c: CostLimits, yes: Ladder, no: Ladder, y1: Ladder, n1: Ladder)
    requires Descending(yes) && Descending(no) && Descending(y1)
    requires forall q :: q in y1 ==> q in yes
    requires forall q :: q in n1 ==> q in no
    requires no != [] ==> forall q :: q in y1 ==> q.price + no[0].price <= c.limitYes
    requires y1 != [] ==> forall q :: q in n1 ==> q.price + y1[0].price <= c.limitNo
    ensures forall y, n :: y in y1 && n in n1 ==> y.price + n.price <= c.limitYes && y.price + n.price <= c.limitNo
    ensures y1 != [] ==> yes != [] && y1[0].price <= yes[0].price
  {
    forall y, n | y in y1 && n in n1 ensures y.price + n.price <= c.limitYes && y.price + n.price <= c.limitNo {
      TopIsBest(no, n);
      TopIsBest(y1, y);
    }
    if y1 != [] {
      assert y1[0] in y1 && y1[0] in yes;
      TopIsBest(yes, y1[0]);
    }
  }

  // ----- resizing -----

  function TotalSize(l: Ladder): real {
    if l == [] then 0.0 else TotalSize(l[..|l| - 1]) + l[|l| - 1].size
  }

  predicate HasSize(q: LadderLevel) {
    q.size > 0.0
  }

  function Boosted(profile: ReplayProfile, size: real): real {
    QuantizeSize(Max(size * profile.rebalanceSizeMultiplier as real, MIN_ORDER_SHARES))
  }

  /** A boosted size is the multiplied one, cut to two decimals, and never less than five shares. */
  lemma BoostedMeans(profile: ReplayProfile, size: real, wanted: real)
    requires wanted == size * profile.rebalanceSizeMultiplier as real
    ensures var most := if wanted >= 5.0 then wanted else 5.0;
      Boosted(profile, size) <= most < Boosted(profile, size) + 0.01 && IsWhole(Boosted(profile, size) * 100.0)
  {
    assert Boosted(profile, size) == QuantizeSize(Max(wanted, 5.0));
  }

  /** Every bid of `r` is a bid of `l` at the same price, possibly with another size. */
  ghost predicate SamePrices(r: Ladder, l: Ladder) {
    forall q :: q in r ==> exists p :: p in l && p.outcome == q.outcome && p.price == q.price
  }

  /** Sizes multiplied from the best price on, as far as the budget goes; zero after that. */
  function BoostedSizes(profile: ReplayProfile, l: Ladder, budget: real): Ladder {
    if l == [] then []
    else
      var init := BoostedSizes(profile, l[..|l| - 1], budget);
      var left, last := budget - TotalSize(init), l[|l| - 1];
      init + [last.(size := if left > 0.0 then Min(Boosted(profile, last.size), left) else 0.0)]
  }

  /** Past the soft excess the light side is boosted, by at most the excess it is meant to close. */
  function RebalancedOf(profile: ReplayProfile, l: Ladder, o: Outcome, h: Holding): Ladder {
    if profile.rebalanceSizeMultiplier <= 1 || Abs(h.Excess()) < profile.exitSoftExcess || IsHeavy(h, o) then l
    else Retain(BoostedSizes(profile, l, Abs(h.Excess())), HasSize)
  }

  method BoostLadder(profile: ReplayProfile, l: Ladder, o: Outcome, budget: real, ghost low: real) returns (r: Ladder)
    requires Quotes(l, o, low) && 0.0 <= budget
    ensures r == Retain(BoostedSizes(profile, l, budget), HasSize)
    ensures Quotes(r, o, low) && SamePrices(r, l)
    ensures TotalSize(r) <= budget
    ensures forall q :: q in r ==> q.size > 0.0
  {
    var sized := BoostSizes(profile, l, budget);
    BoostedWithin(profile, l, budget);
    ResizedQuotes(sized, l, o, low);
    r := Retain(sized, HasSize);
    RetainQuotes(sized, HasSize, o, low);
    RetainKeeps(sized, HasSize);
    RetainTotal(sized);
  }

  /** The loop that hands out the budget, best price first. */
  method BoostSizes(profile: ReplayProfile, l: Ladder, budget: real) returns (sized: Ladder)
    ensures sized == BoostedSizes(profile, l, budget)
  {
    sized := [];
    var remaining := budget;
    var i := 0;
    while i < |l|
      invariant 0 <= i <= |l|
      invariant sized == BoostedSizes(profile, l[..i], budget)
      invariant remaining == budget - TotalSize(sized)
    {
      var size := 0.0;
      if remaining > 0.0 {
        size := Min(Boosted(profile, l[i].size), remaining);
        remaining := remaining - size;
      }
      BoostNext(profile, l, budget, i, sized, size);
      sized := sized + [l[i].(size := size)];
      i := i + 1;
    }
    assert l[..i] == l;
  }

  /** Boosting keeps every bid but its size, and never spends more than the budget. */
  lemma {:induction false} BoostedWithin(profile: ReplayProfile, l: Ladder, budget: real)
    requires 0.0 <= budget
    ensures var r := BoostedSizes(profile, l, budget);
      && |r| == |l| && TotalSize(r) <= budget
      && forall k :: 0 <= k < |l| ==> Resized(r[k], l[k])
  {
    if l != [] {
      var r, n := BoostedSizes(profile, l, budget), |l| - 1;
      BoostedWithin(profile, l[..n], budget);
      assert r[..n] == BoostedSizes(profile, l[..n], budget);
      forall k | 0 <= k < |l| ensures Resized(r[k], l[k]) {
        assert k < n ==> r[k] == r[..n][k] && l[k] == l[..n][k];
      }
    }
  }

  /** And it gives a level all it is meant to get, or the levels up to it spend the whole budget. */
  lemma {:induction false} BoostedSpends(profile: ReplayProfile, l: Ladder, budget: real, k: nat)
    requires 0.0 <= budget && k < |l|
    ensures var r := BoostedSizes(profile, l, budget);
      && |r| == |l|
      && (r[k].size == Boosted(profile, l[k].size) || TotalSize(r[..k + 1]) == budget)
  {
    var r, n := BoostedSizes(profile, l, budget), |l| - 1;
    BoostedLast(profile, l, budget);
    if k < n {
      BoostedSpends(profile, l[..n], budget, k);
      assert r[..k + 1] == r[..n][..k + 1];
    } else {
      assert r[..k + 1] == r;
    }
  }

  lemma BoostedLast(profile: ReplayProfile, l: Ladder, budget: real)
    requires 0.0 <= budget && l != []
    ensures var r, n := BoostedSizes(profile, l, budget), |l| - 1;
      && |r| == |l| && r[..n] == BoostedSizes(profile, l[..n], budget)
      && (r[n].size == Boosted(profile, l[n].size) || TotalSize(r) == budget)
  {
    var n := |l| - 1;
    BoostedWithin(profile, l, budget);
    BoostedWithin(profile, l[..n], budget);
    assert BoostedSizes(profile, l, budget)[..n] == BoostedSizes(profile, l[..n], budget);
  }

  lemma BoostNext(profile: ReplayProfile, l: Ladder, budget: real, i: nat, sized: Ladder, size: real)
    requires i < |l| && sized == BoostedSizes(profile, l[..i], budget)
    requires size == if budget - TotalSize(sized) > 0.0 then Min(Boosted(profile, l[i].size), budget - TotalSize(sized)) else 0.0
    ensures BoostedSizes(profile, l[..i + 1], budget) == sized + [l[i].(size := size)]
    ensures TotalSize(sized + [l[i].(size := size)]) == TotalSize(sized) + size
  {
    assert l[..i + 1][..i] == l[..i];
    assert (sized + [l[i].(size := size)])[..|sized|] == sized;
  }

  ghost predicate Resized(q: LadderLevel, p: LadderLevel) {
    q == p.(size := q.size) && 0.0 <= q.size
  }

  lemma ResizedQuotes(sized: Ladder, l: Ladder, o: Outcome, floor: real)
    requires |sized| == |l| && forall k :: 0 <= k < |l| ==> Resized(sized[k], l[k])
    requires Quotes(l, o, floor)
    ensures Quotes(sized, o, floor) && SamePrices(sized, l)
  {
    forall q | q in sized ensures exists p :: p in l && p.outcome == q.outcome && p.price == q.price {
      var k :| 0 <= k < |sized| && sized[k] == q;
      assert l[k] in l;
    }
    forall q | q in sized ensures q.outcome == o && (q.price > 0.0 || q.price >= floor) {
      var k :| 0 <= k < |sized| && sized[k] == q;
      assert l[k] in l;
    }
  }

  lemma {:induction false} RetainTotal(l: Ladder)
    requires forall k :: 0 <= k < |l| ==> 0.0 <= l[k].size
    ensures TotalSize(Retain(l, HasSize)) == TotalSize(l)
  {
    if l != [] {
      var init := Retain(l[..|l| - 1], HasSize);
      RetainTotal(l[..|l| - 1]);
      assert (init + [l[|l| - 1]])[..|init|] == init;
      assert init + [] == init;
    }
  }

  method ApplyRebalanceSizeMultiplier(profile: ReplayProfile, yes: Ladder, no: Ladder, h: Holding,
                                      ghost lowYes: real, ghost lowNo: real)
    returns (yes': Ladder, no': Ladder)
    requires Quotes(yes, Yes, lowYes) && Quotes(no, No, lowNo)
    ensures yes' == RebalancedOf(profile, yes, Yes, h) && no' == RebalancedOf(profile, no, No, h)
    ensures Quotes(yes', Yes, lowYes) && Quotes(no', No, lowNo)
    ensures SamePrices(yes', yes) && SamePrices(no', no)
    ensures yes' == yes || TotalSize(yes') <= Abs(h.Excess())
    ensures no' == no || TotalSize(no') <= Abs(h.Excess())
  {
    yes', no' := yes, no;
    if profile.rebalanceSizeMultiplier <= 1 || Abs(h.Excess()) < profile.exitSoftExcess {
      return;
    }
    if h.Excess() > 0.0 {
      no' := BoostLadder(profile, no, No, Abs(h.Excess()), lowNo);
    } else {
      yes' := BoostLadder(profile, yes, Yes, Abs(h.Excess()), lowYes);
    }
  }

  /** Bids at the prices of guarded ladders are guarded: resizing, clearing and truncating keep the guard. */
  lemma SamePricesKeepGuard(c: CostLimits, yes: Ladder, no: Ladder, yes': Ladder, no': Ladder)
    requires CostGuarded(c, yes, no)
    requires SamePrices(yes', yes) && SamePrices(no', no)
    ensures CostGuarded(c, yes', no')
  {
    forall y, n | y in yes' && n in no' ensures y.price + n.price <= c.limitYes && y.price + n.price <= c.limitNo {
      var y0 :| y0 in yes && y0.outcome == y.outcome && y0.price == y.price;
      var n0 :| n0 in no && n0.outcome == n.outcome && n0.price == n.price;
    }
  }

  /** Both ladders offered in turn, level by level. */
  function Interleave(yes: Ladder, no: Ladder): Ladder {
    if yes == [] then no
    else if no == [] then yes
    else [yes[0], no[0]] + Interleave(yes[1..], no[1..])
  }

  method InterleaveLadders(yes: Ladder, no: Ladder) returns (mixed: Ladder)
    ensures mixed == Interleave(yes, no)
  {
    mixed := [];
    var i := 0;
    assert From(yes, 0) == yes && From(no, 0) == no;
    ghost var all := Interleave(yes, no);
    while i < |yes| || i < |no|
      invariant 0 <= i
      invariant mixed + Interleave(From(yes, i), From(no, i)) == all
      decreases |yes| + |no| - i
    {
      InterleaveNext(mixed, yes, no, i);
      mixed := mixed + (LevelAt(yes, i) + LevelAt(no, i));
      i := i + 1;
    }
    InterleaveEnds(mixed, yes, no, i);
  }

  lemma InterleaveEnds(mixed: Ladder, yes: Ladder, no: Ladder, i: nat)
    requires i >= |yes| && i >= |no|
    ensures mixed + Interleave(From(yes, i), From(no, i)) == mixed
  {
    assert From(yes, i) == [] && From(no, i) == [];
  }

  function LevelAt(l: Ladder, i: nat): Ladder {
    if i < |l| then [l[i]] else []
  }

  lemma InterleaveNext(mixed: Ladder, yes: Ladder, no: Ladder, i: nat)
    requires i < |yes| || i < |no|
    ensures mixed + Interleave(From(yes, i), From(no, i))
         == (mixed + (LevelAt(yes, i) + LevelAt(no, i))) + Interleave(From(yes, i + 1), From(no, i + 1))
  {
    InterleaveStep(yes, no, i);
    Regroup(mixed, LevelAt(yes, i) + LevelAt(no, i), Interleave(From(yes, i + 1), From(no, i + 1)));
  }

  lemma InterleaveStep(yes: Ladder, no: Ladder, i: nat)
    requires i < |yes| || i < |no|
    ensures Interleave(From(yes, i), From(no, i))
         == LevelAt(yes, i) + LevelAt(no, i) + Interleave(From(yes, i + 1), From(no, i + 1))
  {
    assert From(yes, i) == LevelAt(yes, i) + From(yes, i + 1);
    assert From(no, i) == LevelAt(no, i) + From(no, i + 1);
    assert i < |yes| ==> From(yes, i)[1..] == From(yes, i + 1);
    assert i < |no| ==> From(no, i)[1..] == From(no, i + 1);
  }

  function From(l: Ladder, i: nat): Ladder {
    if i <= |l| then l[i..] else []
  }

  lemma {:induction false} InterleavedFrom(yes: Ladder, no: Ladder)
    ensures forall q :: q in Interleave(yes, no) <==> q in yes || q in no
  {
    if yes != [] && no != [] {
      InterleavedFrom(yes[1..], no[1..]);
      assert forall q :: q in yes <==> q == yes[0] || q in yes[1..];
      assert forall q :: q in no <==> q == no[0] || q in no[1..];
    }
  }
}
