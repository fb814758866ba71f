/**
 The VPIN tracker: trade volume is poured into buckets of equal size, and
 the last few full buckets tell how one-sided the flow is.

 The specification never pours anything. It looks at the whole stream of trades since the last reset as one
 line of volume, and cuts that line at the multiples of the bucket size.
 */
module Vpin {
  import opened Common
  import opened Decimals

  datatype VpinConfig = VpinConfig(bucketVolume: real, nBuckets: nat, widenThreshold: real,
                                   pullbackThreshold: real, maxSpreadMultiplier: real)

  datatype Bucket = Bucket(buyVolume: real, sellVolume: real) {

    function Total(): real {
      buyVolume + sellVolume
    }

    function Imbalance(): real {
      Abs(buyVolume - sellVolume)
    }
  }

  datatype Trade = Trade(volume: real, isBuy: bool)

  // ----- the stream as a line of volume -----

  ghost predicate Positive(s: seq<Trade>) {
    forall i :: 0 <= i < |s| ==> s[i].volume > 0.0
  }

  ghost function Volume(s: seq<Trade>): real {
    if s == [] then 0.0 else Volume(s[..|s| - 1]) + s[|s| - 1].volume
  }

  /** Volume bought (or sold) within the first `x` units of the stream. */
  ghost function UpTo(s: seq<Trade>, buys: bool, x: real): real {
    if s == [] then 0.0
    else
      var init, last := s[..|s| - 1], s[|s| - 1];
      if x <= Volume(init) then UpTo(init, buys, x)
      else UpTo(init, buys, Volume(init)) + if last.isBuy == buys then Min(x, Volume(s)) - Volume(init) else 0.0
  }

  /** Where the k-th bucket begins: k bucket volumes into the stream. */
  ghost function Mark(size: real, k: nat): real {
    if k == 0 then 0.0 else Mark(size, k - 1) + size
  }

  /** What was bought and sold between two points of the stream. */
  ghost function Cut(s: seq<Trade>, from: real, to: real): Bucket {
    Bucket(UpTo(s, true, to) - UpTo(s, true, from), UpTo(s, false, to) - UpTo(s, false, from))
  }

  /** The k-th bucket of the stream. */
  ghost function BucketAt(s: seq<Trade>, size: real, k: nat): Bucket {
    Cut(s, Mark(size, k), Mark(size, k + 1))
  }

  /** All full buckets of a stream of which `n` are full. */
  ghost function BucketsOf(s: seq<Trade>, size: real, n: nat): seq<Bucket> {
    seq(n, k requires 0 <= k < n => BucketAt(s, size, k))
  }

  function LastOf(b: seq<Bucket>, window: nat): seq<Bucket> {
    if |b| <= window then b else b[|b| - window..]
  }

  /** `n` buckets are full and the rest does not fill another one. */
  ghost predicate FullBuckets(s: seq<Trade>, size: real, n: nat) {
    Mark(size, n) <= Volume(s) < Mark(size, n + 1)
  }

  // ----- facts about the stream -----

  lemma {:induction false} MarkIsMultiple(size: real, k: nat)
    ensures Mark(size, k) == k as real * size
  {
    if k > 0 {
      MarkIsMultiple(size, k - 1);
      assert k as real * size == (k - 1) as real * size + size;
    }
  }

  lemma {:induction false} MarksGrow(size: real, i: nat, k: nat)
    requires 0.0 < size && i <= k
    ensures Mark(size, i) <= Mark(size, k)
    decreases k
  {
    if i < k {
      MarksGrow(size, i, k - 1);
    }
  }

  lemma {:induction false} VolumeNonNegative(s: seq<Trade>)
    requires Positive(s)
    ensures 0.0 <= Volume(s)
  {
    if s != [] {
      VolumeNonNegative(s[..|s| - 1]);
    }
  }

  lemma Appended(s: seq<Trade>, t: Trade, buys: bool, x: real)
    ensures Volume(s + [t]) == Volume(s) + t.volume
    ensures UpTo(s + [t], buys, x) == if x <= Volume(s) then UpTo(s, buys, x)
                                      else UpTo(s, buys, Volume(s)) + if t.isBuy == buys then Min(x, Volume(s) + t.volume) - Volume(s) else 0.0
  {
    assert (s + [t])[..|s|] == s;
  }

  /** The two sides of any prefix make up the whole prefix: no volume is lost or counted twice. */
  lemma {:induction false} SidesAddUp(s: seq<Trade>, x: real)
    requires Positive(s) && 0.0 <= x <= Volume(s)
    ensures UpTo(s, true, x) + UpTo(s, false, x) == x
  {
    if s != [] {
      var init := s[..|s| - 1];
      VolumeNonNegative(init);
      if x <= Volume(init) {
        SidesAddUp(init, x);
      } else {
        SidesAddUp(init, Volume(init));
      }
    }
  }

  lemma {:induction false} UpToGrows(s: seq<Trade>, buys: bool, x: real, y: real)
    requires Positive(s) && x <= y
    ensures UpTo(s, buys, x) <= UpTo(s, buys, y)
  {
    if s != [] {
      var init := s[..|s| - 1];
      if x <= Volume(init) {
        UpToGrows(init, buys, x, Min(y, Volume(init)));
      }
    }
  }

  /** Recording a then b on the same side is recording a + b: the stream reads the same everywhere. */
  lemma SplitTradeReadsSame(s: seq<Trade>, a: real, b: real, isBuy: bool, buys: bool, x: real)
    requires 0.0 < a && 0.0 < b
    ensures Volume(s + [Trade(a, isBuy)] + [Trade(b, isBuy)]) == Volume(s + [Trade(a + b, isBuy)])
    ensures UpTo(s + [Trade(a, isBuy)] + [Trade(b, isBuy)], buys, x) == UpTo(s + [Trade(a + b, isBuy)], buys, x)
  {
    var one := s + [Trade(a, isBuy)];
    Appended(s, Trade(a + b, isBuy), buys, x);
    Appended(s, Trade(a, isBuy), buys, x);
    Appended(s, Trade(a, isBuy), buys, Volume(one));
    Appended(one, Trade(b, isBuy), buys, x);
  }

  /** So the buckets are the same too, whichever way the trade was reported. */
  lemma SplitTradeSameBuckets(s: seq<Trade>, a: real, b: real, isBuy: bool, size: real, n: nat)
    requires 0.0 < a && 0.0 < b
    ensures BucketsOf(s + [Trade(a, isBuy)] + [Trade(b, isBuy)], size, n) == BucketsOf(s + [Trade(a + b, isBuy)], size, n)
  {
    var two, one := s + [Trade(a, isBuy)] + [Trade(b, isBuy)], s + [Trade(a + b, isBuy)];
    forall k | 0 <= k < n ensures BucketAt(two, size, k) == BucketAt(one, size, k) {
      var x, y := Mark(size, k), Mark(size, k + 1);
      SplitTradeReadsSame(s, a, b, isBuy, true, x);
      SplitTradeReadsSame(s, a, b, isBuy, true, y);
      SplitTradeReadsSame(s, a, b, isBuy, false, x);
      SplitTradeReadsSame(s, a, b, isBuy, false, y);
    }
  }

  /** Volume that comes later does not change a bucket that is already full. */
  lemma OldBucketsStay(s: seq<Trade>, t: Trade, size: real, n: nat)
    requires 0.0 < size && Mark(size, n) <= Volume(s)
    ensures BucketsOf(s + [t], size, n) == BucketsOf(s, size, n)
  {
    forall k | 0 <= k < n ensures BucketAt(s + [t], size, k) == BucketAt(s, size, k) {
      var x, y := Mark(size, k), Mark(size, k + 1);
      MarksGrow(size, k + 1, n);
      MarksGrow(size, k, n);
      Appended(s, t, true, x);
      Appended(s, t, true, y);
      Appended(s, t, false, x);
      Appended(s, t, false, y);
    }
  }

  /** A bucket of a full stream holds exactly the bucket volume, and neither side is negative. */
  lemma BucketIsFull(s: seq<Trade>, size: real, k: nat)
    requires Positive(s) && 0.0 < size && Mark(size, k + 1) <= Volume(s)
    ensures var b := BucketAt(s, size, k); b.Total() == size && 0.0 <= b.buyVolume && 0.0 <= b.sellVolume
  {
    var x, y := Mark(size, k), Mark(size, k + 1);
    MarksGrow(size, 0, k);
    SidesAddUp(s, x);
    SidesAddUp(s, y);
    UpToGrows(s, true, x, y);
    UpToGrows(s, false, x, y);
  }

  /** A stream has only one number of full buckets, so what the tracker should hold is determined by the stream. */
  lemma FullBucketsUnique(s: seq<Trade>, size: real, n: nat, m: nat)
    requires 0.0 < size && FullBuckets(s, size, n) && FullBuckets(s, size, m)
    ensures n == m
  {
    if n < m {
      MarksGrow(size, n + 1, m);
    } else if m < n {
      MarksGrow(size, m + 1, n);
    }
  }

  // ----- what the tracker holds -----

  datatype View = View(sealed: seq<Bucket>, buy: real, sell: real, total: real)

  /** The sealed window is the last full buckets of the stream and the open bucket is what is left over. */
  ghost predicate Tracks(v: View, s: seq<Trade>, size: real, window: nat, n: nat) {
    && Positive(s) && FullBuckets(s, size, n)
    && v.sealed == LastOf(BucketsOf(s, size, n), window)
    && Bucket(v.buy, v.sell) == Cut(s, Mark(size, n), Volume(s))
    && v.total == Volume(s) - Mark(size, n)
  }

  /** `Tracks`, under a trigger, so that streams are only unrolled when asked. */
  ghost predicate InStep(v: View, s: seq<Trade>, size: real, window: nat, n: nat) {
    && 0.0 < size && 0.0 <= v.total < size
    && forall k: nat {:trigger Look(AboutStream, k)} :: Look(AboutStream, k) ==> Tracks(v, s, size, window, n)
  }

  lemma NothingPoured(size: real, window: nat)
    requires 0.0 < size
    ensures InStep(View([], 0.0, 0.0, 0.0), [], size, window, 0)
  {
  }

  lemma FillInStep(v: View, s: seq<Trade>, size: real, window: nat, n: nat, volume: real, isBuy: bool)
    requires InStep(v, s, size, window, n) && 0.0 < volume && v.total + volume < size
    ensures InStep(Fill(v, volume, isBuy), s + [Trade(volume, isBuy)], size, window, n)
  {
    assert Look(AboutStream, 0);
    FillTracks(v, s, size, window, n, volume, isBuy);
  }

  lemma SealInStep(v: View, s: seq<Trade>, size: real, window: nat, n: nat, volume: real, isBuy: bool)
    requires InStep(v, s, size, window, n) && 0.0 < volume && v.total + volume == size
    ensures InStep(Seal(Fill(v, volume, isBuy), window), s + [Trade(volume, isBuy)], size, window, n + 1)
  {
    assert Look(AboutStream, 0);
    SealTracks(v, s, size, window, n, volume, isBuy);
  }

  lemma JoinInStep(v: View, s: seq<Trade>, a: real, b: real, isBuy: bool, size: real, window: nat, n: nat)
    requires 0.0 < a && 0.0 < b && InStep(v, s + [Trade(a, isBuy)] + [Trade(b, isBuy)], size, window, n)
    ensures InStep(v, s + [Trade(a + b, isBuy)], size, window, n)
  {
    assert Look(AboutStream, 0);
    JoinTracks(v, s, a, b, isBuy, size, window, n);
  }

  function Fill(v: View, volume: real, isBuy: bool): View {
    View(v.sealed, v.buy + (if isBuy then volume else 0.0), v.sell + (if isBuy then 0.0 else volume), v.total + volume)
  }

  /** Push one bucket and forget the oldest ones beyond the window. */
  function Seal(v: View, window: nat): View {
    View(LastOf(v.sealed + [Bucket(v.buy, v.sell)], window), 0.0, 0.0, 0.0)
  }

  /** One turn of the pouring loop: fill what fits, and seal the bucket when it is full. */
  function Turn(v: View, remaining: real, isBuy: bool, size: real, window: nat): (View, real) {
    var fill := Min(remaining, size - v.total);
    var w := Fill(v, fill, isBuy);
    (if w.total >= size then Seal(w, window) else w, remaining - fill)
  }

  lemma CutExtends(s: seq<Trade>, t: Trade, from: real)
    requires 0.0 < t.volume && from <= Volume(s)
    ensures var was := Cut(s, from, Volume(s));
      Cut(s + [t], from, Volume(s + [t]))
      == if t.isBuy then Bucket(was.buyVolume + t.volume, was.sellVolume) else Bucket(was.buyVolume, was.sellVolume + t.volume)
  {
    var to := Volume(s) + t.volume;
    Appended(s, t, true, from);
    Appended(s, t, true, to);
    Appended(s, t, false, from);
    Appended(s, t, false, to);
  }

  /** Pouring less than a bucket's space keeps the tracker in step with the stream. */
  lemma FillTracks(v: View, s: seq<Trade>, size: real, window: nat, n: nat, volume: real, isBuy: bool)
    requires 0.0 < size && Tracks(v, s, size, window, n)
    requires 0.0 < volume && v.total + volume < size
    ensures Tracks(Fill(v, volume, isBuy), s + [Trade(volume, isBuy)], size, window, n)
  {
    var t := Trade(volume, isBuy);
    Appended(s, t, true, 0.0);
    OldBucketsStay(s, t, size, n);
    CutExtends(s, t, Mark(size, n));
  }

  /** The bucket that fills up is the next bucket of the stream, and pushing it slides the window by one. */
  lemma SealedSlides(v: View, s: seq<Trade>, size: real, window: nat, n: nat, t: Trade)
    requires 0.0 < size && Tracks(v, s, size, window, n)
    requires 0.0 < t.volume && v.total + t.volume == size
    ensures Seal(Fill(v, t.volume, t.isBuy), window).sealed == LastOf(BucketsOf(s + [t], size, n + 1), window)
  {
    var longer := s + [t];
    Appended(s, t, true, 0.0);
    OldBucketsStay(s, t, size, n);
    CutExtends(s, t, Mark(size, n));
    var filled := Fill(v, t.volume, t.isBuy);
    assert Bucket(filled.buy, filled.sell) == BucketAt(longer, size, n);
    BucketsGrow(longer, size, n);
    WindowSlides(BucketsOf(s, size, n), BucketAt(longer, size, n), window);
  }

  /** Pouring exactly the space that is left seals one more bucket. */
  lemma SealTracks(v: View, s: seq<Trade>, size: real, window: nat, n: nat, volume: real, isBuy: bool)
    requires 0.0 < size && Tracks(v, s, size, window, n)
    requires 0.0 < volume && v.total + volume == size
    ensures Tracks(Seal(Fill(v, volume, isBuy), window), s + [Trade(volume, isBuy)], size, window, n + 1)
  {
    var t := Trade(volume, isBuy);
    Appended(s, t, true, 0.0);
    SealedSlides(v, s, size, window, n, t);
    assert Volume(s + [t]) == Mark(size, n + 1);
    assert Mark(size, n + 2) == Mark(size, n + 1) + size;
  }

  lemma BucketsGrow(s: seq<Trade>, size: real, n: nat)
    ensures BucketsOf(s, size, n + 1) == BucketsOf(s, size, n) + [BucketAt(s, size, n)]
  {
  }

  lemma WindowSlides(b: seq<Bucket>, x: Bucket, window: nat)
    ensures LastOf(LastOf(b, window) + [x], window) == LastOf(b + [x], window)
  {
  }

  // ----- the tracker -----

  class VpinTracker {
    const config: VpinConfig
    var sealed: seq<Bucket>
    var currentBuy: real
    var currentSell: real
    var currentTotal: real

    /** The trades since the last reset, and how many buckets they have filled. */
    ghost var stream: seq<Trade>
    ghost var full: nat

    function Contents(): View
      reads this
    {
      View(sealed, currentBuy, currentSell, currentTotal)
    }

    ghost predicate Valid()
      reads this
    {
      InStep(Contents(), stream, config.bucketVolume, config.nBuckets, full)
    }

    constructor (config: VpinConfig)
      requires 0.0 < config.bucketVolume
      ensures Valid() && this.config == config && stream == []
    {
      this.config := config;
      sealed, currentBuy, currentSell, currentTotal := [], 0.0, 0.0, 0.0;
      stream, full := [], 0;
      NothingPoured(config.bucketVolume, config.nBuckets);
    }

    /** The body of the pouring loop, for any bucket volume. */
    method PourTurn(remaining: real, isBuy: bool) returns (left: real)
      modifies `sealed, `currentBuy, `currentSell, `currentTotal
      ensures (Contents(), left) == Turn(old(Contents()), remaining, isBuy, config.bucketVolume, config.nBuckets)
    {
      var space := config.bucketVolume - currentTotal;
      var fill := Min(remaining, space);
      AddVolume(fill, isBuy);
      left := remaining - fill;
      if currentTotal >= config.bucketVolume {
        SealBucket();
      }
    }

    /** The same turn keeps the tracker in step with the stream, and leaves less to pour. */
    method Pour(remaining: real, isBuy: bool) returns (left: real)
      requires Valid() && 0.0 < remaining
      modifies `sealed, `currentBuy, `currentSell, `currentTotal, `full, `stream
      ensures Valid()
      ensures 0.0 <= left < remaining
      ensures stream == old(stream) + [Trade(remaining - left, isBuy)]
      ensures left == 0.0 || (left == remaining - (config.bucketVolume - old(currentTotal)) && currentTotal == 0.0)
    {
      ghost var before, s, n := Contents(), stream, full;
      left := PourTurn(remaining, isBuy);
      ghost var fill := remaining - left;
      stream := stream + [Trade(fill, isBuy)];
      if before.total + fill >= config.bucketVolume {
        SealInStep(before, s, config.bucketVolume, config.nBuckets, n, fill, isBuy);
        full := full + 1;
      } else {
        FillInStep(before, s, config.bucketVolume, config.nBuckets, n, fill, isBuy);
      }
    }

    method AddVolume(volume: real, isBuy: bool)
      modifies `currentBuy, `currentSell, `currentTotal
      ensures Contents() == Fill(old(Contents()), volume, isBuy)
    {
      if isBuy {
        currentBuy := currentBuy + volume;
      } else {
        currentSell := currentSell + volume;
      }
      currentTotal := currentTotal + volume;
    }

    /** Push the open bucket, trim the window from the front, and start an empty bucket. */
    method SealBucket()
      modifies `sealed, `currentBuy, `currentSell, `currentTotal
      ensures Contents() == Seal(old(Contents()), config.nBuckets)
    {
      ghost var pushed := sealed + [Bucket(currentBuy, currentSell)];
      sealed := sealed + [Bucket(currentBuy, currentSell)];
      while |sealed| > config.nBuckets
        invariant |sealed| <= |pushed| && sealed == pushed[|pushed| - |sealed|..]
        invariant |pushed| <= config.nBuckets ==> sealed == pushed
        invariant |sealed| < |pushed| ==> config.nBuckets <= |sealed|
      {
        sealed := sealed[1..];
      }
      currentBuy, currentSell, currentTotal := 0.0, 0.0, 0.0;
    }

    /**
     Record a trade. However many buckets it fills, the tracker afterwards is exactly what the stream with
     this trade appended says.
     */
    method RecordTrade(volume: real, isBuy: bool)
      requires Valid()
      modifies `sealed, `currentBuy, `currentSell, `currentTotal, `full, `stream
      ensures Valid()
      ensures stream == if volume <= 0.0 then old(stream) else old(stream) + [Trade(volume, isBuy)]
    {
      if volume <= 0.0 {
        return;
      }
      ghost var s := stream;
      var remaining := volume;
      ghost var turns := EnoughTurns(volume + currentTotal, config.bucketVolume);
      while remaining > 0.0
        invariant 0.0 <= remaining <= volume && Valid()
        invariant stream == if remaining == volume then s else s + [Trade(volume - remaining, isBuy)]
        invariant remaining > 0.0 ==> remaining + currentTotal < Mark(config.bucketVolume, turns)
        decreases if remaining > 0.0 then turns + 1 else 0
      {
        remaining := PourOnce(volume, remaining, isBuy, s);
        turns := if turns > 0 then turns - 1 else 0;
      }
    }

    /** One turn, with the portions poured so far counted as one trade. */
    method PourOnce(volume: real, remaining: real, isBuy: bool, ghost s: seq<Trade>) returns (left: real)
      requires Valid() && 0.0 < remaining <= volume
      requires stream == if remaining == volume then s else s + [Trade(volume - remaining, isBuy)]
      modifies `sealed, `currentBuy, `currentSell, `currentTotal, `full, `stream
      ensures Valid()
      ensures 0.0 <= left < remaining
      ensures stream == s + [Trade(volume - left, isBuy)]
      ensures left == 0.0 || (left == remaining - (config.bucketVolume - old(currentTotal)) && currentTotal == 0.0)
    {
      left := Pour(remaining, isBuy);
      if remaining < volume {
        ghost var before, portion := volume - remaining, remaining - left;
        assert stream == s + [Trade(before, isBuy)] + [Trade(portion, isBuy)];
        JoinInStep(Contents(), s, before, portion, isBuy, config.bucketVolume, config.nBuckets, full);
        assert before + portion == volume - left;
        stream := s + [Trade(before + portion, isBuy)];
      }
    }

    /** Forget everything, as at the boundary of a period. */
    method Reset()
      requires 0.0 < config.bucketVolume
      modifies `sealed, `currentBuy, `currentSell, `currentTotal, `full, `stream
      ensures Valid() && stream == []
    {
      sealed, currentBuy, currentSell, currentTotal := [], 0.0, 0.0, 0.0;
      stream, full := [], 0;
      NothingPoured(config.bucketVolume, config.nBuckets);
    }
  }

  /** A trade poured in two portions tracks like the whole trade. */
  lemma JoinTracks(v: View, s: seq<Trade>, a: real, b: real, isBuy: bool, size: real, window: nat, n: nat)
    requires 0.0 < a && 0.0 < b && Tracks(v, s + [Trade(a, isBuy)] + [Trade(b, isBuy)], size, window, n)
    ensures Tracks(v, s + [Trade(a + b, isBuy)], size, window, n)
  {
    var two, one := s + [Trade(a, isBuy)] + [Trade(b, isBuy)], s + [Trade(a + b, isBuy)];
    forall i | 0 <= i < |s| ensures s[i].volume > 0.0 {
      assert two[i] == s[i];
    }
    SplitTradeSameBuckets(s, a, b, isBuy, size, n);
    var x := Mark(size, n);
    SplitTradeReadsSame(s, a, b, isBuy, true, x);
    SplitTradeReadsSame(s, a, b, isBuy, false, x);
    SplitTradeReadsSame(s, a, b, isBuy, true, Volume(one));
    SplitTradeReadsSame(s, a, b, isBuy, false, Volume(one));
  }

  /** The pouring loop ends: some number of buckets holds more than what there is to pour. */
  lemma EnoughTurns(x: real, size: real) returns (turns: nat)
    requires 0.0 <= x && 0.0 < size
    ensures x < Mark(size, turns)
  {
    QuotientNonNegative(x, size);
    FloorOfQuotient(x, size);
    turns := (x / size).Floor + 1;
    MarkIsMultiple(size, turns - 1);
  }

  lemma QuotientNonNegative(x: real, size: real)
    requires 0.0 <= x && 0.0 < size
    ensures 0.0 <= x / size
  {
  }

  /** The loop of a trade after some turns, whatever the bucket volume. */
  function Turns(v: View, volume: real, isBuy: bool, size: real, window: nat, turns: nat): (View, real) {
    if turns == 0 then (v, volume)
    else
      var (w, remaining) := Turns(v, volume, isBuy, size, window, turns - 1);
      Turn(w, remaining, isBuy, size, window)
  }

  /**
   With a bucket volume of zero or less a new tracker never gets done: after any number of turns at least the
   whole trade is left to pour. A positive bucket volume, under which `RecordTrade` ends, is exactly what is needed.
   */
  lemma {:induction false} NoBucketNoEnd(v: View, volume: real, isBuy: bool, size: real, window: nat, turns: nat)
    requires v.total == 0.0 && 0.0 < volume && size <= 0.0
    ensures var (w, remaining) := Turns(v, volume, isBuy, size, window, turns); w.total == 0.0 && volume <= remaining
  {
    if turns > 0 {
      NoBucketNoEnd(v, volume, isBuy, size, window, turns - 1);
    }
  }

  /** The stream decides what a tracker holds. */
  lemma TrackedAlike(v: View, w: View, s: seq<Trade>, size: real, window: nat, n: nat, m: nat)
    requires 0.0 < size && Tracks(v, s, size, window, n) && Tracks(w, s, size, window, m)
    ensures v == w
  {
    FullBucketsUnique(s, size, n, m);
  }

  /** Recording a and then b on one side leaves a tracker exactly as recording a + b does. */
  lemma SplitTradeSameTracker(v: View, w: View, s: seq<Trade>, a: real, b: real, isBuy: bool,
                              size: real, window: nat, n: nat, m: nat)
    requires 0.0 < a && 0.0 < b && 0.0 < size
    requires Tracks(v, s + [Trade(a, isBuy)] + [Trade(b, isBuy)], size, window, n)
    requires Tracks(w, s + [Trade(a + b, isBuy)], size, window, m)
    ensures v == w
  {
    JoinTracks(v, s, a, b, isBuy, size, window, n);
    TrackedAlike(v, w, s + [Trade(a + b, isBuy)], size, window, n, m);
  }

  // ----- the metric -----

  function TotalImbalance(b: seq<Bucket>): real {
    if b == [] then 0.0 else TotalImbalance(b[..|b| - 1]) + b[|b| - 1].Imbalance()
  }

  function TotalVolume(b: seq<Bucket>): real {
    if b == [] then 0.0 else TotalVolume(b[..|b| - 1]) + b[|b| - 1].Total()
  }

  function Clamp01(x: real): real {
    Max(0.0, Min(1.0, x))
  }

  /** Imbalance over volume of the sealed buckets, once there are two. */
  function VpinOf(sealed: seq<Bucket>): Option<real> {
    if |sealed| < 2 || TotalVolume(sealed) <= 0.0 then None
    else Some(Clamp01(TotalImbalance(sealed) / TotalVolume(sealed)))
  }

  ghost predicate FullAndSigned(b: seq<Bucket>, size: real) {
    forall i :: 0 <= i < |b| ==> b[i].Total() == size && 0.0 <= b[i].buyVolume && 0.0 <= b[i].sellVolume
  }

  lemma {:induction false} TotalsOfFull(b: seq<Bucket>, size: real)
    requires FullAndSigned(b, size)
    ensures TotalVolume(b) == Mark(size, |b|)
    ensures 0.0 <= TotalImbalance(b) <= TotalVolume(b)
  {
    if b != [] {
      TotalsOfFull(b[..|b| - 1], size);
    }
  }

  lemma SealedAreFull(v: View, s: seq<Trade>, size: real, window: nat, n: nat)
    requires 0.0 < size && Tracks(v, s, size, window, n)
    ensures FullAndSigned(v.sealed, size)
    ensures |v.sealed| == if n <= window then n else window
  {
    var all := BucketsOf(s, size, n);
    forall k | 0 <= k < n ensures all[k].Total() == size && 0.0 <= all[k].buyVolume && 0.0 <= all[k].sellVolume {
      MarksGrow(size, k + 1, n);
      BucketIsFull(s, size, k);
    }
  }

  lemma RatioInUnit(a: real, b: real)
    requires 0.0 <= a <= b && 0.0 < b
    ensures 0.0 <= a / b <= 1.0
  {
    QuotientNonNegative(a, b);
    QuotientNonNegative(b - a, b);
    QuotientsAdd(a, b - a, b);
  }

  lemma VpinOfFull(b: seq<Bucket>, size: real)
    requires 0.0 < size && FullAndSigned(b, size)
    ensures VpinOf(b).Some? <==> 2 <= |b|
    ensures VpinOf(b).Some? ==> 0.0 <= VpinOf(b).value == TotalImbalance(b) / TotalVolume(b) <= 1.0
  {
    TotalsOfFull(b, size);
    if 2 <= |b| {
      MarksGrow(size, 1, |b|);
      assert Mark(size, 1) == size;
      RatioInUnit(TotalImbalance(b), TotalVolume(b));
    }
  }

  /**
   The metric exists exactly from the second full bucket in the window on, is the total imbalance over the volume
   of that many equal buckets, and needs no clamping to lie between 0 and 1.
   */
  lemma {:induction false} VpinIsMeanImbalance(v: View, s: seq<Trade>, size: real, window: nat, n: nat)
    requires 0.0 < size && Tracks(v, s, size, window, n)
    ensures VpinOf(v.sealed).Some? <==> 2 <= n && 2 <= window
    ensures VpinOf(v.sealed).Some? ==> 0.0 <= VpinOf(v.sealed).value == TotalImbalance(v.sealed) / TotalVolume(v.sealed) <= 1.0
  {
    SealedAreFull(v, s, size, window, n);
    VpinOfFull(v.sealed, size);
  }

  /** The volume it divides by is the bucket volume times the number of buckets in the window. */
  lemma WindowVolume(v: View, s: seq<Trade>, size: real, window: nat, n: nat)
    requires 0.0 < size && Tracks(v, s, size, window, n)
    ensures |v.sealed| == if n <= window then n else window
    ensures TotalVolume(v.sealed) == Mark(size, |v.sealed|)
  {
    SealedAreFull(v, s, size, window, n);
    TotalsOfFull(v.sealed, size);
  }

  /** By how much the larger side of each bucket exceeds the smaller, in all. */
  ghost function Gaps(b: seq<Bucket>): real {
    if b == [] then 0.0
    else
      var last := b[|b| - 1];
      Gaps(b[..|b| - 1]) + if last.buyVolume >= last.sellVolume then last.buyVolume - last.sellVolume else last.sellVolume - last.buyVolume
  }

  function PartOf(part: real, volume: real): real {
    part * volume
  }

  lemma {:induction false} ImbalanceIsGap(b: seq<Bucket>)
    ensures TotalImbalance(b) == Gaps(b)
  {
    if b != [] {
      ImbalanceIsGap(b[..|b| - 1]);
    }
  }

  /** The metric in plain figures: the gaps of the window's buckets, per unit of volume that they hold. */
  lemma VpinMeans(v: View, s: seq<Trade>, size: real, window: nat, n: nat)
    requires 0.0 < size && Tracks(v, s, size, window, n)
    ensures var held := if n <= window then n else window;
      && (VpinOf(v.sealed).None? <==> held < 2)
      && (VpinOf(v.sealed).Some? ==> |v.sealed| == held && PartOf(VpinOf(v.sealed).value, Mark(size, |v.sealed|)) == Gaps(v.sealed))
  {
    VpinIsMeanImbalance(v, s, size, window, n);
    WindowVolume(v, s, size, window, n);
    ImbalanceIsGap(v.sealed);
    MetricTimesVolume(v.sealed, Gaps(v.sealed), Mark(size, |v.sealed|));
  }

  lemma MetricTimesVolume(b: seq<Bucket>, gaps: real, volume: real)
    requires gaps == TotalImbalance(b) && volume == TotalVolume(b)
    requires VpinOf(b).Some? ==> VpinOf(b).value == TotalImbalance(b) / TotalVolume(b)
    ensures VpinOf(b).Some? ==> PartOf(VpinOf(b).value, volume) == gaps
  {
    if VpinOf(b).Some? {
      MultipliedBack(VpinOf(b).value, gaps, TotalVolume(b), volume);
    }
  }

  lemma MultipliedBack(v: real, gaps: real, total: real, volume: real)
    requires 0.0 < total && v == gaps / total && total == volume
    ensures PartOf(v, volume) == gaps
  {
    DivMul(gaps, total);
  }

  /** No volume is lost: everything traded on a side is in the full buckets or in the open one. */
  lemma {:induction false} VolumeConserved(s: seq<Trade>, size: real, n: nat)
    requires Positive(s) && 0.0 < size && FullBuckets(s, size, n)
    ensures var open := Cut(s, Mark(size, n), Volume(s));
      && BuysIn(BucketsOf(s, size, n)) + open.buyVolume == UpTo(s, true, Volume(s))
      && SellsIn(BucketsOf(s, size, n)) + open.sellVolume == UpTo(s, false, Volume(s))
      && BuysIn(BucketsOf(s, size, n)) + SellsIn(BucketsOf(s, size, n)) + open.Total() == Volume(s)
  {
    BucketsTelescope(s, size, n);
    VolumeNonNegative(s);
    SidesAddUp(s, Volume(s));
  }

  function BuysIn(b: seq<Bucket>): real {
    if b == [] then 0.0 else BuysIn(b[..|b| - 1]) + b[|b| - 1].buyVolume
  }

  function SellsIn(b: seq<Bucket>): real {
    if b == [] then 0.0 else SellsIn(b[..|b| - 1]) + b[|b| - 1].sellVolume
  }

  lemma {:induction false} NothingBeforeStart(s: seq<Trade>, buys: bool)
    requires Positive(s)
    ensures UpTo(s, buys, 0.0) == 0.0
  {
    if s != [] {
      VolumeNonNegative(s[..|s| - 1]);
      NothingBeforeStart(s[..|s| - 1], buys);
    }
  }

  lemma {:induction false} BucketsTelescope(s: seq<Trade>, size: real, n: nat)
    requires Positive(s)
    ensures BuysIn(BucketsOf(s, size, n)) == UpTo(s, true, Mark(size, n))
    ensures SellsIn(BucketsOf(s, size, n)) == UpTo(s, false, Mark(size, n))
  {
    if n == 0 {
      NothingBeforeStart(s, true);
      NothingBeforeStart(s, false);
    } else {
      BucketsTelescope(s, size, n - 1);
      BucketsGrow(s, size, n - 1);
      var b := BucketsOf(s, size, n);
      assert b[..n - 1] == BucketsOf(s, size, n - 1);
    }
  }

  // ----- what the metric steers -----

  /** How far past the widening threshold the metric is, between nothing and one. */
  function Excess(v: real, config: VpinConfig): real
    requires config.widenThreshold < 1.0
  {
    (v - config.widenThreshold) / (1.0 - config.widenThreshold)
  }

  function SpreadMultiplier(vpin: Option<real>, config: VpinConfig): real {
    if vpin.None? || vpin.value <= config.widenThreshold then 1.0
    else if 1.0 - config.widenThreshold <= 0.0 then config.maxSpreadMultiplier
    else Between(Excess(vpin.value, config), config.maxSpreadMultiplier)
  }

  function SizeFactor(vpin: Option<real>, config: VpinConfig): real {
    if vpin.None? || vpin.value <= config.widenThreshold then 1.0
    else if 1.0 - config.widenThreshold <= 0.0 then 0.25
    else Max(1.0 - 0.75 * Excess(vpin.value, config), 0.25)
  }

  lemma ExcessOrdered(v: real, w: real, config: VpinConfig)
    requires config.widenThreshold < 1.0 && config.widenThreshold <= v <= w <= 1.0
    ensures 0.0 <= Excess(v, config) <= Excess(w, config) <= 1.0
  {
    var range := 1.0 - config.widenThreshold;
    RatioInUnit(v - config.widenThreshold, range);
    RatioInUnit(w - config.widenThreshold, range);
    RatioInUnit(w - v, range);
    QuotientsAdd(v - config.widenThreshold, w - v, range);
  }

  lemma QuotientsAdd(a: real, b: real, c: real)
    requires 0.0 < c
    ensures a / c + b / c == (a + b) / c
  {
  }

  /** The way from one to `max`, by a share of it. */
  function Between(share: real, max: real): real {
    1.0 + share * (max - 1.0)
  }

  lemma Interpolated(max: real, a: real, b: real)
    requires 1.0 <= max && 0.0 <= a <= b <= 1.0
    ensures 1.0 <= Between(a, max) <= Between(b, max) <= max
  {
    MulNonNegative(a, max - 1.0);
    MulMonotone(max - 1.0, a, b);
    MulMonotone(max - 1.0, b, 1.0);
  }

  lemma SpreadWidens(v: real, w: real, config: VpinConfig)
    requires 1.0 <= config.maxSpreadMultiplier && config.widenThreshold < v <= w <= 1.0
    ensures 1.0 <= SpreadMultiplier(Some(v), config) <= SpreadMultiplier(Some(w), config) <= config.maxSpreadMultiplier
  {
    if config.widenThreshold < 1.0 {
      ExcessOrdered(v, w, config);
      Interpolated(config.maxSpreadMultiplier, Excess(v, config), Excess(w, config));
    }
  }

  lemma SizeShrinks(v: real, w: real, config: VpinConfig)
    requires config.widenThreshold < v <= w <= 1.0
    ensures 0.25 <= SizeFactor(Some(w), config) <= SizeFactor(Some(v), config) <= 1.0
  {
    if config.widenThreshold < 1.0 {
      ExcessOrdered(v, w, config);
    }
  }

  /** Between the threshold and one, spread and size move on straight lines to the widest spread and to a quarter; below it not at all. */
  lemma FlowLines(v: real, config: VpinConfig)
    ensures SpreadMultiplier(None, config) == 1.0 && SizeFactor(None, config) == 1.0
    ensures v <= config.widenThreshold ==> SpreadMultiplier(Some(v), config) == 1.0 && SizeFactor(Some(v), config) == 1.0
    ensures 1.0 <= config.widenThreshold < v ==>
              SpreadMultiplier(Some(v), config) == config.maxSpreadMultiplier && SizeFactor(Some(v), config) == 0.25
    ensures config.widenThreshold < v <= 1.0 ==>
              && (SpreadMultiplier(Some(v), config) - 1.0) * (1.0 - config.widenThreshold)
                 == (v - config.widenThreshold) * (config.maxSpreadMultiplier - 1.0)
              && (1.0 - SizeFactor(Some(v), config)) * (1.0 - config.widenThreshold) == 0.75 * (v - config.widenThreshold)
  {
    if config.widenThreshold < v <= 1.0 {
      var range, part := 1.0 - config.widenThreshold, Excess(v, config);
      ExcessOrdered(v, v, config);
      DivMul(v - config.widenThreshold, range);
      assert part * range == v - config.widenThreshold;
      LineThrough(part, range, config.maxSpreadMultiplier - 1.0);
      LineThrough(part, range, 0.75);
      assert SpreadMultiplier(Some(v), config) - 1.0 == part * (config.maxSpreadMultiplier - 1.0);
      assert 1.0 - SizeFactor(Some(v), config) == part * 0.75;
    }
  }

  lemma LineThrough(part: real, range: real, slope: real)
    ensures (part * slope) * range == (part * range) * slope
  {
  }

  /** More toxic flow never narrows the spread nor raises the size, and both stay in their bands. */
  lemma ToxicFlowRetreats(v: real, w: real, config: VpinConfig)
    requires 0.0 <= v <= w <= 1.0 && 1.0 <= config.maxSpreadMultiplier
    ensures 1.0 <= SpreadMultiplier(Some(v), config) <= SpreadMultiplier(Some(w), config) <= config.maxSpreadMultiplier
    ensures 0.25 <= SizeFactor(Some(w), config) <= SizeFactor(Some(v), config) <= 1.0
  {
    if config.widenThreshold < w {
      SpreadWidens(w, w, config);
      SizeShrinks(w, w, config);
    }
    if config.widenThreshold < v {
      SpreadWidens(v, w, config);
      SizeShrinks(v, w, config);
    }
  }
}
