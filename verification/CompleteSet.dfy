/**
 Executing a complete set: buy one of each token and merge the pair for a
 dollar, or split a dollar and sell both tokens. Any exchange call may be
 refused, so both executions end in a recovery that unwinds what is left.
 Every answer of the exchange is an input; the ledger lists what it did.
 */
module CompleteSet {
  import opened Common
  import opened Decimals

  datatype Market = Market(yes: string, no: string)

  /** What the wallet went through. Pairs of a merge or split count tokens of each side. */
  datatype Entry =
    | Bought(token: string, shares: real, usdc: real)
    | Sold(token: string, shares: real, usdc: real)
    | Merged(pairs: real)
    | Split(pairs: real)

  function TokenEffect(e: Entry, token: string): real {
    match e
    case Bought(t, shares, _) => if t == token then shares else 0.0
    case Sold(t, shares, _) => if t == token then -shares else 0.0
    case Merged(pairs) => -pairs
    case Split(pairs) => pairs
  }

  function UsdcEffect(e: Entry): real {
    match e
    case Bought(_, _, usdc) => -usdc
    case Sold(_, _, usdc) => usdc
    case Merged(pairs) => pairs
    case Split(pairs) => -pairs
  }

  /** The change of the wallet's holding of one of the market's two tokens. */
  function Held(ledger: seq<Entry>, token: string): real {
    if ledger == [] then 0.0 else Held(ledger[..|ledger| - 1], token) + TokenEffect(ledger[|ledger| - 1], token)
  }

  /** The change of the wallet's collateral. */
  function Usdc(ledger: seq<Entry>): real {
    if ledger == [] then 0.0 else Usdc(ledger[..|ledger| - 1]) + UsdcEffect(ledger[|ledger| - 1])
  }

  lemma Snoc(ledger: seq<Entry>, e: Entry, token: string)
    ensures Held(ledger + [e], token) == Held(ledger, token) + TokenEffect(e, token)
    ensures Usdc(ledger + [e]) == Usdc(ledger) + UsdcEffect(e)
  {
    assert (ledger + [e])[..|ledger|] == ledger;
  }

  /** Ledgers of consecutive executions add up. */
  lemma {:induction false} Joined(a: seq<Entry>, b: seq<Entry>, token: string)
    ensures Held(a + b, token) == Held(a, token) + Held(b, token)
    ensures Usdc(a + b) == Usdc(a) + Usdc(b)
  {
    if b == [] {
      assert a + b == a;
    } else {
      var n := |b| - 1;
      Joined(a, b[..n], token);
      assert a + b == (a + b[..n]) + [b[n]];
      Snoc(a + b[..n], b[n], token);
    }
  }

  /** Nothing of either token is left over. */
  ghost predicate Flat(ledger: seq<Entry>, market: Market) {
    Held(ledger, market.yes) == 0.0 && Held(ledger, market.no) == 0.0
  }

  /** What is paid out per entry kind: shares bought and sold of a token, pairs merged and split. */
  datatype Totals = Totals(bought: real, sold: real, paid: real, received: real, merged: real, split: real)

  function TotalsOf(ledger: seq<Entry>, token: string): Totals {
    if ledger == [] then Totals(0.0, 0.0, 0.0, 0.0, 0.0, 0.0)
    else
      var t := TotalsOf(ledger[..|ledger| - 1], token);
      match ledger[|ledger| - 1]
      case Bought(id, shares, usdc) => t.(bought := t.bought + if id == token then shares else 0.0, paid := t.paid + usdc)
      case Sold(id, shares, usdc) => t.(sold := t.sold + if id == token then shares else 0.0, received := t.received + usdc)
      case Merged(pairs) => t.(merged := t.merged + pairs)
      case Split(pairs) => t.(split := t.split + pairs)
  }

  /**
   Tokens and collateral are conserved: what came in by buying and splitting and did not leave by
   selling and merging is held, and net collateral is sales plus merges less purchases and splits.
   */
  lemma {:induction false} LedgerConserved(ledger: seq<Entry>, token: string)
    ensures var t := TotalsOf(ledger, token);
            && Held(ledger, token) == t.bought + t.split - t.sold - t.merged
            && Usdc(ledger) == t.received + t.merged - t.paid - t.split
  {
    if ledger != [] {
      LedgerConserved(ledger[..|ledger| - 1], token);
    }
  }

  // ----- the exchange -----

  const U64_MAX: int := 0xFFFF_FFFF_FFFF_FFFF

  /** The answer to one fill-or-kill order: the whole order fills for some amount of collateral, or nothing happens. */
  datatype Answer = Fill(usdc: real) | Refused

  /** One answer per token, YES first. */
  type LegAnswers = s: seq<Answer> | |s| == 2 witness [Refused, Refused]

  datatype MarketOrderSpec = MarketOrderSpec(token: string, side: Side, shares: real)

  datatype MarketOrderResult = MarketOrderResult(token: string, side: Side, shares: real, success: bool)

  predicate SizeAllowed(shares: real) {
    QuantizeSize(shares) >= MIN_ORDER_SHARES
  }

  /** Exactly orders of five shares or more are sent. */
  lemma AllowedMeans(shares: real)
    ensures SizeAllowed(shares) <==> shares >= 5.0
  {
    if shares >= 5.0 {
      assert (shares * 100.0).Floor >= 500;
    }
  }

  function FillEntry(spec: MarketOrderSpec, usdc: real): Entry {
    if spec.side == Buy then Bought(spec.token, QuantizeSize(spec.shares), usdc)
    else Sold(spec.token, QuantizeSize(spec.shares), usdc)
  }

  /** A single fill-or-kill order; too small a size is never sent. */
  method PlaceFok(spec: MarketOrderSpec, answer: Answer, ledger: seq<Entry>) returns (ok: bool, after: seq<Entry>)
    ensures ok <==> SizeAllowed(spec.shares) && answer.Fill?
    ensures after == if ok then ledger + [FillEntry(spec, answer.usdc)] else ledger
  {
    ok, after := false, ledger;
    if SizeAllowed(spec.shares) && answer.Fill? {
      ok, after := true, ledger + [FillEntry(spec, answer.usdc)];
    }
  }

  function Leg(spec: MarketOrderSpec, answer: Answer): seq<Entry> {
    if answer.Fill? then [FillEntry(spec, answer.usdc)] else []
  }

  function Fills(specs: seq<MarketOrderSpec>, answers: seq<Answer>): seq<Entry>
    requires |specs| == |answers|
  {
    if specs == [] then []
    else
      var n := |specs| - 1;
      Fills(specs[..n], answers[..n]) + Leg(specs[n], answers[n])
  }

  lemma NextFill(specs: seq<MarketOrderSpec>, answers: seq<Answer>, n: nat, ledger: seq<Entry>)
    requires n < |specs| == |answers|
    ensures ledger + Fills(specs[..n + 1], answers[..n + 1]) == ledger + Fills(specs[..n], answers[..n]) + Leg(specs[n], answers[n])
  {
    assert specs[..n + 1][..n] == specs[..n] && answers[..n + 1][..n] == answers[..n];
  }

  function ResultOf(spec: MarketOrderSpec, answer: Answer): MarketOrderResult {
    MarketOrderResult(spec.token, spec.side, QuantizeSize(spec.shares), answer.Fill?)
  }

  ghost predicate ResultsOf(results: seq<MarketOrderResult>, specs: seq<MarketOrderSpec>, answers: seq<Answer>) {
    && |results| == |specs| == |answers|
    && forall k :: 0 <= k < |specs| ==> results[k] == ResultOf(specs[k], answers[k])
  }

  method AllAllowed(specs: seq<MarketOrderSpec>) returns (ok: bool)
    ensures ok <==> forall s :: s in specs ==> SizeAllowed(s.shares)
  {
    for n := 0 to |specs|
      invariant forall s :: s in specs[..n] ==> SizeAllowed(s.shares)
    {
      if !SizeAllowed(specs[n].shares) {
        return false;
      }
    }
    ok := true;
  }

  /**
   Several fill-or-kill orders in one request. No order needs no request; one size below the minimum, a failed request or a wrong
   number of answers fails the batch as a whole; otherwise every order has its own answer.
   */
  method PlaceBatch(specs: seq<MarketOrderSpec>, reply: Option<seq<Answer>>, ledger: seq<Entry>)
    returns (r: Option<seq<MarketOrderResult>>, after: seq<Entry>)
    ensures specs == [] ==> r == Some([]) && after == ledger
    ensures specs != [] ==>
              (r.Some? <==> (forall s :: s in specs ==> SizeAllowed(s.shares)) && reply.Some? && |reply.value| == |specs|)
    ensures specs != [] && r.Some? ==> ResultsOf(r.value, specs, reply.value) && after == ledger + Fills(specs, reply.value)
    ensures r.None? ==> after == ledger
  {
    if specs == [] {
      return Some([]), ledger;
    }
    var allowed := AllAllowed(specs);
    if !allowed {
      return None, ledger;
    }
    if reply.None? || |reply.value| != |specs| {
      return None, ledger;
    }
    var results;
    results, after := CollectResults(specs, reply.value, ledger);
    r := Some(results);
  }

  method CollectResults(specs: seq<MarketOrderSpec>, answers: seq<Answer>, ledger: seq<Entry>)
    returns (results: seq<MarketOrderResult>, after: seq<Entry>)
    requires |specs| == |answers|
    ensures ResultsOf(results, specs, answers) && after == ledger + Fills(specs, answers)
  {
    results, after := [], ledger;
    var n := 0;
    while n < |specs|
      invariant n <= |specs|
      invariant |results| == n
      invariant forall k :: 0 <= k < n ==> results[k] == ResultOf(specs[k], answers[k])
      invariant after == ledger + Fills(specs[..n], answers[..n])
    {
      NextFill(specs, answers, n, ledger);
      results := results + [ResultOf(specs[n], answers[n])];
      after := after + Leg(specs[n], answers[n]);
      n := n + 1;
    }
    assert specs[..n] == specs && answers[..n] == answers;
  }

  /** A decimal as an unsigned 64-bit number: the fraction is cut off, what does not fit is refused. */
  function ToU64(d: real): Option<nat> {
    if d < 0.0 || d.Floor > U64_MAX then None else Some(d.Floor)
  }

  predicate FitsU64(pairs: real) {
    pairs.Floor <= U64_MAX
  }

  function SaturatingMul(a: nat, b: nat): nat {
    if a * b > U64_MAX then U64_MAX else a * b
  }

  /** Raw collateral units per dollar. */
  const USDC_SCALE: nat := 1_000_000

  /** Merging takes whole shares; splitting takes raw collateral units. */
  method MergePositions(amount: nat, accepted: bool, ledger: seq<Entry>) returns (after: seq<Entry>)
    ensures after == if accepted then ledger + [Merged(amount as real)] else ledger
  {
    after := if accepted then ledger + [Merged(amount as real)] else ledger;
  }

  method SplitPosition(raw: nat, accepted: bool, ledger: seq<Entry>) returns (after: seq<Entry>)
    ensures after == if accepted then ledger + [Split(raw as real / USDC_SCALE as real)] else ledger
  {
    after := if accepted then ledger + [Split(raw as real / USDC_SCALE as real)] else ledger;
  }

  // ----- recovery -----

  datatype Status =
    | ShadowSignal | LiveSdkMissing | SplitDisabled | InvalidPairs | SplitFailed
    | LongOk | LongMergeFailed | LongBatchFailed | LongPartialRecovered | LongPartialResidual
    | ShortOk | ShortBatchFailed | ShortPartialRecovered | ShortPartialFlattened | ShortPartialResidual

  datatype ExecutionOutcome = ExecutionOutcome(
    status: Status, recovered: bool, success: bool, mergePairs: real, splitPairs: real)

  function Failed(status: Status): ExecutionOutcome {
    ExecutionOutcome(status, false, false, 0.0, 0.0)
  }

  /** Trade sizes are positive whole numbers of pairs. */
  predicate WholePairs(pairs: real) {
    pairs > 0.0 && IsWhole(pairs)
  }

  lemma WholeSizeKept(pairs: real)
    requires WholePairs(pairs)
    ensures QuantizeSize(pairs) == pairs
  {
    var h := pairs * 100.0;
    assert h == (100 * pairs.Floor) as real;
  }

  /** The held flags are the wallet: a raised flag means `high` of the token, a lowered one `low`. */
  ghost predicate FlagsAreWallet(held: seq<bool>, tokens: seq<string>, ledger: seq<Entry>, low: real, high: real) {
    && |held| == |tokens|
    && forall k :: 0 <= k < |tokens| ==> Held(ledger, tokens[k]) == if held[k] then high else low
  }

  lemma FlagMoves(held: seq<bool>, tokens: seq<string>, ledger: seq<Entry>, low: real, high: real, k: nat, e: Entry)
    requires FlagsAreWallet(held, tokens, ledger, low, high)
    requires |tokens| == 2 && tokens[0] != tokens[1] && k < 2
    requires TokenEffect(e, tokens[1 - k]) == 0.0
    requires TokenEffect(e, tokens[k]) == if held[k] then low - high else high - low
    ensures FlagsAreWallet(held[k := !held[k]], tokens, ledger + [e], low, high)
  {
    Snoc(ledger, e, tokens[0]);
    Snoc(ledger, e, tokens[1]);
  }

  predicate Takes(a: Answer, shares: real) {
    SizeAllowed(shares) && a.Fill?
  }

  function Amount(a: Answer): real {
    if a.Fill? then a.usdc else 0.0
  }

  /** Collateral that changed hands where a flag changed. */
  function Moved(before: seq<bool>, after: seq<bool>, answers: seq<Answer>): real
    requires |before| == |after| == |answers| == 2
  {
    (if before[0] != after[0] then Amount(answers[0]) else 0.0) + if before[1] != after[1] then Amount(answers[1]) else 0.0
  }

  /** The loop that sells whatever the flags say is held. */
  method SellHeld(tokens: seq<string>, pairs: real, held0: seq<bool>, answers: LegAnswers, ledger0: seq<Entry>,
                  ghost low: real, ghost high: real)
    returns (held: seq<bool>, ledger: seq<Entry>)
    requires |tokens| == 2 && tokens[0] != tokens[1]
    requires WholePairs(pairs) && high - low == pairs
    requires FlagsAreWallet(held0, tokens, ledger0, low, high)
    ensures FlagsAreWallet(held, tokens, ledger, low, high)
    ensures forall k :: 0 <= k < 2 ==> held[k] == (held0[k] && !Takes(answers[k], pairs))
    ensures Usdc(ledger) == Usdc(ledger0) + Moved(held0, held, answers)
  {
    held, ledger := held0, ledger0;
    WholeSizeKept(pairs);
    for k := 0 to 2
      invariant FlagsAreWallet(held, tokens, ledger, low, high)
      invariant forall j :: 0 <= j < k ==> held[j] == (held0[j] && !Takes(answers[j], pairs))
      invariant forall j :: k <= j < 2 ==> held[j] == held0[j]
      invariant Usdc(ledger) == Usdc(ledger0) + Moved(held0, held, answers)
    {
      if held[k] {
        var spec := MarketOrderSpec(tokens[k], Sell, pairs);
        ghost var before := ledger;
        var ok;
        ok, ledger := PlaceFok(spec, answers[k], ledger);
        if ok {
          Snoc(before, FillEntry(spec, answers[k].usdc), tokens[k]);
          FlagMoves(held, tokens, before, low, high, k, FillEntry(spec, answers[k].usdc));
          held := held[k := false];
        }
      }
    }
  }

  /** The loop that buys back whatever the flags say is gone. */
  method BuyBack(tokens: seq<string>, pairs: real, held0: seq<bool>, answers: LegAnswers, ledger0: seq<Entry>,
                 ghost low: real, ghost high: real)
    returns (held: seq<bool>, ledger: seq<Entry>)
    requires |tokens| == 2 && tokens[0] != tokens[1]
    requires WholePairs(pairs) && high - low == pairs
    requires FlagsAreWallet(held0, tokens, ledger0, low, high)
    ensures FlagsAreWallet(held, tokens, ledger, low, high)
    ensures forall k :: 0 <= k < 2 ==> held[k] == (held0[k] || Takes(answers[k], pairs))
    ensures Usdc(ledger) == Usdc(ledger0) - Moved(held0, held, answers)
  {
    held, ledger := held0, ledger0;
    WholeSizeKept(pairs);
    for k := 0 to 2
      invariant FlagsAreWallet(held, tokens, ledger, low, high)
      invariant forall j :: 0 <= j < k ==> held[j] == (held0[j] || Takes(answers[j], pairs))
      invariant forall j :: k <= j < 2 ==> held[j] == held0[j]
      invariant Usdc(ledger) == Usdc(ledger0) - Moved(held0, held, answers)
    {
      if !held[k] {
        var spec := MarketOrderSpec(tokens[k], Buy, pairs);
        ghost var before := ledger;
        var ok;
        ok, ledger := PlaceFok(spec, answers[k], ledger);
        if ok {
          Snoc(before, FillEntry(spec, answers[k].usdc), tokens[k]);
          FlagMoves(held, tokens, before, low, high, k, FillEntry(spec, answers[k].usdc));
          held := held[k := true];
        }
      }
    }
  }

  /** Flags after reading the batch results: `filled` for a token whose order went through, the opposite otherwise. */
  method ReadFlags(tokens: seq<string>, results: seq<MarketOrderResult>, filled: bool) returns (held: seq<bool>)
    requires |tokens| == |results| == 2 && tokens[0] != tokens[1]
    requires forall k :: 0 <= k < 2 ==> results[k].token == tokens[k]
    ensures |held| == 2 && forall k :: 0 <= k < 2 ==> held[k] == (results[k].success == filled)
  {
    held := [!filled, !filled];
    for k := 0 to 2
      invariant |held| == 2
      invariant forall j :: 0 <= j < k ==> held[j] == (results[j].success == filled)
      invariant forall j :: k <= j < 2 ==> held[j] == !filled
    {
      if results[k].success {
        if results[k].token == tokens[0] {
          held := held[0 := filled];
        } else if results[k].token == tokens[1] {
          held := held[1 := filled];
        }
      }
    }
  }

  /** Merging the pair empties both holdings at once. */
  lemma MergeEmpties(tokens: seq<string>, ledger: seq<Entry>, pairs: real, low: real, high: real)
    requires |tokens| == 2 && high - low == pairs
    requires FlagsAreWallet([true, true], tokens, ledger, low, high)
    ensures FlagsAreWallet([false, false], tokens, ledger + [Merged(pairs)], low, high)
    ensures Usdc(ledger + [Merged(pairs)]) == Usdc(ledger) + pairs
  {
    Snoc(ledger, Merged(pairs), tokens[0]);
    Snoc(ledger, Merged(pairs), tokens[1]);
  }

  /** A pair still held on both sides is merged, when its size can be passed on. */
  method MergeHeld(tokens: seq<string>, pairs: real, held0: seq<bool>, accepted: bool, ledger0: seq<Entry>,
                   ghost low: real, ghost high: real)
    returns (merged: bool, held: seq<bool>, ledger: seq<Entry>)
    requires |tokens| == 2 && WholePairs(pairs) && high - low == pairs
    requires FlagsAreWallet(held0, tokens, ledger0, low, high)
    ensures FlagsAreWallet(held, tokens, ledger, low, high)
    ensures merged <==> held0[0] && held0[1] && accepted && FitsU64(pairs)
    ensures held == if merged then [false, false] else held0
    ensures Usdc(ledger) == Usdc(ledger0) + if merged then pairs else 0.0
  {
    merged, held, ledger := false, held0, ledger0;
    if held[0] && held[1] {
      var whole := ToU64(pairs);
      if whole.Some? {
        ledger := MergePositions(whole.value, accepted, ledger);
        if accepted {
          assert held0 == [true, true];
          MergeEmpties(tokens, ledger0, pairs, low, high);
          merged, held := true, [false, false];
        }
      }
    }
  }

  /** The answers a recovery may see. */
  datatype Recovery = Recovery(buys: LegAnswers, sells: LegAnswers, merge: bool)

  /** Which steps of a recovery take effect. */
  datatype Unwind = Unwind(boughtYes: bool, boughtNo: bool, merged: bool, soldYes: bool, soldNo: bool)

  /** Collateral gained by a recovery. */
  function Gain(u: Unwind, r: Recovery, pairs: real): real
  {
    (if u.soldYes then Amount(r.sells[0]) else 0.0) + (if u.soldNo then Amount(r.sells[1]) else 0.0)
    - (if u.boughtYes then Amount(r.buys[0]) else 0.0) - (if u.boughtNo then Amount(r.buys[1]) else 0.0)
    + if u.merged then pairs else 0.0
  }

  /** A long sells what it bought; two tokens that both cannot be sold are merged. */
  function LongUnwind(yes: bool, no: bool, r: Recovery, pairs: real): Unwind
  {
    var soldYes, soldNo := yes && Takes(r.sells[0], pairs), no && Takes(r.sells[1], pairs);
    Unwind(false, false, yes && no && !soldYes && !soldNo && r.merge && FitsU64(pairs), soldYes, soldNo)
  }

  /** A short buys back what it sold and merges; what cannot be merged is sold. */
  function ShortUnwind(yes: bool, no: bool, r: Recovery, pairs: real): Unwind
  {
    var boughtYes, boughtNo := yes && Takes(r.buys[0], pairs), no && Takes(r.buys[1], pairs);
    var heldYes, heldNo := !yes || boughtYes, !no || boughtNo;
    var merged := heldYes && heldNo && r.merge && FitsU64(pairs);
    Unwind(boughtYes, boughtNo, merged,
           !merged && heldYes && Takes(r.sells[0], pairs), !merged && heldNo && Takes(r.sells[1], pairs))
  }

  function LongRecovery(u: Unwind, yes: bool, no: bool, pairs: real): ExecutionOutcome {
    if u.merged || (yes == u.soldYes && no == u.soldNo)
    then ExecutionOutcome(LongPartialRecovered, true, true, pairs, 0.0)
    else ExecutionOutcome(LongPartialResidual, false, false, 0.0, 0.0)
  }

  function ShortRecovery(u: Unwind, yes: bool, no: bool, pairs: real): ExecutionOutcome {
    if u.merged then ExecutionOutcome(ShortPartialRecovered, true, true, pairs, pairs)
    else if (u.soldYes || (yes && !u.boughtYes)) && (u.soldNo || (no && !u.boughtNo))
    then ExecutionOutcome(ShortPartialFlattened, true, true, 0.0, pairs)
    else ExecutionOutcome(ShortPartialResidual, false, false, 0.0, 0.0)
  }

  /** The batch results are one buy or sell per token, in the order submitted. */
  ghost predicate LegResults(results: seq<MarketOrderResult>, market: Market) {
    |results| == 2 && results[0].token == market.yes && results[1].token == market.no && market.yes != market.no
  }

  /** A token's holding once the batch is in: `base` plus the size bought, or less the size sold. */
  ghost predicate AfterBatch(ledger: seq<Entry>, market: Market, results: seq<MarketOrderResult>, base: real, size: real)
    requires LegResults(results, market)
  {
    && Held(ledger, market.yes) == base + (if results[0].success then size else 0.0)
    && Held(ledger, market.no) == base + (if results[1].success then size else 0.0)
  }

  /** The recovery after one leg of a long: sell what was bought, else merge. It reports success exactly when nothing is left. */
  method RecoverLongPartial(market: Market, pairs: real, results: seq<MarketOrderResult>, answers: Recovery, ledger0: seq<Entry>)
    returns (outcome: ExecutionOutcome, ledger: seq<Entry>)
    requires LegResults(results, market) && WholePairs(pairs)
    requires AfterBatch(ledger0, market, results, 0.0, pairs)
    ensures outcome.success <==> Flat(ledger, market)
    ensures var u := LongUnwind(results[0].success, results[1].success, answers, pairs);
      && outcome == LongRecovery(u, results[0].success, results[1].success, pairs)
      && Usdc(ledger) == Usdc(ledger0) + Gain(u, answers, pairs)
    ensures Held(ledger, market.yes) in {0.0, pairs} && Held(ledger, market.no) in {0.0, pairs}
  {
    var tokens := [market.yes, market.no];
    var held := ReadFlags(tokens, results, true);
    held, ledger := SellHeld(tokens, pairs, held, answers.sells, ledger0, 0.0, pairs);
    var merged;
    merged, held, ledger := MergeHeld(tokens, pairs, held, answers.merge, ledger, 0.0, pairs);
    var residual := held[0] || held[1];
    assert Held(ledger, tokens[0]) == if held[0] then pairs else 0.0;
    assert Held(ledger, tokens[1]) == if held[1] then pairs else 0.0;
    outcome := ExecutionOutcome(if residual then LongPartialResidual else LongPartialRecovered, !residual, !residual,
                                if residual then 0.0 else pairs, 0.0);
  }

  /**
   The recovery after one leg of a short: buy back what was sold and merge, else sell what is left.
   It reports success exactly when `pairs` of each token have left the wallet since the split.
   */
  method RecoverShortPartial(market: Market, pairs: real, results: seq<MarketOrderResult>, answers: Recovery,
                             ledger0: seq<Entry>, ghost split: real)
    returns (outcome: ExecutionOutcome, ledger: seq<Entry>)
    requires LegResults(results, market) && WholePairs(pairs)
    requires AfterBatch(ledger0, market, results, split, -pairs)
    ensures outcome.success <==> Held(ledger, market.yes) == Held(ledger, market.no) == split - pairs
    ensures var u := ShortUnwind(results[0].success, results[1].success, answers, pairs);
      && outcome == ShortRecovery(u, results[0].success, results[1].success, pairs)
      && Usdc(ledger) == Usdc(ledger0) + Gain(u, answers, pairs)
    ensures Held(ledger, market.yes) in {split - pairs, split} && Held(ledger, market.no) in {split - pairs, split}
  {
    var tokens := [market.yes, market.no];
    var held := ReadFlags(tokens, results, false);
    held, ledger := BuyBack(tokens, pairs, held, answers.buys, ledger0, split - pairs, split);
    var merged;
    merged, held, ledger := MergeHeld(tokens, pairs, held, answers.merge, ledger, split - pairs, split);
    if merged {
      assert Held(ledger, tokens[0]) == Held(ledger, tokens[1]) == split - pairs;
      return ExecutionOutcome(ShortPartialRecovered, true, true, pairs, pairs), ledger;
    }
    held, ledger := SellHeld(tokens, pairs, held, answers.sells, ledger, split - pairs, split);
    var residual := held[0] || held[1];
    assert Held(ledger, tokens[0]) == if held[0] then split else split - pairs;
    assert Held(ledger, tokens[1]) == if held[1] then split else split - pairs;
    outcome := ExecutionOutcome(if residual then ShortPartialResidual else ShortPartialFlattened, !residual, !residual,
                                0.0, if residual then 0.0 else pairs);
  }

  // ----- execution -----

  /** Everything the exchange may answer during one execution. */
  datatype Answers = Answers(sdk: bool, split: bool, batch: Option<seq<Answer>>, merge: bool, recovery: Recovery)

  predicate PairAnswered(answers: Answers) {
    answers.batch.Some? && |answers.batch.value| == 2
  }

  /** Both legs of the batch were taken. */
  predicate AllFilled(answers: Answers, pairs: real) {
    SizeAllowed(pairs) && PairAnswered(answers) && answers.batch.value[0].Fill? && answers.batch.value[1].Fill?
  }

  function PairSpecs(market: Market, side: Side, pairs: real): seq<MarketOrderSpec> {
    [MarketOrderSpec(market.yes, side, pairs), MarketOrderSpec(market.no, side, pairs)]
  }

  /** What a two-legged batch does to the wallet. */
  lemma BatchEffect(market: Market, side: Side, pairs: real, answers: seq<Answer>, ledger0: seq<Entry>)
    requires |answers| == 2 && market.yes != market.no && WholePairs(pairs)
    ensures var ledger := ledger0 + Fills(PairSpecs(market, side, pairs), answers);
      var size := if side == Buy then pairs else -pairs;
      && Held(ledger, market.yes) == Held(ledger0, market.yes) + (if answers[0].Fill? then size else 0.0)
      && Held(ledger, market.no) == Held(ledger0, market.no) + (if answers[1].Fill? then size else 0.0)
      && Usdc(ledger) == Usdc(ledger0) + if side == Buy then -Amount(answers[0]) - Amount(answers[1])
                                         else Amount(answers[0]) + Amount(answers[1])
  {
    var specs := PairSpecs(market, side, pairs);
    var first := Leg(specs[0], answers[0]);
    TwoFills(specs, answers);
    assert ledger0 + Fills(specs, answers) == (ledger0 + first) + Leg(specs[1], answers[1]);
    forall token | token in {market.yes, market.no} ensures
        && Held(ledger0 + first, token) == Held(ledger0, token) + LegTokens(specs[0], answers[0], token, pairs)
        && Held(ledger0 + Fills(specs, answers), token) == Held(ledger0 + first, token) + LegTokens(specs[1], answers[1], token, pairs)
    {
      LegEffect(ledger0, specs[0], answers[0], token);
      LegEffect(ledger0 + first, specs[1], answers[1], token);
    }
    LegEffect(ledger0, specs[0], answers[0], market.yes);
    LegEffect(ledger0 + first, specs[1], answers[1], market.yes);
  }

  function LegTokens(spec: MarketOrderSpec, a: Answer, token: string, pairs: real): real {
    if a.Refused? || spec.token != token then 0.0 else if spec.side == Buy then pairs else -pairs
  }

  lemma LegEffect(ledger: seq<Entry>, spec: MarketOrderSpec, a: Answer, token: string)
    requires WholePairs(spec.shares)
    ensures Held(ledger + Leg(spec, a), token) == Held(ledger, token) + LegTokens(spec, a, token, spec.shares)
    ensures Usdc(ledger + Leg(spec, a)) == Usdc(ledger) + if spec.side == Buy then -Amount(a) else Amount(a)
  {
    WholeSizeKept(spec.shares);
    if a.Fill? {
      Snoc(ledger, FillEntry(spec, a.usdc), token);
    } else {
      assert ledger + Leg(spec, a) == ledger;
    }
  }

  lemma TwoFills(specs: seq<MarketOrderSpec>, answers: seq<Answer>)
    requires |specs| == |answers| == 2
    ensures Fills(specs, answers) == Leg(specs[0], answers[0]) + Leg(specs[1], answers[1])
  {
    assert specs[..1][..0] == [] && answers[..1][..0] == [];
    assert Fills(specs[..1], answers[..1]) == Leg(specs[0], answers[0]);
  }

  /** The two legs of an execution in one request. */
  method PlacePair(market: Market, side: Side, pairs: real, reply: Option<seq<Answer>>, ledger0: seq<Entry>)
    returns (r: Option<seq<MarketOrderResult>>, ledger: seq<Entry>)
    requires market.yes != market.no && WholePairs(pairs)
    ensures r.Some? <==> SizeAllowed(pairs) && reply.Some? && |reply.value| == 2
    ensures r.None? ==> ledger == ledger0
    ensures r.Some? ==>
              && LegResults(r.value, market)
              && r.value[0].success == reply.value[0].Fill?
              && r.value[1].success == reply.value[1].Fill?
    ensures r.Some? ==>
              var size := if side == Buy then pairs else -pairs;
              && Held(ledger, market.yes) == Held(ledger0, market.yes) + (if reply.value[0].Fill? then size else 0.0)
              && Held(ledger, market.no) == Held(ledger0, market.no) + (if reply.value[1].Fill? then size else 0.0)
              && Usdc(ledger) == Usdc(ledger0) + if side == Buy then -Amount(reply.value[0]) - Amount(reply.value[1])
                                                 else Amount(reply.value[0]) + Amount(reply.value[1])
  {
    var specs := PairSpecs(market, side, pairs);
    assert specs[0] in specs;
    r, ledger := PlaceBatch(specs, reply, ledger0);
    if r.Some? {
      BatchEffect(market, side, pairs, reply.value, ledger0);
    }
  }

  /** The part of the configuration the executions look at. */
  datatype Switches = Switches(mergeEnabled: bool, splitEnabled: bool)

  /** How a long ends, for any answers. */
  function LongOutcome(switches: Switches, pairs: real, a: Answers): ExecutionOutcome {
    if !a.sdk then Failed(LiveSdkMissing)
    else if !SizeAllowed(pairs) || !PairAnswered(a) then Failed(LongBatchFailed)
    else if AllFilled(a, pairs) then
      if switches.mergeEnabled && !a.merge then Failed(LongMergeFailed)
      else ExecutionOutcome(LongOk, false, true, pairs, 0.0)
    else
      var yes, no := a.batch.value[0].Fill?, a.batch.value[1].Fill?;
      LongRecovery(LongUnwind(yes, no, a.recovery, pairs), yes, no, pairs)
  }

  /** Net collateral of a long: the fills, the merge if one happens, and the recovery. */
  function LongUsdc(switches: Switches, pairs: real, a: Answers): real {
    if !a.sdk || !SizeAllowed(pairs) || !PairAnswered(a) then 0.0
    else
      var paid := Amount(a.batch.value[0]) + Amount(a.batch.value[1]);
      if AllFilled(a, pairs) then (if switches.mergeEnabled && a.merge && FitsU64(pairs) then pairs else 0.0) - paid
      else Gain(LongUnwind(a.batch.value[0].Fill?, a.batch.value[1].Fill?, a.recovery, pairs), a.recovery, pairs) - paid
  }

  /** How a short ends once the split went through. */
  function SoldOutcome(pairs: real, a: Answers): ExecutionOutcome {
    if !SizeAllowed(pairs) || !PairAnswered(a) then Failed(ShortBatchFailed)
    else if AllFilled(a, pairs) then ExecutionOutcome(ShortOk, false, true, 0.0, pairs)
    else
      var yes, no := a.batch.value[0].Fill?, a.batch.value[1].Fill?;
      ShortRecovery(ShortUnwind(yes, no, a.recovery, pairs), yes, no, pairs)
  }

  function SoldUsdc(pairs: real, a: Answers): real {
    if !SizeAllowed(pairs) || !PairAnswered(a) then 0.0
    else
      var received := Amount(a.batch.value[0]) + Amount(a.batch.value[1]);
      if AllFilled(a, pairs) then received
      else received + Gain(ShortUnwind(a.batch.value[0].Fill?, a.batch.value[1].Fill?, a.recovery, pairs), a.recovery, pairs)
  }

  /** How a short ends, for any answers. */
  function ShortOutcome(switches: Switches, pairs: real, a: Answers): ExecutionOutcome {
    if !a.sdk then Failed(LiveSdkMissing)
    else if !switches.splitEnabled then Failed(SplitDisabled)
    else if !FitsU64(pairs) then Failed(InvalidPairs)
    else if !a.split then Failed(SplitFailed)
    else SoldOutcome(pairs, a)
  }

  /** Net collateral of a short: the split, the fills and the recovery. */
  function ShortUsdc(switches: Switches, pairs: real, a: Answers): real {
    if !a.sdk || !switches.splitEnabled || !FitsU64(pairs) || !a.split then 0.0
    else SoldUsdc(pairs, a) - SplitShares(pairs)
  }

  /** Tokens of each side that a split gives: one per dollar, as far as 64 bits of raw units go. */
  function SplitShares(pairs: real): real {
    SaturatingMul(Max(pairs, 0.0).Floor, USDC_SCALE) as real / USDC_SCALE as real
  }

  /** A dollar a pair, up to the largest number of millionths of a dollar that fits in 64 bits. */
  lemma SplitMeans(pairs: real)
    requires WholePairs(pairs)
    ensures SplitShares(pairs)
         == if pairs * 1000000.0 <= 18446744073709551615.0 then pairs else 18446744073709551615.0 / 1000000.0
    ensures SplitFits(pairs) <==> pairs * 1000000.0 <= 18446744073709551615.0
    ensures FitsU64(pairs) <==> pairs <= 18446744073709551615.0
  {
    assert pairs.Floor as real == pairs;
  }

  /** A failed execution reports neither success nor recovery, and no pairs merged or split. */
  lemma FailedMeans(status: Status)
    ensures Failed(status) == ExecutionOutcome(status, false, false, 0.0, 0.0)
  {
  }

  /**
   Buy both tokens and merge. A long that reports success leaves no token behind, except that it
   keeps the whole pair when merging is switched off or the size is beyond 64 bits.
   */
  method ExecuteLong(switches: Switches, market: Market, pairs: real, answers: Answers)
    returns (outcome: ExecutionOutcome, ledger: seq<Entry>)
    requires market.yes != market.no && WholePairs(pairs)
    ensures outcome == LongOutcome(switches, pairs, answers)
    ensures Usdc(ledger) == LongUsdc(switches, pairs, answers)
    ensures outcome.success && switches.mergeEnabled && FitsU64(pairs) ==> Flat(ledger, market)
    ensures outcome.status == LongOk && !(switches.mergeEnabled && FitsU64(pairs)) ==>
              Held(ledger, market.yes) == Held(ledger, market.no) == pairs
    ensures outcome.status == LongPartialRecovered ==> Flat(ledger, market)
    ensures outcome.status == LongMergeFailed ==> Held(ledger, market.yes) == Held(ledger, market.no) == pairs
    ensures outcome.status == LongPartialResidual ==> !Flat(ledger, market)
    ensures outcome.status in {LiveSdkMissing, LongBatchFailed} ==> ledger == []
  {
    if !answers.sdk {
      return Failed(LiveSdkMissing), [];
    }
    var results;
    results, ledger := PlacePair(market, Buy, pairs, answers.batch, []);
    if results.None? {
      return Failed(LongBatchFailed), ledger;
    }
    if results.value[0].success && results.value[1].success {
      if switches.mergeEnabled {
        var whole := ToU64(pairs);
        ghost var before := ledger;
        ledger := MergePositions(if whole.Some? then whole.value else 0, answers.merge, ledger);
        if !answers.merge {
          return Failed(LongMergeFailed), ledger;
        }
        Snoc(before, Merged(if whole.Some? then whole.value as real else 0.0), market.yes);
        Snoc(before, Merged(if whole.Some? then whole.value as real else 0.0), market.no);
      }
      return ExecutionOutcome(LongOk, false, true, pairs, 0.0), ledger;
    }
    outcome, ledger := RecoverLongPartial(market, pairs, results.value, answers.recovery, ledger);
  }

  /** The split gives exactly the pairs to be sold. */
  predicate SplitFits(pairs: real) {
    pairs.Floor * USDC_SCALE <= U64_MAX
  }

  /** The part of a short after the split: a success has sold, or merged away, `pairs` of each token. */
  method SellSplit(market: Market, pairs: real, answers: Answers, ledger0: seq<Entry>, ghost split: real)
    returns (outcome: ExecutionOutcome, ledger: seq<Entry>)
    requires market.yes != market.no && WholePairs(pairs)
    requires Held(ledger0, market.yes) == Held(ledger0, market.no) == split
    ensures outcome == SoldOutcome(pairs, answers)
    ensures Usdc(ledger) == Usdc(ledger0) + SoldUsdc(pairs, answers)
    ensures outcome.success ==> Held(ledger, market.yes) == Held(ledger, market.no) == split - pairs
    ensures outcome.status == ShortBatchFailed ==> ledger == ledger0
    ensures outcome.status == ShortPartialResidual ==> Held(ledger, market.yes) == split || Held(ledger, market.no) == split
  {
    var results;
    results, ledger := PlacePair(market, Sell, pairs, answers.batch, ledger0);
    if results.None? {
      return Failed(ShortBatchFailed), ledger;
    }
    if results.value[0].success && results.value[1].success {
      return ExecutionOutcome(ShortOk, false, true, 0.0, pairs), ledger;
    }
    outcome, ledger := RecoverShortPartial(market, pairs, results.value, answers.recovery, ledger, split);
  }

  /**
   Split a dollar per pair and sell both tokens. A short that reports success leaves no token behind
   exactly when the split amount fits in 64 bits.
   */
  method ExecuteShort(switches: Switches, market: Market, pairs: real, answers: Answers)
    returns (outcome: ExecutionOutcome, ledger: seq<Entry>)
    requires market.yes != market.no && WholePairs(pairs)
    ensures outcome == ShortOutcome(switches, pairs, answers)
    ensures Usdc(ledger) == ShortUsdc(switches, pairs, answers)
    ensures outcome.success ==> (Flat(ledger, market) <==> SplitFits(pairs))
    ensures outcome.status == ShortBatchFailed ==> Held(ledger, market.yes) == Held(ledger, market.no) == SplitShares(pairs) > 0.0
    ensures outcome.status == ShortPartialResidual ==> !Flat(ledger, market)
    ensures outcome.status in {LiveSdkMissing, SplitDisabled, InvalidPairs, SplitFailed} ==> ledger == []
  {
    if !answers.sdk {
      return Failed(LiveSdkMissing), [];
    }
    if !switches.splitEnabled {
      return Failed(SplitDisabled), [];
    }
    var whole := ToU64(pairs);
    if whole.None? {
      return Failed(InvalidPairs), [];
    }
    if !answers.split {
      return Failed(SplitFailed), [];
    }
    ledger := SplitPairs(market, pairs, whole.value);
    outcome, ledger := SellSplit(market, pairs, answers, ledger, SplitShares(pairs));
  }

  /** The split of a short, in raw units of collateral that stop at 64 bits. */
  method SplitPairs(market: Market, pairs: real, whole: nat) returns (ledger: seq<Entry>)
    requires WholePairs(pairs) && FitsU64(pairs) && whole == pairs.Floor
    ensures Held(ledger, market.yes) == Held(ledger, market.no) == SplitShares(pairs) == -Usdc(ledger)
    ensures 0.0 < SplitShares(pairs) <= pairs
    ensures SplitShares(pairs) == pairs <==> SplitFits(pairs)
  {
    var raw := SaturatingMul(whole, USDC_SCALE);
    ledger := SplitPosition(raw, true, []);
    SplitGives(pairs);
    Snoc([], Split(SplitShares(pairs)), market.yes);
    Snoc([], Split(SplitShares(pairs)), market.no);
  }

  lemma SplitGives(pairs: real)
    requires WholePairs(pairs) && FitsU64(pairs)
    ensures 0.0 < SplitShares(pairs) <= pairs
    ensures SplitShares(pairs) == pairs <==> SplitFits(pairs)
  {
  }
}
