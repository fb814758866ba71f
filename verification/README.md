# Verified model of the trading core

The programs trade binary prediction markets, where a YES token and a NO token
together are worth one dollar. This project models the parts of them that keep
money, positions and resting orders, and proves what they are for: that the
books balance over runs of any length, that the configured limits hold, and
that what is written can be read back. `dafny verify dfyconfig.toml` checks all
of it.

## What is proved

- **Replay of a period** (`Holdings`, `Position`, `PaperSim`, `Budget`,
  `Ladders`, `ExitPlan`, `Quoting`, `Period`, `Replay`). The loop over the ticks
  refines a fold: fills, merge, re-quote and completion of a tick each lead to
  exactly the state that the one before prescribes, up to the order of equally
  priced candidates. The profit a replay reports is what a cash account of the
  run in that trace says, and no sequence of prices, books and fair values can
  lose more than the configured budget. The matching simulator keeps every order
  id it ever issued in exactly one place, and every resting bid is at a price
  that is safe for the position it was quoted on.
- **Convergence replay** (`Convergence`). The trades are those a strategy on the
  log prescribes; the settlement branches are right because the two directions
  are never held together; counts, cooldown and cash follow.
- **Reconciliation after an unanswered batch** (`Reconcile`). The greedy loop
  finds a largest possible matching, with an exact count per key.
- **VPIN** (`Vpin`). The pouring loop refines cutting the whole stream of trades
  at multiples of the bucket volume.
- **Complete sets** (`CompleteSet`, `Signals`). The held flags of both recoveries
  are the wallet at every step; success means no tokens are left, with the exact
  limits within which that is true; cap, cooldown, counters and expected profit
  hold over every run of polls, and in live mode the wallet backs them.
- **Encoders and parsers** (`MultiSend`, `Csv`, `TimeRange`, `Digits`) and the
  **alert rate limit** (`Alerting`).

What steers these programs is stated twice: by the functions the proofs work
with, and in plain figures, columns, seconds and settings alone, by the lemmas
whose names end in `Means` or `InCents` and in the contracts of the main
operations.

Where the code does less than one would expect, the project states exactly when:

- On a tick with sells the simulator's imbalance guard and the position can part
  ways, since one subtracts proceeds and the other average cost; with no buy of a
  side offered before its sells they agree exactly when the two amounts are equal.
- A maker exit is priced at or through the bid exactly when an ask above the bid
  is no longer above it once cut to a tick, and the loss floor leaves room there.
- A fully filled long reports success with its pair unmerged when merging is
  disabled or the size exceeds 64 bits; the merge then asks for zero pairs. A
  short whose split amount exceeds 64 bits splits less than it sells.
- With fewer than five pairs per trade, a live short splits and then cannot sell.
- A VPIN bucket volume of zero or less makes the pouring loop run forever.
- A closing merge that exactly breaks even is not counted in the merged pairs.
- The field writer of the period logs leaves a bare carriage return unquoted.
- The two copies of the title parser differ exactly when the first colon that is
  not skipped is malformed and a later colon gives a range or an overflow.

Decimals and floating-point numbers are exact reals, so rounding is not part of
the model except where the code rounds on purpose (to a tick, to two decimals,
to whole shares). Time is an integer number of nanoseconds, or a real number of
seconds where the code uses floating point. Prices, books, fair values and every
answer of the exchange are arbitrary inputs of each step. State that the code
updates in place is a class with the same fields, and the local variables of the
replay loop are fields of the class that replays; sequences of events kept in
ghost fields are the independent record that the results are stated about.
Predicates that hold "for every `Look`" say what they enclose: `Look` is always
true and only tells the verifier when to read them.

## Model

| member | source | states |
|---|---|---|
| Decimals.RoundDownToTick | src/sdk.rs:2322-2327 | A price is cut to a whole multiple of the tick, never up and by less than one tick; a zero tick leaves it alone |
| Decimals.QuantizeSize | src/sdk.rs:2329-2335 | A size is cut to two decimals, never up and by less than a hundredth; a non-positive size becomes zero |
| Decimals.QuantizeIdempotent | src/sdk.rs:854-860 | Cutting a size that was already cut changes nothing, so what is looked for after a timeout is what was submitted |
| Decimals.RoundDownIdempotent | src/sdk.rs:785-789 | The same for prices |
| Holdings.FoldValid | src/bin/backtest.rs:559-632 | In every reachable position quantities and costs are not negative and an empty side carries no cost |
| Holdings.MergeKeepsAverages | src/bin/backtest.rs:615-632 | A merge keeps the YES-NO excess and the average cost of every side still held |
| Holdings.MergeConservesLockedProfit | src/types.rs:298-374 | Locked profit before a merge is the profit it realizes plus the locked profit after it |
| Holdings.MergesAdd | src/bin/backtest.rs:615-632 | Merging k1 and then k2 leaves the position that merging k1+k2 leaves |
| Holdings.MergeProfitsAdd | src/bin/backtest.rs:615-632 | and realizes the same total |
| Holdings.CashFlow | src/bin/backtest.rs:1124-1163 | Over every run, cash received less cash paid is booked profit less the cost still tied up in the position |
| Holdings.SettlementSplits | src/bin/backtest.rs:1996-2016 | Locked plus speculative profit is what the end position pays less its cost, for UP, DOWN and no result |
| Holdings.ProfitIsCash | src/bin/backtest.rs:1981-2017 | For every run and result the reported profit is sale proceeds plus a dollar per merged pair plus the settlement value, less everything paid for buys |
| Holdings.LossBound | src/bin/backtest.rs:1996-2017 | If merges released no more cost than they paid out and at most C was committed net of merged cost, no result loses more than C |
| PositionLedger.Position.ApplyFill | src/bin/backtest.rs:1124-1163 | A fill moves the position, its cash account and the reported profit exactly as the event says: buys add cost, sells take at most what is held at average cost |
| PositionLedger.Position.RecordMerge | src/bin/backtest.rs:615-632 | A merge takes at most the complete pairs, at average cost, and reports one dollar per pair less that cost |
| PaperSim.OrderIdsDiffer | src/paper_sim.rs:129-130 | Two different counters never print the same order id |
| PaperSim.PaperSimulator.NextIdIsFresh | src/paper_sim.rs:121-130 | In every reachable simulator the next id has never been issued |
| PaperSim.PaperSimulator.PlaceAt | src/paper_sim.rs:121-179 | Placing adds one order under a never used id, with the terms given, and keeps every issued id accounted for |
| PaperSim.PaperSimulator.PlaceBuyAt | src/paper_sim.rs:121-143 | The same for buys |
| PaperSim.PaperSimulator.PlaceSellAt | src/paper_sim.rs:157-179 | The same for sells |
| PaperSim.PaperSimulator.Cancel | src/paper_sim.rs:182-184 | Cancelling returns the original terms, removes that order alone and does nothing to an id that is not resting |
| PaperSim.PaperSimulator.CancelMarket | src/paper_sim.rs:187-198 | Exactly the orders of the market leave, each listed once |
| PaperSim.PaperSimulator.OrdersForMarket | src/paper_sim.rs:489-494 | Lists exactly the resting orders of the market, each once |
| PaperSim.PaperSimulator.RestingBuyShares | src/paper_sim.rs:207-217 | The sum of the sizes of the resting buys of an outcome, whatever order the map is walked in |
| PaperSim.SortSorts | src/paper_sim.rs:431-432 | Candidates come out in falling price order, none lost or doubled |
| PaperSim.PaperSimulator.Classify | src/paper_sim.rs:319-424 | Candidates and post-only rejections are exactly the orders of the market that qualify as such |
| PaperSim.PaperSimulator.CheckFillsAt | src/paper_sim.rs:295-486 | One tick: what is filled is what the guard lets through, at limit price; filled and rejected orders leave, all else stays, and every id ever issued is in exactly one of resting, filled, rejected, cancelled with its original terms |
| PaperSim.LeavingAccounted | src/paper_sim.rs:426-480 | Disjoint sets of orders moving out of the map keep every issued id in exactly one place |
| PaperSim.TickSelects | src/paper_sim.rs:320-480 | No order is both filled and rejected by a tick, and all of them belong to its market |
| PaperSim.OfferedMeans | src/paper_sim.rs:320-424 | Which orders a tick offers, rejects and leaves, in the figures of the call: YES orders meet the YES quotes and fair values and NO orders the NO ones, buys the ask and sells the bid; rejected in the first second when crossing, offered after three when crossing, on a fair value through the price, or after five on every twentieth tick within two cents |
| PaperSim.SwapKeepsOffers | src/paper_sim.rs:332-420 | With YES and NO exchanged in orders, quotes and fair values, a tick offers and rejects the same orders |
| PaperSim.OtherMarketsStay | src/paper_sim.rs:323-326 | A tick of one market leaves every order of the other markets resting |
| PaperSim.BuyTickStaysWithin | src/paper_sim.rs:434-480 | A tick without sells ends within the limit or takes nothing at all |
| Budget.CapNeverAboveLossCap | src/bin/backtest.rs:997-1029 | The commitment cap of any tick is at most the cap the configuration promises |
| Budget.CapMeans | src/bin/backtest.rs:997-1029 | The cap of a tick in plain figures: period cap or a million, the early cap in the early part, plus the cost of the excess shares up to its limit where a pair costs under 98 cents |
| Budget.NotionalCapHolds | src/bin/backtest.rs:720-726 | A size cut for the single-order cap is no larger than asked and costs at most the cap |
| Budget.BudgetHolds | src/bin/backtest.rs:1872-1873 | A size cut to the remaining budget costs at most what remains |
| Budget.BudgetIsSpent | src/bin/backtest.rs:1872-1873 | and is the largest whole number of shares that fits, a price under a cent counting as a cent |
| Budget.FillSound | src/bin/backtest.rs:1549-1569 | Fills move notional from resting to paid and rejections drop it, so committed money never grows by a tick |
| Budget.PlaceSound | src/bin/backtest.rs:1866-1888 | A buy placed where the cap has room keeps filled-net-of-merged plus resting within the cap |
| Budget.CancelSound | src/bin/backtest.rs:1642-1650 | Cancelled buys take exactly their notional with them |
| Budget.MergeSound | src/bin/backtest.rs:1609-1628 | A merge at the configured profit or better releases no more cost than it pays, and keeps the cap |
| Budget.FillsArePaid | src/bin/backtest.rs:1549-1559 | The money a position has paid is the notional of the buys the simulator has filled, over every run |
| Budget.RunningCostsArePositionCosts | src/paper_sim.rs:434-468 | Without sells the simulator's running costs are the costs of the position after the returned fills |
| Budget.ImbalanceStaysWithin | src/bin/backtest.rs:1535-1560 | so an imbalance that starts a tick within the limit ends it within the limit when no sell filled |
| Budget.GuardAgreesExactly | src/paper_sim.rs:434-480 | With sells in the tick, none of them behind a buy of its own side, the guard's running cost of a side is the position's cost after the tick exactly when the proceeds of that side's offered sells, as far as the side has cost, equal the average cost of the shares they take: a condition on the opening position and the offered sells, for every tick |
| Budget.SellsCanBreakTheGuard | src/paper_sim.rs:462-467 | A concrete tick offers a resting sell and a resting buy, the guard passes both at an imbalance of 3 under a limit of 5, and the position ends at 7, because the simulator subtracts proceeds and the position average cost |
| Ladders.SizesMeetMinimum | src/bin/backtest.rs:1165-1169 | Every ladder level is large enough for an order |
| Ladders.BuildLadder | src/bin/backtest.rs:1216-1262 | Rungs one tick apart from the rounded top, strictly falling, each with the size of its level, stopping only at the bid floor or the level count |
| Ladders.SideLadder | src/bin/backtest.rs:1184-1265 | A dead outcome gets no bids, or one floor bid when the other side is held; a live one the grid around its skewed centre |
| Ladders.ComputeBidLadder | src/bin/backtest.rs:1171-1265 | Both ladders in cents: a live side starts at the largest cent not above its target less the YES excess times the skew setting, for NO plus it, and not under the lowest price allowed, a share of fair value or the floor; with one dead outcome one floor bid or none, and nothing when both are dead |
| Ladders.ExcessMovesBids | src/bin/backtest.rs:1188-1193 | More YES excess never raises the first YES bid nor lowers the first NO bid, for any fair values, under a skew setting that is not negative; NegativeSkewMovesBids has the reverse |
| Ladders.AnchorToAsk | src/bin/backtest.rs:1267-1329 | A ladder whose best bid crosses the ask or lags the anchor is rebuilt from the anchor, any other is kept; with a post-only buffer of a tick or more no bid is at or through the ask |
| Ladders.AnchoredBelowAsk | src/bin/backtest.rs:1267-1329 | The reason for the last clause: a grid from the anchor stays below a positive ask |
| Ladders.AnchoredInCents | src/bin/backtest.rs:1277-1300 | A ladder at or through the ask, or under the cents that lie the buffer below it, is laid out anew from those cents; any other stays |
| Ladders.ApplyPostAnchorSkew | src/bin/backtest.rs:1331-1368 | Only the heavy side is lowered, by whole ticks of its excess; bids under the floor go, order and distance to the ask stay |
| Ladders.SkewedInCents | src/bin/backtest.rs:1337-1367 | The side with more shares, bid by bid: lowered by one cent per configured shares past the threshold, up to the most ticks allowed, and dropped under the floor |
| Ladders.ApplyCostFilters | src/bin/backtest.rs:1686-1706 | Both ladders stay strictly falling; every YES bid plus every NO bid is within both limits and every bid plus the held other side's average within its own; nothing is dropped that would not break one of these |
| Ladders.LimitsMean | src/bin/backtest.rs:1438-1444 | The limit of a side is the looser one exactly when it has fewer shares than the other, and the averages are money spent per share held |
| Ladders.SamePricesKeepGuard | src/bin/backtest.rs:1711-1860 | Resizing, clearing and truncating keep the guard |
| Ladders.ApplyRebalanceSizeMultiplier | src/bin/backtest.rs:1045-1078 | Past the soft excess only the light side is resized: same prices, the multiplied sizes handed out from the best price on, at most the excess in all, and levels left without size go |
| Ladders.BoostedSpends | src/bin/backtest.rs:1066-1076 | Every level gets all that multiplying its size gives it, or the levels up to it spend the whole excess |
| Ladders.BoostedMeans | src/bin/backtest.rs:1070-1073 | A boosted size is the multiplied one in hundredths, and at least five shares |
| Ladders.InterleaveLadders | src/bin/backtest.rs:1031-1043 | The loop returns both ladders level by level, YES first |
| Ladders.InterleavedFrom | src/bin/backtest.rs:1031-1043 | and loses and invents no level |
| ExitPlans.BuildSellLevels | src/bin/backtest.rs:934-954 | Sell levels fall by a tick each, are positive, at or above the floor, at least 5 shares, together at most the excess; the loop stops early only when the next level would break one of these |
| ExitPlans.MakerTopIsSafe | src/bin/backtest.rs:893-932 | The best maker sell is at or above the loss floor, and it is above a real bid exactly unless the ask slips under the bid when cut to a tick and the floor is not above that cut price |
| ExitPlans.MakerExitThroughTheBid | src/bin/backtest.rs:893-932 | Under the default settings, with a bid of 50.5 cents and an ask of 50.9, the plan's first level is at 50 cents, through the bid |
| ExitPlans.ComputeExcessExitPlan | src/bin/backtest.rs:800-960 | The loop and its branches make the plan that mode, prices and loss floor determine, for every position and tick |
| ExitPlans.MakerPlanIs | src/bin/backtest.rs:893-960 | A maker plan offers one-tick rungs from the maker price down with greedy sizes, and is skipped exactly when no price meets floor and book or not even one level of five shares can be offered there |
| ExitPlans.ExitPlanIsSafe | src/bin/backtest.rs:800-960 | Any plan sells only the heavy side, at most its excess, in sellable sizes, at or above the loss floor and only while that side has a bid; a taker plan sells at that bid |
| ExitPlans.ExitMeans | src/bin/backtest.rs:777-892 | When an exit is none, at the bid or by offers, in shares, seconds and settings; at the bid exactly when a bid reaches the average cost less the loss that the time left allows, for a sellable size |
| ExitPlans.MakerTopMeans | src/bin/backtest.rs:893-932 | Where a maker exit starts: beside the ask or over the bid but not above what fair value and cost call for, raised to the loss floor where the bid reaches it, on a tick, and over the bid |
| ExitPlans.TakerNeverFlips | src/bin/backtest.rs:1904-1918 | Carrying out a taker exit shrinks the excess and never makes the light side the heavy one |
| Quoting.PairCompletionIs | src/bin/backtest.rs:1080-1122 | In every reachable position a pair is completed exactly when a side is short, its ask with the held average and the fee is under a dollar, and the missing shares make an order of five shares and a dollar; then it is that side at its ask for the excess or the per-cycle limit |
| Quoting.CompletionMeans | src/bin/backtest.rs:1080-1122 | The same in the columns of a tick: NO at its ask when there are more YES shares, YES when there are more NO, at most twenty, under a dollar with the average cost of the other side and the fee |
| Replays.Replay.FillOrders | src/bin/backtest.rs:1535-1569 | What the simulator fills is booked, in the offered order; without sell fills the position's cost imbalance stays within the limit |
| Periods.FillsRemembered | src/bin/backtest.rs:1561-1581 | A tick remembers the last sale of each side and since when the excess has been very large |
| Replays.Replay.ContinuousMerge | src/bin/backtest.rs:1599-1640 | Merges exactly the pairs above the reserve when enabled, due, large and profitable enough, after cancelling every resting sell and nothing else |
| Periods.MergeMeans | src/bin/backtest.rs:1590-1606 | A merge takes the pairs above the reserve exactly when merging is enabled, the interval has passed, the pairs are enough and cost little enough, in plain figures |
| Periods.MergeKeepsBuys | src/bin/backtest.rs:1608-1640 | A merge takes every resting sell and no buy out of the book, notes its time and lifts the exit block of an excess that is no longer large; without one nothing changes |
| Quoting.BuildQuotes | src/bin/backtest.rs:1652-1734 | The whole quoting pipeline returns exactly the ladders that its steps prescribe, and they satisfy the cost guard and stay below the asks |
| Quoting.QuietOutsideWindow | src/bin/backtest.rs:1667-1685 | No later step revives what the trading window cleared: before it a tick places no bid, after it at most bids on the side short of shares, and only where pairs may still be completed |
| Quoting.LopsidedMeans | src/bin/backtest.rs:1722-1732 | The heavy side is cleared past the early phase when pairs are too small a part of enough shares |
| Quoting.SilenceMeans | src/bin/backtest.rs:1736-1764 | A side is silent for the configured seconds after its own last sale, and while an exit blocks it and it has more shares |
| Quoting.ShiftMeans | src/bin/backtest.rs:1589-1595 | A tick re-quotes exactly when there was no quote yet or a fair value has moved by more than the setting |
| Quoting.Decide | src/bin/backtest.rs:1652-1860 | Bids and exit plan of a tick are those the settings, the position and what is remembered determine; the side that is being sold off gets no bids, the rest keep the cost guard, and the plan stays within excess and loss floor |
| Quoting.PlannedExitMeans | src/bin/backtest.rs:1766-1795 | What an exit is planned from: quotes that are positive, whole seconds since the excess became very large, the grace period after the first order, and whether the heavy side would be quoted |
| Replays.Replay.Requote | src/bin/backtest.rs:1642-1932 | A re-quote takes the state to exactly the one prescribed: bids dropped, stale sells cancelled, the allocation of the budget and the missing sells placed under the next ids, and the taker sale booked; resting buys are at quotes safe for the position, resting sells at exactly the prices of the plan |
| Periods.KeptMeans | src/bin/backtest.rs:1829-1842 | Of the resting orders a re-quote keeps exactly the sells whose outcome and price the new plan offers again, and none when it sells at once |
| Periods.QuotesRemembered | src/bin/backtest.rs:1736-1932 | A re-quote remembers its fair values, the side it sells off, the first order of the period and a sale of either side, and nothing else |
| Replays.Replay.PlaceBuys | src/bin/backtest.rs:1862-1889 | The loop places exactly the greedy allocation of what the cap leaves, bid after bid, under consecutive ids, and keeps the cap |
| Periods.BidTakesAllItCan | src/bin/backtest.rs:1872-1879 | A bid of the allocation is cut only where one more share would break the budget or the cap of a single order |
| Replays.Replay.PlaceSells | src/bin/backtest.rs:1891-1902 | Exactly the planned levels that were not resting are added, in order, and afterwards every planned level rests |
| Periods.SellsComeFirst | src/bin/backtest.rs:1802-1902 | After a re-quote no side has both bids and sells resting except for a completing buy, so on the next tick no buy of a side is offered before its sells, as GuardAgreesExactly needs |
| Replays.Replay.TakerExit | src/bin/backtest.rs:1904-1929 | Sells at the planned price as much of the planned size as is held, if that is an order, or nothing |
| Periods.SaleMeans | src/bin/backtest.rs:1904-1918 | The sale in plain figures: the smaller of what is wanted and held, in hundredths, at the planned price, if it is five shares |
| Replays.Replay.TryPairCompletion | src/bin/backtest.rs:1934-1978 | Places exactly the buy that the missing shares, those already on the way, both caps, the phase and the earlier attempts call for, and none otherwise; it is of the short side at its ask |
| Periods.CompletionsAreRare | src/bin/backtest.rs:1940-1978 | A completing buy comes only before the safety margin and no more often in a row than configured |
| Periods.MayCompleteMeans | src/bin/backtest.rs:1940-1948 | When a pair may be completed: before the safety margin, very late or with at most a third of the time before it left, with attempts left and the retry time over |
| Periods.AttemptsMean | src/bin/backtest.rs:1934-1938 | Earlier attempts are forgotten exactly when less than a share is missing |
| Replays.Replay.Step | src/bin/backtest.rs:1528-1979 | One tick leads through exactly the prescribed states, for some order of equally priced candidates, and is safe: on a re-quoting tick every resting buy is at a safe quote or completes a pair and the sells are those of the plan, on any other tick only a completing buy is new; the cap holds after each |
| Periods.TickEvents | src/bin/backtest.rs:1528-1979 | A tick adds to the record what the guard let through of the offered orders, then on a re-quoting tick at most one merge and at most one sale at the bid, and nothing else |
| Replays.Replay.CapHolds | src/bin/backtest.rs:1862-1876 | What the invariant says: after every step cash paid less cost merged plus the notional of all resting buys is at most the cap, and cash paid is the notional of everything filled |
| Periods.TracePays | src/bin/backtest.rs:1549-1569 | Over every trace the position has paid exactly for the buys its ticks filled |
| Replays.Replay.MergeAtClosing | src/bin/backtest.rs:1981-1994 | All pairs are merged when configured and profitable enough; a closing merge that exactly breaks even empties the pairs without being counted in the merged-pairs figure |
| Periods.ClosingMeans | src/bin/backtest.rs:1981-1988 | The closing merge takes all pairs exactly when it is configured and a pair has cost little enough |
| Replays.Replay.Settle | src/bin/backtest.rs:1996-2050 | The figures are those of the recorded position and account: quantities, pairs, locked, merge, sell and speculative profit; the total is no less than minus the cap |
| Replays.SimulatePeriod | src/bin/backtest.rs:1446-2050 | For every tick sequence, profile and result: too few rows are an error, a length that is not allowed is skipped, and any other period has a trace that follows its ticks one by one, safe at every one of them. Its profit is sale proceeds plus a dollar per merged pair less the notional of the filled buys, plus the YES shares left on UP and the NO shares on DOWN; any other result books no speculative profit. No loss beyond the cap if merges may not run at a loss |
| Replays.RulesMean | src/bin/backtest.rs:1456-1492 | Levels and activation limit by the time left at the first tick: an hour, a quarter of an hour or five minutes |
| Replays.PeriodMeans | src/bin/backtest.rs:1981-2050 | Every figure of a period in terms of the run of its trace: end quantities, pairs, locked and speculative profit, merge and sell profit, merged pairs, and the total as proceeds plus merged pairs plus settlement value less the notional of the buys that were filled |
| Convergence.Record | src/bin/convergence_backtest.rs:196-294 | A log stays a strict alternation of entries and exits of the same holding under each entry from flat and each exit of what is held |
| Convergence.CooldownAfterEveryStop | src/bin/convergence_backtest.rs:248-258 | When time runs forward no entry comes within 30 seconds after any earlier stop-loss |
| Convergence.Replay.TrySell | src/bin/convergence_backtest.rs:195-243 | Sells at the bid exactly when forced, at profit, converged or stopped, and counts a stop-loss only when it is the sole reason |
| Convergence.Replay.TryBuy | src/bin/convergence_backtest.rs:245-294 | Enters a full position at the ask exactly when all conditions hold and neither side is held |
| Convergence.Replay.Step | src/bin/convergence_backtest.rs:173-295 | One tick books exactly the trades that the strategy prescribes from what its log adds up to, which keeps UP and DOWN from being held together and every holding at zero or the full size |
| Convergence.Replay.Settle | src/bin/convergence_backtest.rs:297-309 | Sell plus settlement profit is net cash of the log plus what the open holding pays |
| Convergence.RunPeriod | src/bin/convergence_backtest.rs:162-323 | Over every tick sequence the logs between the ticks follow from one another by the tick's columns: a due sale first, then from flat UP, or else DOWN, when its fair value exceeds its mid by the divergence, the ask fits, time is left, thirty seconds have passed since the last stop-loss and stop-losses remain. Every trade has such a tick; profit is net cash plus payout, entries are exits plus one if holding, stop-losses stay within their limit |
| Convergence.TradedAtBestPrices | src/bin/convergence_backtest.rs:195-294 | Every trade of a period is at the ask or bid of one of its ticks, at the time of that tick |
| Reconcile.ValidIndices | src/sdk.rs:766-832 | The indices that go into the batch, in order: exactly those not skipped for backoff, size, price, token, build or signature |
| Reconcile.ReconcileOrders | src/sdk.rs:854-883 | The greedy loop returns strictly increasing indices with distinct ids, each pair backed by an answer for its token, price and size; an index goes without only if its answer failed or listed only orders given to others |
| Reconcile.GreedyIsAssignment | src/sdk.rs:857-883 | What the loop returns pairs every index with an open order that fits it |
| Reconcile.GreedySaturates | src/sdk.rs:857-883 | When an index goes without, every order that fits it was given to an index of the same key |
| Reconcile.GreedyCountsPerKey | src/sdk.rs:857-883 | Per key the matches are as many as the submissions or the eligible open orders, whichever is less |
| Reconcile.GreedyIsMaximum | src/sdk.rs:854-890 | No assignment of open orders to submitted orders recovers more than the greedy loop |
| Reconcile.AfterFailedPost | src/sdk.rs:838-968 | The call in the fields of orders and specs: an empty success exactly when nothing was submitted, an error for a failure that speaks of neither timeout, connection nor hyper; otherwise every recovered pair stands on a listed buy under ten seconds old at the cut price and size, and where such an order is listed the index was recovered or the order went to another; a maximum recovery if all answers come from one book |
| Vpin.VpinTracker.RecordTrade | src/vpin.rs:78-109 | After any trades the sealed window is exactly the last full buckets of the whole stream cut at equal volumes and the open bucket is the rest; the loop ends |
| Vpin.VpinTracker.Pour | src/vpin.rs:83-108 | One turn of the pouring loop keeps the tracker in step with the stream, seals a bucket exactly when it is full and leaves strictly less to pour |
| Vpin.VpinTracker.Reset | src/vpin.rs:168-174 | A reset forgets the stream |
| Vpin.SealTracks | src/vpin.rs:94-107 | Sealing a bucket that is just full slides the window by one bucket of the stream |
| Vpin.FullBucketsUnique | src/vpin.rs:78-109 | A stream has only one number of full buckets, so the contents are determined by the trades |
| Vpin.BucketIsFull | src/vpin.rs:94-107 | A sealed bucket holds exactly the bucket volume and neither side is negative |
| Vpin.VolumeConserved | src/vpin.rs:78-109 | Everything bought and sold is in the full buckets or the open one |
| Vpin.SplitTradeSameTracker | src/vpin.rs:78-109 | Recording a and then b on one side leaves the tracker, window and open bucket, exactly as recording a+b does |
| Vpin.NoBucketNoEnd | src/vpin.rs:83-108 | With a bucket volume of zero or less the tracker's own turn never leaves less to pour, however often it is taken: the condition of RecordTrade is needed |
| Vpin.VpinIsMeanImbalance | src/vpin.rs:111-124 | The metric exists exactly with two sealed buckets, is imbalance over volume of the window and lies in [0,1] |
| Vpin.VpinMeans | src/vpin.rs:111-124 | The metric times the volume of the window is what the larger side of each bucket exceeds the smaller by, in all; there is none under two buckets |
| Vpin.WindowVolume | src/vpin.rs:111-124 | and the volume it divides by is the bucket volume times the buckets in the window |
| Vpin.ToxicFlowRetreats | src/vpin.rs:126-159 | A higher metric never narrows the spread nor raises the size; both stay within their bands |
| Vpin.FlowLines | src/vpin.rs:126-159 | From the threshold on, spread and size move on straight lines to the widest spread and to a quarter at one; up to it, and without a metric, they do not move |
| CompleteSet.LedgerConserved | src/complete_set.rs:1225-1596 | For every ledger, tokens held are bought plus split less sold less merged, and net collateral is sales plus merges less purchases less splits |
| CompleteSet.Joined | src/complete_set.rs:1225-1596 | Ledgers of consecutive executions add up, for tokens and collateral |
| CompleteSet.PlaceFok | src/sdk.rs:1352-1525 | A fill-or-kill order fills whole or not at all and is never sent below five shares |
| CompleteSet.AllowedMeans | src/sdk.rs:1352-1525 | An order is sent exactly when it is for five shares or more |
| CompleteSet.PlaceBatch | src/sdk.rs:1529-1690 | An empty batch succeeds without a request; any other fails as a whole on one small size, a failed request or a wrong number of answers, and otherwise every order has its own answer |
| CompleteSet.SellHeld | src/complete_set.rs:1439-1453 | Selling loop: the held flags are the wallet at every step, and a flag drops exactly when its sell fills |
| CompleteSet.BuyBack | src/complete_set.rs:1518-1532 | Buy-back loop: the held flags are the wallet at every step, and a flag rises exactly when its buy fills |
| CompleteSet.MergeHeld | src/complete_set.rs:1455-1475 | A pair held on both sides is merged exactly when accepted and representable, and both holdings empty at once |
| CompleteSet.RecoverLongPartial | src/complete_set.rs:1416-1493 | Success is reported exactly when no token is left; which answers lead there and what they earn are stated in full |
| CompleteSet.RecoverShortPartial | src/complete_set.rs:1495-1596 | Success is reported exactly when the split pairs have left the wallet; which answers lead there and what they earn are stated in full |
| CompleteSet.ExecuteLong | src/complete_set.rs:1225-1308 | Which outcome each series of answers leads to and the exact net collateral of every outcome; a success leaves no token behind when merging is enabled and the size fits in 64 bits, and keeps the whole pair otherwise |
| CompleteSet.ExecuteShort | src/complete_set.rs:1310-1414 | The same for shorts; a success leaves no token behind exactly when the split amount fits in 64 bits |
| CompleteSet.SplitMeans | src/complete_set.rs:1340-1372 | A split gives a share of each token per dollar, up to the largest number of millionths that fits in 64 bits |
| Signals.SignalsPay | src/complete_set.rs:103-223 | Under a validated configuration every signal pays more than the fee per pair, trades whole pairs, and in live mode has the merge or split it needs |
| Signals.ValidateMeans | src/complete_set.rs:103-223 | Exactly which configuration files are accepted, and that every setting arrives unchanged |
| Signals.FindOpportunity | src/complete_set.rs:1060-1143 | A signal exists exactly when a side meets its threshold and takes the side with the larger edge |
| Signals.SignalMeans | src/complete_set.rs:1014-1143 | Which polls signal what, in first prices, clock and settings: both books, the window, a long where both asks and the fee stay within the limit, a short where both bids less the fee reach theirs, the larger gain first |
| Signals.SwitchesMean | src/complete_set.rs:1174-1205 | Live longs obey the merge switch and live shorts the split switch; outside live mode an attempt succeeds with its pairs noted on its own side |
| Signals.CooldownKept | src/complete_set.rs:1163-1170 | For every setting a configuration file can hold, the check on whole seconds holds an attempt back exactly when it comes before the configured distance is over |
| Signals.PeriodStats.ProcessMarket | src/complete_set.rs:1001-1219 | One poll changes every figure exactly as its signal, caps, cooldown and the exchange's answers prescribe, and nothing when there is no signal |
| Signals.PeriodStats.BookLive | src/complete_set.rs:1207-1219 | The result of a live execution: its ledger is kept, only a success counts and adds its expected profit |
| Signals.PeriodStats.AttemptShadow | src/complete_set.rs:1185-1219 | Outside live mode every attempt succeeds and counts twice against the cap |
| Signals.BackedOn | src/complete_set.rs:1174-1219 | A successful attempt keeps a flat wallet flat, and one filled at its quotes earns at least its expected profit |
| Signals.EarnedAtQuotes | src/complete_set.rs:1174-1219 | Over every poll sequence in which each attempt fills both legs at the quotes of its signal, the collateral gained is at least the expected profit |
| Signals.RunPeriod | src/complete_set.rs:751-787 | Over every poll sequence the figures are exactly what the polls add up to and opportunities are the polls with a signal; attempts are made at exactly the polls whose signal neither cap nor cooldown holds back, and any two keep the cooldown; live trades are successes within the cap, other modes count double up to cap plus one, expected profit is at least the configured edges per success; if every attempt succeeded the wallet is flat, and if all filled at their quotes it gained at least the expected profit |
| MultiSend.EncodeMultiSend | src/relayer.rs:782-799 | The loop packs every call as operation, address, value, length, data |
| MultiSend.RoundTrip | src/relayer.rs:782-799 | A decoder recovers every list of calls whose data lengths fit in 256 bits |
| MultiSend.EncodeInjective | src/relayer.rs:782-799 | so two different lists never pack into the same bytes |
| MultiSend.DecodedIsEncoding | src/relayer.rs:782-799 | and the decoder accepts nothing but packings |
| Csv.RecordRoundTrip | src/file_logger.rs:813-819 | A reader after section 2 of RFC 4180 gets a record back exactly when each field is quoted or holds no carriage return on its own |
| Csv.QuotedRecordsRoundTrip | src/complete_set.rs:1635-1637 | With every field quoted any list of any strings comes back |
| TimeRange.ParseMarketDurationMinutes | src/main.rs:961-1054 | The search loop returns the first range found, skips malformed times and falls back to the keywords |
| TimeRange.ParseMarketDurationMinutesStrict | src/complete_set.rs:1762-1832 | The copy of the complete-set program gives up at the first malformed time |
| TimeRange.RangeRoundTrip | src/main.rs:961-1054 | Both read back the length of every printed 12-hour range of up to a day, from any start minute, across noon, midnight and day end, behind any colon-free prefix that does not end in a digit |
| TimeRange.DifferenceMeans | src/main.rs:1026-1034 | A length leads from start to end, to the next day unless the end is later, and every pair of clock times has one |
| TimeRange.FallbackMeans | src/main.rs:1040-1047 | A title without a colon is an hour exactly when it names an hour before ET, in any case of letters |
| TimeRange.VersionsDiffer | src/complete_set.rs:1762-1832 | The two versions answer differently on exactly the titles whose first colon that is not skipped is malformed and that have a range or an overflow at a later colon |
| TimeRange.ColonInPrefixParts | src/complete_set.rs:1762-1832 | A colon in the prefix parts them: one still finds the range, the other finds none |
| Alerting.RunBlocking | src/monitoring/alerting.rs:44-75 | For every non-decreasing clock and message sequence each message is decided by the sends of its category in the preceding 300 seconds |
| Alerting.WindowBound | src/monitoring/alerting.rs:53-73 | No half-open 300-second window of any run holds more than the maximum of a category |
| Alerting.DroppedOnlyWhenFull | src/monitoring/alerting.rs:53-73 | A message is dropped only when exactly that many sends lie in the 300 seconds before it |

## Left out

- Replays.SimulatePeriod: assumes that no tick's lowest bid price, the larger of the configured floor and the configured share of fair value, is negative, because negative bids would be placed as they are and the cap would lose its meaning.
- Budget.GuardAgreesExactly: needs that no buy of a side is offered before its sells, as holds after every re-quote without a completing buy; for any order of candidates the gap is only given step by step, in DriftIsExact.
- Replays.Replay.Step: order and fill counters, rejection counts, largest excess and other reporting figures are not modelled; they steer nothing.
- Replays.Replay.PlaceSells: sells kept from an earlier plan keep their old size, so resting sells are not bounded by inventory; only each plan is.
- ExitPlans.ComputeExcessExitPlan: the tick size is the constant one cent that its only caller passes.
- PaperSim.PaperSimulator.PlaceAt: the id counter does not wrap around at 64 bits, because that many orders are out of reach.
- PaperSim.PaperSimulator.CheckFillsAt: orders of equal price are offered in an arbitrary order, as the hash map gives them.
- Convergence.RunPeriod: the fair-value model is any number, so its logarithm, square root and normal distribution are not modelled.
- Reconcile.ReconcileOrders: answers are lists given from outside; how they are queried, the backoff they set and the log texts are not modelled.
- CompleteSet.PlaceFok: a successful answer means a full fill and any failure none; an exchange that fills and then fails to answer is not covered, and neither is the guard that may cut a sell to the shares held.
- CompleteSet.ExecuteLong: the reported number of merged pairs is not compared with real merges, because a recovery reports all pairs even when it sold them.
- Signals.PeriodStats.ProcessMarket: polls, best edges and other reporting figures are not modelled, and the counters do not wrap at 32 bits.
- Signals.RunPeriod: needs trade sizes that are positive whole numbers, which validation guarantees, and a clock that does not run backwards.
- TimeRange.RangeRoundTrip: titles are ASCII, so byte and character positions coincide.
- Ladders.ComputeBidLadder: fair values are taken as exact numbers; their conversion to decimals is not modelled.
- The responses path of a batch that was answered, the paired-order path and retries with backoff.
- Reading of price files, CSV and TOML, command lines, dashboards, logging and the database.
- HTTP, WebSocket, signing, hashing, relayer polling and chain transactions: they are answers given from outside.
- The live convergence bot and the other live strategies; the exclusivity of the two directions is claimed for the replay only.
- Cancelling all orders of the simulator, order counts and the entry points that read the system clock: thin variants of modelled members.
- Latency statistics, run manifests and configuration plumbing: they would only add easy members.
