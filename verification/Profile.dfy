/** The replay's configuration: every setting that steers trading. */
module Profile {
  import opened Common
  import opened Holdings

  datatype ReplayProfile = ReplayProfile(
    allowedDurations: seq<nat>,
    resolutionSafetyMarginSecs: nat,
    targetCombined: real,
    maxCombinedAvgCost: real,
    lightSideMaxCombined: real,
    baseOrderShares: real,
    ladderLevels: nat,
    ladderLevels5m: Option<nat>,
    ladderLevels15m: Option<nat>,
    ladderLevels60m: Option<nat>,
    buyLevelActivationLimit5m: Option<nat>,
    ladderSizeDecay: real,
    postonlyBufferTicks: nat,
    minBidFvRatio: real,
    minBidFloor: real,
    fvStaleCents: real,
    maxShareImbalance: real,
    oneSidedThreshold: real,
    skewPerShare: real,
    skewActivationThreshold: real,
    sharesPerSkewTick: real,
    maxSkewTicks: nat,
    fvDeadThreshold: real,
    sellbackEdge: real,
    sellLevelSize: real,
    sellLevels: nat,
    sellBuyCooldownSecs: nat,
    sellbackGracePeriodSecs: nat,
    sellbackMaxLossCents: real,
    periodGrossBuyCapUsdc: real,
    earlyPhasePct: real,
    earlyPhaseGrossBuyCapUsdc: real,
    pairRatioEvalMinTotalShares: real,
    periodMinPairRatioForHeavyAdd: real,
    rebalanceBudgetOverride: bool,
    rebalanceMaxExtraBudget: real,
    rebalanceSizeMultiplier: nat,
    singleOrderNotionalCapUsdc: real,
    pairFeeBuffer: real,
    veryLatePhaseSecs: nat,
    tradingWindowStartPct: real,
    tradingWindowEndPct: real,
    windDownAllowPairCompletion: bool,
    pairCompletionRetrySecs: nat,
    pairCompletionMaxAttempts: nat,
    mergeAtClosing: bool,
    continuousMergeEnabled: bool,
    mergeIntervalSecs: nat,
    mergeMinPairs: nat,
    mergeReservePairs: nat,
    mergeMinProfitPerPair: real,
    exitSoftExcess: real,
    exitHardExcess: real,
    exitTakerAfterSecs: real,
    exitForceRemainingSecs: real)
  {
    predicate AllowsDuration(mins: nat) {
      allowedDurations == [] || mins in allowedDurations
    }

    function LadderLevelsForDuration(mins: nat): nat {
      var specific := if mins >= 60 then ladderLevels60m else if mins > 7 then ladderLevels15m else ladderLevels5m;
      if specific.Some? then specific.value else ladderLevels
    }

    function ActivationLimitForDuration(mins: nat): Option<nat> {
      if mins <= 7 then buyLevelActivationLimit5m else None
    }

    /** Cap on what a pair may cost, looser on the side that is short of shares. */
    function CombinedCostLimit(h: Holding, o: Outcome): real {
      match o
      case Yes => if h.yes.qty < h.no.qty then lightSideMaxCombined else maxCombinedAvgCost
      case No => if h.no.qty < h.yes.qty then lightSideMaxCombined else maxCombinedAvgCost
    }
  }

  /** The settings of a profile that no file overrides. */
  const DEFAULTS: ReplayProfile := ReplayProfile(
    allowedDurations := [5, 15, 60],
    resolutionSafetyMarginSecs := 120,
    targetCombined := 0.97,
    maxCombinedAvgCost := 0.97,
    lightSideMaxCombined := 0.99,
    baseOrderShares := 15.0,
    ladderLevels := 10,
    ladderLevels5m := Some(5),
    ladderLevels15m := Some(10),
    ladderLevels60m := Some(15),
    buyLevelActivationLimit5m := None,
    ladderSizeDecay := 0.10,
    postonlyBufferTicks := 3,
    minBidFvRatio := 0.5,
    minBidFloor := 0.02,
    fvStaleCents := 0.08,
    maxShareImbalance := 150.0,
    oneSidedThreshold := 50.0,
    skewPerShare := 0.008,
    skewActivationThreshold := 15.0,
    sharesPerSkewTick := 5.0,
    maxSkewTicks := 15,
    fvDeadThreshold := 0.10,
    sellbackEdge := 0.01,
    sellLevelSize := 10.0,
    sellLevels := 3,
    sellBuyCooldownSecs := 10,
    sellbackGracePeriodSecs := 15,
    sellbackMaxLossCents := 0.02,
    periodGrossBuyCapUsdc := 80.0,
    earlyPhasePct := 0.10,
    earlyPhaseGrossBuyCapUsdc := 30.0,
    pairRatioEvalMinTotalShares := 60.0,
    periodMinPairRatioForHeavyAdd := 0.35,
    rebalanceBudgetOverride := true,
    rebalanceMaxExtraBudget := 25.0,
    rebalanceSizeMultiplier := 1,
    singleOrderNotionalCapUsdc := 12.5,
    pairFeeBuffer := 0.03,
    veryLatePhaseSecs := 300,
    tradingWindowStartPct := 0.35,
    tradingWindowEndPct := 0.60,
    windDownAllowPairCompletion := true,
    pairCompletionRetrySecs := 5,
    pairCompletionMaxAttempts := 8,
    mergeAtClosing := false,
    continuousMergeEnabled := false,
    mergeIntervalSecs := 30,
    mergeMinPairs := 10,
    mergeReservePairs := 0,
    mergeMinProfitPerPair := 0.0,
    exitSoftExcess := 15.0,
    exitHardExcess := 30.0,
    exitTakerAfterSecs := 12.0,
    exitForceRemainingSecs := 15.0)
}
