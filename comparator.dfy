/** The micro-BIC versus "régime réel" comparator: the two taxable bases of a year, the
    revenue threshold above which the real regime is mandatory, and the recommendation. */
module Comparator {
  import opened Money
  import opened Optional

  datatype Regime = Reel | MicroBic

  datatype ComparisonResult = ComparisonResult(
    year: int,
    totalRevenue: real,
    regimeType: string,
    microBicThreshold: real,
    microBicAbatementPct: real,
    microBicTaxableBase: real,
    reelTaxableBase: real,
    reelDeficit: real,
    microBicSaving: real,
    recommendedRegime: Regime,
    aboveThreshold: bool)

  const StandardThreshold: string := "standard_threshold"
  const StandardAbatement: string := "standard_abatement"

  /** `constants.get(key, constants[fallback])`: the fallback is looked up first, so a
      missing fallback key fails even when `key` is present. */
  function LookupWithFallback(constants: map<string, real>, key: string, fallback: string): (r: Option<real>)
    ensures r.None? <==> fallback !in constants
    ensures r.Some? && key in constants ==> r.value == constants[key]
    ensures r.Some? && key !in constants ==> r.value == constants[fallback]
  {
    if fallback !in constants then None
    else if key in constants then Some(constants[key])
    else Some(constants[fallback])
  }

  /** `compare_regimes` on the year's micro-BIC constants (threshold and abatement per
      regime type, as fractions). `None` stands for the KeyError raised when a standard
      entry is missing. */
  function CompareRegimes(year: int, totalRevenue: real, reelFiscalResult: real, regimeType: string, constants: map<string, real>): Option<ComparisonResult>
  {
    var threshold := LookupWithFallback(constants, regimeType + "_threshold", StandardThreshold);
    var abatement := LookupWithFallback(constants, regimeType + "_abatement", StandardAbatement);
    if threshold.None? || abatement.None? then None
    else
      var aboveThreshold := totalRevenue > threshold.value;
      var microBicTaxable := Max(0.0, totalRevenue * (1.0 - abatement.value));
      var reelTaxable := Max(0.0, reelFiscalResult);
      var reelDeficit := Max(0.0, -reelFiscalResult);
      var saving := microBicTaxable - reelTaxable;
      var recommended := if aboveThreshold then Reel else if saving > 0.0 then Reel else MicroBic;
      Some(ComparisonResult(
        year, totalRevenue, regimeType, threshold.value, abatement.value * 100.0,
        microBicTaxable, reelTaxable, reelDeficit, saving, recommended, aboveThreshold))
  }

  /** The comparison fails exactly when a standard entry is missing. */
  lemma CompareFailsOnlyWithoutStandard(year: int, totalRevenue: real, reelFiscalResult: real, regimeType: string, constants: map<string, real>)
    ensures CompareRegimes(year, totalRevenue, reelFiscalResult, regimeType, constants).None? <==>
      StandardThreshold !in constants || StandardAbatement !in constants
  {
  }

  /** The threshold and abatement are those of the regime type, or the standard ones for a
      regime type without entries; the abatement is reported as a percentage. The year,
      the revenue and the regime type are echoed. */
  lemma CompareUsesConstants(year: int, totalRevenue: real, reelFiscalResult: real, regimeType: string, constants: map<string, real>)
    requires StandardThreshold in constants && StandardAbatement in constants
    ensures var r := CompareRegimes(year, totalRevenue, reelFiscalResult, regimeType, constants);
      && r.Some?
      && r.value.year == year && r.value.totalRevenue == totalRevenue && r.value.regimeType == regimeType
      && r.value.microBicThreshold ==
           (if regimeType + "_threshold" in constants then constants[regimeType + "_threshold"] else constants[StandardThreshold])
      && r.value.microBicAbatementPct ==
           (if regimeType + "_abatement" in constants then constants[regimeType + "_abatement"] else constants[StandardAbatement]) * 100.0
  {
  }

  /** The real regime is mandatory exactly when the revenue is strictly above the threshold. */
  lemma AboveThresholdExactly(year: int, totalRevenue: real, reelFiscalResult: real, regimeType: string, constants: map<string, real>)
    requires CompareRegimes(year, totalRevenue, reelFiscalResult, regimeType, constants).Some?
    ensures var r := CompareRegimes(year, totalRevenue, reelFiscalResult, regimeType, constants).value;
      r.aboveThreshold <==> totalRevenue > r.microBicThreshold
  {
  }

  /** The micro-BIC base is the revenue after abatement, never below zero. */
  lemma MicroBicBase(year: int, totalRevenue: real, reelFiscalResult: real, regimeType: string, constants: map<string, real>)
    requires CompareRegimes(year, totalRevenue, reelFiscalResult, regimeType, constants).Some?
    ensures var r := CompareRegimes(year, totalRevenue, reelFiscalResult, regimeType, constants).value;
      var afterAbatement := totalRevenue * (1.0 - r.microBicAbatementPct / 100.0);
      && r.microBicTaxableBase >= 0.0
      && (afterAbatement >= 0.0 ==> r.microBicTaxableBase == afterAbatement)
      && (afterAbatement < 0.0 ==> r.microBicTaxableBase == 0.0)
  {
  }

  /** The real regime's fiscal result is split into a taxable base and a deficit: both
      non-negative, at most one of them non-zero, and their difference is the result. */
  lemma ReelSplit(year: int, totalRevenue: real, reelFiscalResult: real, regimeType: string, constants: map<string, real>)
    requires CompareRegimes(year, totalRevenue, reelFiscalResult, regimeType, constants).Some?
    ensures var r := CompareRegimes(year, totalRevenue, reelFiscalResult, regimeType, constants).value;
      && r.reelTaxableBase >= 0.0 && r.reelDeficit >= 0.0
      && (r.reelTaxableBase == 0.0 || r.reelDeficit == 0.0)
      && r.reelTaxableBase - r.reelDeficit == reelFiscalResult
  {
  }

  /** The saving is the micro-BIC base minus the real base; the real regime is recommended
      exactly when it is mandatory or its base is strictly smaller, so a tie goes to
      micro-BIC. */
  lemma Recommendation(year: int, totalRevenue: real, reelFiscalResult: real, regimeType: string, constants: map<string, real>)
    requires CompareRegimes(year, totalRevenue, reelFiscalResult, regimeType, constants).Some?
    ensures var r := CompareRegimes(year, totalRevenue, reelFiscalResult, regimeType, constants).value;
      && r.microBicSaving == r.microBicTaxableBase - r.reelTaxableBase
      && (r.recommendedRegime == Reel <==> r.aboveThreshold || r.microBicTaxableBase > r.reelTaxableBase)
      && (!r.aboveThreshold && r.microBicTaxableBase == r.reelTaxableBase ==> r.recommendedRegime == MicroBic)
  {
  }

  // ---------------------------------------------------------------------------
  // Worked values of the test suite, under any constants whose standard abatement is
  // one half and whose standard threshold lies between 20000 and 100000.
  // ---------------------------------------------------------------------------

  predicate StandardHalf(constants: map<string, real>) {
    && StandardThreshold in constants && StandardAbatement in constants
    && constants[StandardAbatement] == 0.5
    && 20000.0 <= constants[StandardThreshold] < 100000.0
  }

  /** The keys the standard regime type looks up are the standard entries. */
  lemma StandardKeys()
    ensures "standard" + "_threshold" == StandardThreshold
    ensures "standard" + "_abatement" == StandardAbatement
  {
    assert ("standard" + "_threshold")[..] == StandardThreshold;
  }

  /** A revenue of 10600 with a fiscal result of 0: micro-BIC base 5300, the real regime wins. */
  lemma ExampleReelBetter(constants: map<string, real>)
    requires StandardHalf(constants)
    ensures var r := CompareRegimes(2026, 10600.0, 0.0, "standard", constants);
      && r.Some? && r.value.microBicTaxableBase == 5300.0 && r.value.reelTaxableBase == 0.0
      && r.value.recommendedRegime == Reel
  {
    StandardKeys();
  }

  /** A revenue of 10000 with a result of 6000: micro-BIC base 5000 is lower, micro-BIC wins. */
  lemma ExampleMicroBetter(constants: map<string, real>)
    requires StandardHalf(constants)
    ensures var r := CompareRegimes(2026, 10000.0, 6000.0, "standard", constants);
      && r.Some? && r.value.microBicTaxableBase == 5000.0 && r.value.recommendedRegime == MicroBic
  {
    StandardKeys();
  }

  /** A revenue of 100000 is above the threshold: the real regime is mandatory. */
  lemma ExampleAboveThreshold(constants: map<string, real>)
    requires StandardHalf(constants)
    ensures var r := CompareRegimes(2026, 100000.0, 50000.0, "standard", constants);
      && r.Some? && r.value.aboveThreshold && r.value.recommendedRegime == Reel
  {
    StandardKeys();
  }

  /** A revenue of 20000: abatement reported as 50, micro-BIC base 10000. */
  lemma ExampleStandardAbatement(constants: map<string, real>)
    requires StandardHalf(constants)
    ensures var r := CompareRegimes(2026, 20000.0, 5000.0, "standard", constants);
      && r.Some? && r.value.microBicAbatementPct == 50.0 && r.value.microBicTaxableBase == 10000.0
  {
    StandardKeys();
  }

  /** A deficit of 2000: real base 0, deficit 2000, the real regime wins. */
  lemma ExampleDeficit(constants: map<string, real>)
    requires StandardHalf(constants)
    ensures var r := CompareRegimes(2026, 10000.0, -2000.0, "standard", constants);
      && r.Some? && r.value.reelTaxableBase == 0.0 && r.value.reelDeficit == 2000.0
      && r.value.recommendedRegime == Reel
  {
    StandardKeys();
  }
}
