/** The depreciation engine: first-year proration, linear annual depreciation per
    component, and the cap-and-carry-over rule that limits the deductible total to the
    result before depreciation and allocates it to the components in list order. */
module Depreciation {
  import opened Calendar
  import opened Money
  import opened Allocation

  // ---------------------------------------------------------------------------
  // Proration and the annual amount of one component
  // ---------------------------------------------------------------------------

  /** The fraction of `fiscalYear` during which an asset started on `start` is held:
      1 for any later year; within the start year, the days from `start` to December 31
      (both included) over 365, whatever the length of the year. There is no guard for a
      start after the fiscal year: the day count is then zero or negative. */
  function Prorata(start: Date, fiscalYear: int): (p: real)
    ensures start.year < fiscalYear ==> p == 1.0
    ensures start.year == fiscalYear ==>
      p == (DaysInYear(fiscalYear) - DayOfYear(start) + 1) as real / 365.0
    ensures start.year == fiscalYear ==> 1.0 / 365.0 <= p <= DaysInYear(fiscalYear) as real / 365.0
    ensures start.year > fiscalYear ==> p <= 0.0
  {
    if start.year < fiscalYear then 1.0
    else DaysHeldUntilYearEnd(start, fiscalYear) as real / 365.0
  }

  /** The fixed 365-day denominator makes the fraction exceed 1 exactly for an asset
      started on January 1 of a leap year, where it is 366/365. */
  lemma ProrataAboveOne(start: Date, fiscalYear: int)
    ensures Prorata(start, fiscalYear) > 1.0 <==>
      start.year == fiscalYear && IsLeapYear(fiscalYear) && start.month == 1 && start.day == 1
    ensures Prorata(start, fiscalYear) > 1.0 ==> Prorata(start, fiscalYear) == 366.0 / 365.0
  {
    if start.year == fiscalYear {
      var p := Prorata(start, fiscalYear);
      var n := DaysInYear(fiscalYear) - DayOfYear(start) + 1;
      assert p == n as real / 365.0;
      assert p > 1.0 <==> n > 365;
    }
  }

  /** Held from January 1 of its start year, an asset is held DaysInYear/365 of it: the
      whole year in a common year. */
  lemma ProrataFromNewYear(start: Date)
    requires start.month == 1 && start.day == 1
    ensures Prorata(start, start.year) == DaysInYear(start.year) as real / 365.0
    ensures Prorata(start, start.year) == 1.0 <==> !IsLeapYear(start.year)
  {
  }

  /** `annual_depreciation_amount`: zero for a non-positive value or duration and after
      the last year of the plan; otherwise the value divided by the duration, rounded to
      the cent, then multiplied by the proration and rounded to the cent again. */
  function AnnualDepreciationAmount(value: real, durationYears: int, start: Date, fiscalYear: int): (r: real)
    ensures value <= 0.0 || durationYears <= 0 || fiscalYear > start.year + durationYears - 1 ==> r == 0.0
  {
    if value <= 0.0 || durationYears <= 0 then 0.0
    else if fiscalYear > start.year + durationYears - 1 then 0.0
    else RoundedProduct(FullAnnual(value, durationYears), Prorata(start, fiscalYear))
  }

  /** The rounded yearly amount of a plan: `value * (1 / duration)` to the cent. */
  function FullAnnual(value: real, durationYears: int): real
    requires durationYears > 0
  {
    RoundHalfUp(value / durationYears as real)
  }

  /** The yearly amount is a whole number of cents, not negative for a non-negative value. */
  lemma FullAnnualIsCents(value: real, durationYears: int)
    requires durationYears > 0
    ensures IsCents(FullAnnual(value, durationYears))
    ensures value >= 0.0 ==> FullAnnual(value, durationYears) >= 0.0
  {
    var q := value / durationYears as real;
    RoundHalfUpIsCents(q);
    RoundHalfUpSign(q);
    if value >= 0.0 {
      assert q >= 0.0;
    }
  }

  /** The yearly amount is within half a cent of value / duration. */
  lemma FullAnnualNear(value: real, durationYears: int)
    requires durationYears > 0
    ensures value / durationYears as real - 0.005 <= FullAnnual(value, durationYears) <= value / durationYears as real + 0.005
  {
    RoundHalfUpNear(value / durationYears as real);
  }

  /** In every year of the plan, the rounded yearly amount is scaled by the proration and
      rounded to the cent again. */
  lemma AnnualAmountInPlan(value: real, durationYears: int, start: Date, fiscalYear: int)
    requires value > 0.0 && durationYears > 0 && fiscalYear <= start.year + durationYears - 1
    ensures AnnualDepreciationAmount(value, durationYears, start, fiscalYear) ==
      RoundedProduct(FullAnnual(value, durationYears), Prorata(start, fiscalYear))
  {
  }

  /** Every amount the engine produces is a whole number of cents. */
  lemma AnnualAmountIsCents(value: real, durationYears: int, start: Date, fiscalYear: int)
    ensures IsCents(AnnualDepreciationAmount(value, durationYears, start, fiscalYear))
  {
    if value > 0.0 && durationYears > 0 && fiscalYear <= start.year + durationYears - 1 {
      RoundedProductIsCents(FullAnnual(value, durationYears), Prorata(start, fiscalYear));
    } else {
      assert IsCents(0.0);
    }
  }

  /** In a year of the plan after the start year the amount is the whole rounded yearly amount. */
  lemma AnnualAmountInLaterYear(value: real, durationYears: int, start: Date, fiscalYear: int)
    requires value > 0.0 && durationYears > 0
    requires start.year < fiscalYear <= start.year + durationYears - 1
    ensures AnnualDepreciationAmount(value, durationYears, start, fiscalYear) == FullAnnual(value, durationYears)
  {
    FullAnnualIsCents(value, durationYears);
    RoundedProductByOne(FullAnnual(value, durationYears));
  }

  /** Once the asset is in service, the amount is never negative. */
  lemma AnnualAmountNonNegative(value: real, durationYears: int, start: Date, fiscalYear: int)
    requires start.year <= fiscalYear
    ensures AnnualDepreciationAmount(value, durationYears, start, fiscalYear) >= 0.0
  {
    if value > 0.0 && durationYears > 0 && fiscalYear <= start.year + durationYears - 1 {
      FullAnnualIsCents(value, durationYears);
      RoundedProductSign(FullAnnual(value, durationYears), Prorata(start, fiscalYear));
    }
  }

  /** For a fiscal year before the start year, the amount is never positive. */
  lemma AnnualAmountNonPositive(value: real, durationYears: int, start: Date, fiscalYear: int)
    requires start.year > fiscalYear
    ensures AnnualDepreciationAmount(value, durationYears, start, fiscalYear) <= 0.0
  {
    if value > 0.0 && durationYears > 0 && fiscalYear <= start.year + durationYears - 1 {
      FullAnnualIsCents(value, durationYears);
      RoundedProductSign(FullAnnual(value, durationYears), Prorata(start, fiscalYear));
    }
  }

  /** Outside a leap-year January 1 start, the amount of a year never exceeds the
      rounded full annual amount. */
  lemma AnnualAmountAtMostFull(value: real, durationYears: int, start: Date, fiscalYear: int)
    requires value > 0.0 && durationYears > 0
    requires !(start.year == fiscalYear && IsLeapYear(fiscalYear) && start.month == 1 && start.day == 1)
    ensures AnnualDepreciationAmount(value, durationYears, start, fiscalYear) <= FullAnnual(value, durationYears)
  {
    FullAnnualIsCents(value, durationYears);
    if fiscalYear <= start.year + durationYears - 1 {
      ProrataAboveOne(start, fiscalYear);
      RoundedProductAtMost(FullAnnual(value, durationYears), Prorata(start, fiscalYear));
    }
  }

  // ---------------------------------------------------------------------------
  // Cap and carry-over
  // ---------------------------------------------------------------------------

  /** One entry of the component list handed to the engine. */
  datatype ComponentInput = ComponentInput(
    component: string,
    componentLabel: string,
    value: real,
    durationYears: int,
    startDate: Date,
    fiscalYear: int)

  /** One entry of the result's `details` list. */
  datatype DepreciationDetail = DepreciationDetail(
    component: string,
    componentLabel: string,
    annualAmount: real,
    deductibleAmount: real,
    carriedOver: real)

  datatype DepreciationResult = DepreciationResult(
    totalAnnual: real,
    totalDeductible: real,
    totalCarriedOver: real,
    details: seq<DepreciationDetail>)

  function AnnualAmountOf(c: ComponentInput): real {
    AnnualDepreciationAmount(c.value, c.durationYears, c.startDate, c.fiscalYear)
  }

  function AnnualAmounts(cs: seq<ComponentInput>): (amounts: seq<real>)
    ensures |amounts| == |cs|
    ensures forall i :: 0 <= i < |cs| ==> amounts[i] == AnnualAmountOf(cs[i])
  {
    seq(|cs|, i requires 0 <= i < |cs| => AnnualAmountOf(cs[i]))
  }

  /** Every component's amount for its fiscal year is non-negative. */
  predicate NonNegativeAmounts(cs: seq<ComponentInput>) {
    forall i :: 0 <= i < |cs| ==> AnnualAmountOf(cs[i]) >= 0.0
  }

  /** Components in service by their fiscal year never yield a negative amount. */
  lemma StartedComponentsNonNegative(cs: seq<ComponentInput>)
    requires forall i :: 0 <= i < |cs| ==> cs[i].startDate.year <= cs[i].fiscalYear
    ensures NonNegativeAmounts(cs)
    ensures AllNonNegative(AnnualAmounts(cs))
  {
    forall i | 0 <= i < |cs|
      ensures AnnualAmountOf(cs[i]) >= 0.0
    {
      AnnualAmountNonNegative(cs[i].value, cs[i].durationYears, cs[i].startDate, cs[i].fiscalYear);
    }
  }

  function DetailOf(c: ComponentInput, alloc: real): DepreciationDetail {
    var annual := AnnualAmountOf(c);
    DepreciationDetail(c.component, c.componentLabel, annual, alloc, annual - alloc)
  }

  /** A detail as the first loop appends it, before anything is allocated. */
  function PendingDetail(c: ComponentInput): DepreciationDetail {
    DepreciationDetail(c.component, c.componentLabel, AnnualAmountOf(c), 0.0, 0.0)
  }

  /** What `compute_deductible_depreciation` returns, as one expression. */
  function DeductibleDepreciation(cs: seq<ComponentInput>, resultBeforeDepreciation: real, previousCarriedOver: real): DepreciationResult {
    var amounts := AnnualAmounts(cs);
    var totalAnnual := Sum(amounts);
    var totalAvailable := totalAnnual + previousCarriedOver;
    var totalDeductible := Min(totalAvailable, Max(0.0, resultBeforeDepreciation));
    var allocs := Allocate(amounts, totalDeductible);
    DepreciationResult(
      totalAnnual, totalDeductible, totalAvailable - totalDeductible,
      Details(cs, allocs))
  }

  /** The detail of each component with its allocation, in input order. */
  function Details(cs: seq<ComponentInput>, allocs: seq<real>): (ds: seq<DepreciationDetail>)
    requires |allocs| == |cs|
    ensures |ds| == |cs|
    ensures forall i :: 0 <= i < |cs| ==> ds[i] == DetailOf(cs[i], allocs[i])
  {
    seq(|cs|, i requires 0 <= i < |cs| => DetailOf(cs[i], allocs[i]))
  }

  /** The deductible part recorded in each detail, in order. */
  function DeductedAmounts(ds: seq<DepreciationDetail>): (xs: seq<real>)
    ensures |xs| == |ds|
    ensures forall k :: 0 <= k < |ds| ==> xs[k] == ds[k].deductibleAmount
  {
    seq(|ds|, k requires 0 <= k < |ds| => ds[k].deductibleAmount)
  }

  /** The carried part recorded in each detail, in order. */
  function CarriedAmounts(ds: seq<DepreciationDetail>): (xs: seq<real>)
    ensures |xs| == |ds|
    ensures forall k :: 0 <= k < |ds| ==> xs[k] == ds[k].carriedOver
  {
    seq(|ds|, k requires 0 <= k < |ds| => ds[k].carriedOver)
  }

  /** The totals: the annual total is the sum of the components' amounts; the deductible
      total is the available amount (this year's plus the earlier carry-over) capped by
      the result before depreciation, never below zero; nothing is lost between the
      deducted and the carried totals. */
  lemma DeductibleTotals(cs: seq<ComponentInput>, resultBeforeDepreciation: real, previousCarriedOver: real)
    ensures var r := DeductibleDepreciation(cs, resultBeforeDepreciation, previousCarriedOver);
      var available := Sum(AnnualAmounts(cs)) + previousCarriedOver;
      && r.totalAnnual == Sum(AnnualAmounts(cs))
      && r.totalDeductible <= available
      && r.totalDeductible <= Max(0.0, resultBeforeDepreciation)
      && (r.totalDeductible == available || r.totalDeductible == Max(0.0, resultBeforeDepreciation))
      && r.totalDeductible + r.totalCarriedOver == available
  {
  }

  /** One detail per component, in input order, echoing its identity and amount; each
      detail splits its amount into a deducted and a carried part. */
  lemma DeductibleDetailsShape(cs: seq<ComponentInput>, resultBeforeDepreciation: real, previousCarriedOver: real)
    ensures var ds := DeductibleDepreciation(cs, resultBeforeDepreciation, previousCarriedOver).details;
      && |ds| == |cs|
      && forall i :: 0 <= i < |cs| ==>
        && ds[i].component == cs[i].component
        && ds[i].componentLabel == cs[i].componentLabel
        && ds[i].annualAmount == AnnualAmountOf(cs[i])
        && ds[i].deductibleAmount + ds[i].carriedOver == ds[i].annualAmount
  {
  }

  /** The budget the details share. */
  function DeductibleBudget(cs: seq<ComponentInput>, resultBeforeDepreciation: real, previousCarriedOver: real): real {
    Min(Sum(AnnualAmounts(cs)) + previousCarriedOver, Max(0.0, resultBeforeDepreciation))
  }

  lemma DetailsAllocate(cs: seq<ComponentInput>, resultBeforeDepreciation: real, previousCarriedOver: real)
    ensures DeductedAmounts(DeductibleDepreciation(cs, resultBeforeDepreciation, previousCarriedOver).details) ==
      Allocate(AnnualAmounts(cs), DeductibleBudget(cs, resultBeforeDepreciation, previousCarriedOver))
  {
  }

  /** The budget is never negative when the amounts and the earlier carry-over are not. */
  lemma DeductibleBudgetNonNegative(cs: seq<ComponentInput>, resultBeforeDepreciation: real, previousCarriedOver: real)
    requires NonNegativeAmounts(cs) && previousCarriedOver >= 0.0
    ensures AllNonNegative(AnnualAmounts(cs))
    ensures DeductibleBudget(cs, resultBeforeDepreciation, previousCarriedOver) >= 0.0
  {
    SumNonNegative(AnnualAmounts(cs));
  }

  /** With non-negative amounts and carry-over, every detail deducts between nothing and
      its whole amount and carries the rest, and no total is negative. */
  lemma DeductibleBounds(cs: seq<ComponentInput>, resultBeforeDepreciation: real, previousCarriedOver: real)
    requires NonNegativeAmounts(cs) && previousCarriedOver >= 0.0
    ensures var r := DeductibleDepreciation(cs, resultBeforeDepreciation, previousCarriedOver);
      && 0.0 <= r.totalDeductible
      && 0.0 <= r.totalCarriedOver
      && forall i :: 0 <= i < |r.details| ==>
        && 0.0 <= r.details[i].deductibleAmount <= r.details[i].annualAmount
        && 0.0 <= r.details[i].carriedOver <= r.details[i].annualAmount
  {
    DeductibleBudgetNonNegative(cs, resultBeforeDepreciation, previousCarriedOver);
    AllocateBounds(AnnualAmounts(cs), DeductibleBudget(cs, resultBeforeDepreciation, previousCarriedOver));
    DetailsAllocate(cs, resultBeforeDepreciation, previousCarriedOver);
  }

  /** The details together deduct the budget, or all of this year's amounts when the
      budget exceeds them: the part of the budget that comes from earlier carry-over is
      counted in the deductible total but in no detail. */
  lemma DeductedByDetails(cs: seq<ComponentInput>, resultBeforeDepreciation: real, previousCarriedOver: real)
    requires NonNegativeAmounts(cs) && previousCarriedOver >= 0.0
    ensures var r := DeductibleDepreciation(cs, resultBeforeDepreciation, previousCarriedOver);
      Sum(DeductedAmounts(r.details)) == Min(r.totalAnnual, r.totalDeductible)
  {
    DeductibleBudgetNonNegative(cs, resultBeforeDepreciation, previousCarriedOver);
    AllocateTotal(AnnualAmounts(cs), DeductibleBudget(cs, resultBeforeDepreciation, previousCarriedOver));
    DetailsAllocate(cs, resultBeforeDepreciation, previousCarriedOver);
  }

  /** Without a positive result before depreciation nothing is deducted: the whole
      available amount is carried, and every detail carries its whole amount. */
  lemma NoResultNoDeduction(cs: seq<ComponentInput>, resultBeforeDepreciation: real, previousCarriedOver: real)
    requires NonNegativeAmounts(cs) && previousCarriedOver >= 0.0
    requires resultBeforeDepreciation <= 0.0
    ensures var r := DeductibleDepreciation(cs, resultBeforeDepreciation, previousCarriedOver);
      && r.totalDeductible == 0.0
      && r.totalCarriedOver == r.totalAnnual + previousCarriedOver
      && forall i :: 0 <= i < |r.details| ==>
        r.details[i].deductibleAmount == 0.0 && r.details[i].carriedOver == r.details[i].annualAmount
  {
    DeductibleBudgetNonNegative(cs, resultBeforeDepreciation, previousCarriedOver);
    AllocateNothing(AnnualAmounts(cs));
    DetailsAllocate(cs, resultBeforeDepreciation, previousCarriedOver);
  }

  /** A result before depreciation covering everything available deducts it all: nothing
      is carried, in total or in any detail. */
  lemma FullDeduction(cs: seq<ComponentInput>, resultBeforeDepreciation: real, previousCarriedOver: real)
    requires NonNegativeAmounts(cs) && previousCarriedOver >= 0.0
    requires resultBeforeDepreciation >= Sum(AnnualAmounts(cs)) + previousCarriedOver
    ensures var r := DeductibleDepreciation(cs, resultBeforeDepreciation, previousCarriedOver);
      && r.totalDeductible == r.totalAnnual + previousCarriedOver
      && r.totalCarriedOver == 0.0
      && forall i :: 0 <= i < |r.details| ==>
        r.details[i].deductibleAmount == r.details[i].annualAmount && r.details[i].carriedOver == 0.0
  {
    DeductibleBudgetNonNegative(cs, resultBeforeDepreciation, previousCarriedOver);
    AllocateEverything(AnnualAmounts(cs), DeductibleBudget(cs, resultBeforeDepreciation, previousCarriedOver));
    DetailsAllocate(cs, resultBeforeDepreciation, previousCarriedOver);
  }

  /** Components are served in list order: once one is not fully deducted, every later
      one deducts nothing. */
  lemma DeductedInOrder(cs: seq<ComponentInput>, resultBeforeDepreciation: real, previousCarriedOver: real, i: int, j: int)
    requires NonNegativeAmounts(cs) && 0 <= i < j < |cs|
    requires var ds := DeductibleDepreciation(cs, resultBeforeDepreciation, previousCarriedOver).details;
      ds[i].deductibleAmount < ds[i].annualAmount
    ensures DeductibleDepreciation(cs, resultBeforeDepreciation, previousCarriedOver).details[j].deductibleAmount == 0.0
  {
    assert AllNonNegative(AnnualAmounts(cs));
    DetailsAllocate(cs, resultBeforeDepreciation, previousCarriedOver);
    AllocateGreedy(AnnualAmounts(cs), DeductibleBudget(cs, resultBeforeDepreciation, previousCarriedOver), i, j);
  }
}
