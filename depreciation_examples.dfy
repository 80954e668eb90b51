/** Worked values of the depreciation engine: the figures the repository's own test
    suite expects, derived here from the model's definitions. */
module DepreciationExamples {
  import opened Calendar
  import opened Money
  import opened Allocation
  import opened Depreciation

  /** An asset bought in an earlier year is held the whole year. */
  lemma ProrataEarlierYear()
    ensures Prorata(CalendarDate(2020, 1, 1), 2025) == 1.0
  {
  }

  /** Held from July 1: 184 days, both ends included. */
  lemma ProrataJulyFirst()
    ensures Prorata(CalendarDate(2025, 7, 1), 2025) == 184.0 / 365.0
  {
  }

  /** Held from December 31: one day. */
  lemma ProrataLastDay()
    ensures Prorata(CalendarDate(2025, 12, 31), 2025) == 1.0 / 365.0
  {
  }

  /** 126000 over 50 years, in service since 2022: 2520.00 in 2025. */
  lemma AnnualStructure()
    ensures AnnualDepreciationAmount(126000.0, 50, CalendarDate(2022, 1, 1), 2025) == 2520.0
  {
    AnnualAmountInLaterYear(126000.0, 50, CalendarDate(2022, 1, 1), 2025);
  }

  /** The same asset started on July 1, 2022: 2520 * 184 / 365 = 1270.356..., so 1270.36. */
  lemma AnnualStructureFirstYear()
    ensures AnnualDepreciationAmount(126000.0, 50, CalendarDate(2022, 7, 1), 2022) == 1270.36
  {
    assert Prorata(CalendarDate(2022, 7, 1), 2022) == 184.0 / 365.0;
    assert FullAnnual(126000.0, 50) == 2520.0;
    assert RoundedProduct(2520.0, 184.0 / 365.0) == 1270.36;
  }

  /** 18000 over 10 years from 2010: the plan ended in 2019. */
  lemma AnnualFullyDepreciated()
    ensures AnnualDepreciationAmount(18000.0, 10, CalendarDate(2010, 1, 1), 2025) == 0.0
  {
  }

  /** A zero value depreciates nothing. */
  lemma AnnualZeroValue()
    ensures AnnualDepreciationAmount(0.0, 50, CalendarDate(2022, 1, 1), 2025) == 0.0
  {
  }

  /** A fiscal year before the start year yields a negative amount: 3650 over 10 years
      started on January 2, 2026 gives 365 * (-1/365) = -1.00 for 2025. */
  lemma AnnualBeforeStart()
    ensures AnnualDepreciationAmount(3650.0, 10, CalendarDate(2026, 1, 2), 2025) == -1.0
  {
    assert Prorata(CalendarDate(2026, 1, 2), 2025) == -1.0 / 365.0;
    assert FullAnnual(3650.0, 10) == 365.0;
    assert RoundedProduct(365.0, -1.0 / 365.0) == -1.0;
  }

  /** The three components of the test suite, all started on June 15, 2022. */
  function Sample(): seq<ComponentInput> {
    [ ComponentInput("structure", "Structure", 126000.0, 50, CalendarDate(2022, 6, 15), 2025),
      ComponentInput("furniture", "Mobilier", 18000.0, 10, CalendarDate(2022, 6, 15), 2025),
      ComponentInput("acquisition_costs", "Frais d'acquisition", 9000.0, 5, CalendarDate(2022, 6, 15), 2025) ]
  }

  lemma SampleAmounts()
    ensures AnnualAmounts(Sample()) == [2520.0, 1800.0, 1800.0]
    ensures Sum(AnnualAmounts(Sample())) == 6120.0
  {
    var cs := Sample();
    AnnualAmountInLaterYear(cs[0].value, cs[0].durationYears, cs[0].startDate, 2025);
    AnnualAmountInLaterYear(cs[1].value, cs[1].durationYears, cs[1].startDate, 2025);
    AnnualAmountInLaterYear(cs[2].value, cs[2].durationYears, cs[2].startDate, 2025);
    assert FullAnnual(126000.0, 50) == 2520.0;
    assert FullAnnual(18000.0, 10) == 1800.0;
    assert FullAnnual(9000.0, 5) == 1800.0;
  }

  /** A result of 4550 caps the deduction: the structure and the furniture are deducted in
      full, the acquisition costs for 230, and 1570 is carried. */
  lemma SampleCapped()
    ensures var r := DeductibleDepreciation(Sample(), 4550.0, 0.0);
      && r.totalAnnual == 6120.0
      && r.totalDeductible == 4550.0
      && r.totalCarriedOver == 1570.0
      && DeductedAmounts(r.details) == [2520.0, 1800.0, 230.0]
      && CarriedAmounts(r.details) == [0.0, 0.0, 1570.0]
  {
    SampleAmounts();
    var amounts := AnnualAmounts(Sample());
    assert RemainingBefore(amounts, 4550.0, 1) == 2030.0;
    assert RemainingBefore(amounts, 4550.0, 2) == 230.0;
  }

  /** A result of 10000 covers everything: nothing is carried. */
  lemma SampleCovered()
    ensures var r := DeductibleDepreciation(Sample(), 10000.0, 0.0);
      r.totalDeductible == r.totalAnnual && r.totalCarriedOver == 0.0
  {
    SampleAmounts();
  }

  /** With no result, or a loss, nothing is deducted and everything is carried. */
  lemma SampleNoResult(resultBeforeDepreciation: real)
    requires resultBeforeDepreciation <= 0.0
    ensures var r := DeductibleDepreciation(Sample(), resultBeforeDepreciation, 0.0);
      r.totalDeductible == 0.0 && r.totalCarriedOver == r.totalAnnual
  {
    SampleAmounts();
  }

  /** An earlier carry-over of 500 with a result of 2000: 2000 is deducted and
      6120 + 500 - 2000 = 4620 is carried, while the details deduct 2000 of this
      year's amounts. */
  lemma SampleWithCarryOver()
    ensures var r := DeductibleDepreciation(Sample(), 2000.0, 500.0);
      && r.totalDeductible == 2000.0
      && r.totalCarriedOver == 4620.0
      && DeductedAmounts(r.details) == [2000.0, 0.0, 0.0]
  {
    SampleAmounts();
    var amounts := AnnualAmounts(Sample());
    assert RemainingBefore(amounts, 2000.0, 1) == 0.0;
    assert RemainingBefore(amounts, 2000.0, 2) == 0.0;
  }
}
