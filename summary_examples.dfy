/** Worked values of the fiscal summary and of the CERFA forms: the figures the
    repository's own test suite expects, derived here from the model's definitions. */
module SummaryExamples {
  import opened Calendar
  import opened Money
  import opened Optional
  import opened Allocation
  import opened Depreciation
  import opened Accounting
  import opened Cerfa
  import opened DepreciationExamples

  /** One revenue of 10600 in June. */
  function SampleRevenues(amount: real): seq<RevenueRecord> {
    [RevenueRecord(amount, Some(6))]
  }

  /** One fully deductible loan-interest expense on January 1, 2025. */
  function SampleExpenses(amount: real): seq<ExpenseRecord> {
    [ExpenseRecord(amount, Some(100.0), Some("loan_interest"), None, Some(CalendarDate(2025, 1, 1)), None)]
  }

  lemma SampleTotals(revenue: real, expenses: real)
    ensures TotalRevenue(SampleRevenues(revenue)) == revenue
    ensures TotalExpenses(SampleExpenses(expenses)) == expenses
  {
    assert SampleRevenues(revenue)[..0] == [];
    assert SampleExpenses(expenses)[..0] == [];
  }

  /** Revenue 10600 and expenses 6050 leave 4550, which the three components' 6120 of
      depreciation absorb entirely: the fiscal result is zero, the journal is balanced and
      not empty, and both sides of the balance sheet are positive. */
  lemma SampleSummaryCapped()
    ensures var s := ComputeFiscalSummary(1, 2025, SampleRevenues(10600.0), SampleExpenses(6050.0),
                                          DeductibleDepreciation(Sample(), 4550.0, 0.0), 180000.0, 0.0);
      && s.totalRevenue == 10600.0 && s.totalExpenses == 6050.0
      && s.resultBeforeDepreciation == 4550.0
      && s.fiscalResult == 0.0
      && s.totalAssets == 180000.0 && s.equity == 180000.0
      && |s.journal| > 0
      && DebitTotal(s.journal) == CreditTotal(s.journal)
  {
    var dep := DeductibleDepreciation(Sample(), 4550.0, 0.0);
    SampleTotals(10600.0, 6050.0);
    SampleCapped();
    SummaryJournal(1, 2025, SampleRevenues(10600.0), SampleExpenses(6050.0), dep, 180000.0, 0.0);
  }

  /** Revenue 20000 and expenses 1000 with a result of 19000: all 6120 are deducted and
      12880 remains taxable. */
  lemma SampleSummaryPositive()
    ensures var s := ComputeFiscalSummary(1, 2025, SampleRevenues(20000.0), SampleExpenses(1000.0),
                                          DeductibleDepreciation(Sample(), 19000.0, 0.0), 180000.0, 0.0);
      s.fiscalResult == 12880.0 && s.fiscalResult >= 0.0
  {
    SampleTotals(20000.0, 1000.0);
    SampleAmounts();
  }

  /** The structure and the furniture only. */
  function TwoComponents(): seq<ComponentInput> {
    Sample()[..2]
  }

  lemma TwoComponentsDeduction()
    ensures var r := DeductibleDepreciation(TwoComponents(), 4550.0, 0.0);
      && r.totalAnnual == 4320.0 && r.totalDeductible == 4320.0 && r.totalCarriedOver == 0.0
      && DeductedAmounts(r.details) == [2520.0, 1800.0]
  {
    SampleAmounts();
    var amounts := AnnualAmounts(TwoComponents());
    assert amounts == [2520.0, 1800.0];
    assert RemainingBefore(amounts, 4320.0, 1) == 1800.0;
  }

  function SampleProperty(): PropertyData {
    PropertyData(Present("Studio Oberkampf"), Present("42 rue Oberkampf, 75011 Paris"), Present(""), Absent)
  }

  function LiasseDepreciation(): DepreciationResult {
    DeductibleDepreciation(TwoComponents(), 4550.0, 0.0)
  }

  /** A summary like the one behind the test suite's liasse: the two components with a
      result of 4550, from any revenues totalling 10600 and expenses totalling 6050 (the
      test's single revenue and single expense among them, by SampleTotals). */
  function LiasseSummary(revenues: seq<RevenueRecord>, expenses: seq<ExpenseRecord>): FiscalSummary {
    ComputeFiscalSummary(1, 2025, revenues, expenses, LiasseDepreciation(), 180000.0, 0.0)
  }

  predicate LiasseTotals(revenues: seq<RevenueRecord>, expenses: seq<ExpenseRecord>) {
    TotalRevenue(revenues) == 10600.0 && TotalExpenses(expenses) == 6050.0
  }

  lemma LiasseSummaryValues(revenues: seq<RevenueRecord>, expenses: seq<ExpenseRecord>)
    requires LiasseTotals(revenues, expenses)
    ensures LiasseSummary(revenues, expenses).fiscalResult == 230.0
    ensures LiasseSummary(revenues, expenses).totalDepreciationDeductible == 4320.0
    ensures LiasseSummary(revenues, expenses).totalAssets == 180230.0
    ensures LiasseSummary(revenues, expenses).totalLiabilitiesEquity == 180000.0
  {
    TwoComponentsDeduction();
  }

  /** Form 2031 declares a profit of 230 and no deficit, the figure form 2033-B reports. */
  lemma SampleLiasseResult(revenues: seq<RevenueRecord>, expenses: seq<ExpenseRecord>)
    requires LiasseTotals(revenues, expenses)
    ensures var f := Build2031(LiasseSummary(revenues, expenses), SampleProperty());
      && f.raisonSociale == Some("Studio Oberkampf")
      && f.resultatComptable == 230.0 && f.benefice == 230.0 && f.deficit == 0.0
      && Build2033B(LiasseSummary(revenues, expenses)).resultatNet == f.resultatComptable
  {
    LiasseSummaryValues(revenues, expenses);
  }

  /** Form 2033-C has a line of 2520 and a line of 1800, which add up to its total. */
  lemma SampleLiasseLines(revenues: seq<RevenueRecord>, expenses: seq<ExpenseRecord>)
    requires LiasseTotals(revenues, expenses)
    ensures var f := Build2033C(LiasseSummary(revenues, expenses), LiasseDepreciation().details, SampleProperty());
      && LineDotations(f.lines) == [2520.0, 1800.0]
      && Sum(LineDotations(f.lines)) == f.totalDotations == 4320.0
  {
    LiasseSummaryValues(revenues, expenses);
    TwoComponentsDeduction();
    AssetLinesDotations(LiasseDepreciation().details);
    assert Sum([2520.0, 1800.0]) == 4320.0;
  }

  /** Both sides of the balance sheet of form 2033-A are positive. */
  lemma SampleLiasseBalance(revenues: seq<RevenueRecord>, expenses: seq<ExpenseRecord>)
    requires LiasseTotals(revenues, expenses)
    ensures Build2033A(LiasseSummary(revenues, expenses)).totalActif == 180230.0
    ensures Build2033A(LiasseSummary(revenues, expenses)).totalPassif == 180000.0
  {
    LiasseSummaryValues(revenues, expenses);
  }

  /** The test suite's own revenue and expense lists have those totals. */
  lemma SampleListsHaveLiasseTotals()
    ensures LiasseTotals(SampleRevenues(10600.0), SampleExpenses(6050.0))
  {
    SampleTotals(10600.0, 6050.0);
  }
}
