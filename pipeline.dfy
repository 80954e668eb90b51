/** The fiscal-summary route as a composition: the stored records are turned into the
    engine's inputs, the result before depreciation caps the deductible depreciation,
    and the summary is built from both. There is no earlier carry-over and no earlier
    cumulated depreciation on this route. */
module Pipeline {
  import opened Calendar
  import opened Money
  import opened Optional
  import opened Allocation
  import opened Depreciation
  import opened Accounting
  import opened Cerfa

  /** A stored revenue; its month column is never null. */
  datatype RevenueRow = RevenueRow(amount: real, month: int)

  /** A stored expense; the deductible percentage is always set. */
  datatype ExpenseRow = ExpenseRow(amount: real, deductiblePct: real, category: string, description: string, date: CalendarDate)

  /** A stored depreciation plan of one component. */
  datatype PlanRow = PlanRow(component: string, componentLabel: string, value: real, durationYears: int, startDate: Date)

  function RevenueDict(r: RevenueRow): RevenueRecord {
    RevenueRecord(r.amount, Some(r.month))
  }

  function ExpenseDict(e: ExpenseRow): ExpenseRecord {
    ExpenseRecord(e.amount, Some(e.deductiblePct), Some(e.category), Some(e.description), Some(e.date), None)
  }

  /** The revenue records handed to the summary, one per row, in row order. */
  function RevenueDicts(rows: seq<RevenueRow>): (rs: seq<RevenueRecord>)
    ensures |rs| == |rows|
    ensures forall i :: 0 <= i < |rows| ==> rs[i] == RevenueDict(rows[i])
    ensures forall i :: 0 <= i < |rows| ==> rs[i].amount == rows[i].amount && rs[i].month == Some(rows[i].month)
  {
    seq(|rows|, i requires 0 <= i < |rows| => RevenueDict(rows[i]))
  }

  /** The expense records handed to the summary, one per row, in row order. */
  function ExpenseDicts(rows: seq<ExpenseRow>): (es: seq<ExpenseRecord>)
    ensures |es| == |rows|
    ensures forall i :: 0 <= i < |rows| ==> es[i] == ExpenseDict(rows[i])
  {
    seq(|rows|, i requires 0 <= i < |rows| => ExpenseDict(rows[i]))
  }

  /** The engine's components: one per plan, all for the requested year. */
  function Components(plans: seq<PlanRow>, year: int): (cs: seq<ComponentInput>)
    ensures |cs| == |plans|
    ensures forall i :: 0 <= i < |plans| ==>
      cs[i] == ComponentInput(plans[i].component, plans[i].componentLabel, plans[i].value,
                              plans[i].durationYears, plans[i].startDate, year)
  {
    seq(|plans|, i requires 0 <= i < |plans| =>
      ComponentInput(plans[i].component, plans[i].componentLabel, plans[i].value,
                     plans[i].durationYears, plans[i].startDate, year))
  }

  /** The route's own revenue total, over the stored rows. */
  function RouteRevenue(rows: seq<RevenueRow>): real {
    if rows == [] then 0.0 else RouteRevenue(rows[..|rows| - 1]) + rows[|rows| - 1].amount
  }

  /** The route's own expense total: each amount scaled by its deductible percentage. */
  function RouteExpenses(rows: seq<ExpenseRow>): real {
    if rows == [] then 0.0
    else
      var e := rows[|rows| - 1];
      RouteExpenses(rows[..|rows| - 1]) + e.amount * e.deductiblePct / 100.0
  }

  /** The result before depreciation the route hands to the depreciation engine. */
  function RouteResultBeforeDepreciation(revenues: seq<RevenueRow>, expenses: seq<ExpenseRow>): real {
    RouteRevenue(revenues) - RouteExpenses(expenses)
  }

  function RouteDepreciation(revenues: seq<RevenueRow>, expenses: seq<ExpenseRow>, plans: seq<PlanRow>, year: int): DepreciationResult {
    DeductibleDepreciation(Components(plans, year), RouteResultBeforeDepreciation(revenues, expenses), 0.0)
  }

  /** The summary the route reports. */
  function RouteSummary(
    propertyId: int, year: int, revenues: seq<RevenueRow>, expenses: seq<ExpenseRow>,
    plans: seq<PlanRow>, totalPrice: real): FiscalSummary
  {
    ComputeFiscalSummary(propertyId, year, RevenueDicts(revenues), ExpenseDicts(expenses),
      RouteDepreciation(revenues, expenses, plans, year), totalPrice, 0.0)
  }

  /** The property data the liasse routes hand to the form builders: the name is always
      set, the address and the SIRET number are nullable columns put under their keys as
      they are, and no owner name is passed. The acquisition date and the total price are
      passed too but read by no form, so they are left out. */
  function RouteProperty(name: string, address: Option<string>, siret: Option<string>): PropertyData {
    PropertyData(Present(name), Stored(address), Stored(siret), Absent)
  }

  /** Every plan has started by the requested year. */
  predicate StartedBy(plans: seq<PlanRow>, year: int) {
    forall i :: 0 <= i < |plans| ==> plans[i].startDate.year <= year
  }

  // ---------------------------------------------------------------------------
  // Properties
  // ---------------------------------------------------------------------------

  lemma {:induction false} RouteRevenueAgrees(rows: seq<RevenueRow>)
    ensures RouteRevenue(rows) == TotalRevenue(RevenueDicts(rows))
  {
    if rows != [] {
      var n := |rows|;
      RouteRevenueAgrees(rows[..n - 1]);
      assert RevenueDicts(rows)[..n - 1] == RevenueDicts(rows[..n - 1]);
    }
  }

  lemma {:induction false} RouteExpensesAgree(rows: seq<ExpenseRow>)
    ensures RouteExpenses(rows) == TotalExpenses(ExpenseDicts(rows))
  {
    if rows != [] {
      var n := |rows|;
      RouteExpensesAgree(rows[..n - 1]);
      assert ExpenseDicts(rows)[..n - 1] == ExpenseDicts(rows[..n - 1]);
    }
  }

  /** The route computes the totals twice, once for the engine and once inside the
      summary; both agree, so the depreciation is capped by the result the summary reports. */
  lemma RouteTotalsAgree(
    propertyId: int, year: int, revenues: seq<RevenueRow>, expenses: seq<ExpenseRow>,
    plans: seq<PlanRow>, totalPrice: real)
    ensures var s := RouteSummary(propertyId, year, revenues, expenses, plans, totalPrice);
      && s.totalRevenue == RouteRevenue(revenues)
      && s.totalExpenses == RouteExpenses(expenses)
      && s.resultBeforeDepreciation == RouteResultBeforeDepreciation(revenues, expenses)
  {
    RouteRevenueAgrees(revenues);
    RouteExpensesAgree(expenses);
  }

  lemma StartedPlansNonNegative(plans: seq<PlanRow>, year: int)
    requires StartedBy(plans, year)
    ensures NonNegativeAmounts(Components(plans, year))
  {
    StartedComponentsNonNegative(Components(plans, year));
  }

  /** The fiscal result: a loss is reported as it is, and a profit is lowered by the year's
      depreciation but never below zero. The part of the annual depreciation the profit
      cannot absorb is carried over. */
  lemma RouteFiscalResult(
    propertyId: int, year: int, revenues: seq<RevenueRow>, expenses: seq<ExpenseRow>,
    plans: seq<PlanRow>, totalPrice: real)
    requires StartedBy(plans, year)
    ensures var s := RouteSummary(propertyId, year, revenues, expenses, plans, totalPrice);
      var rbd := s.resultBeforeDepreciation;
      && s.totalDepreciationAnnual >= 0.0
      && s.fiscalResult == (if rbd <= 0.0 then rbd else Max(0.0, rbd - s.totalDepreciationAnnual))
      && (rbd >= 0.0 ==> s.fiscalResult >= 0.0)
      && (rbd >= 0.0 ==> (s.fiscalResult == 0.0 <==> s.totalDepreciationAnnual >= rbd))
      && s.totalDepreciationCarried == Max(0.0, s.totalDepreciationAnnual - Max(0.0, rbd))
  {
    var cs := Components(plans, year);
    var rbd := RouteResultBeforeDepreciation(revenues, expenses);
    RouteTotalsAgree(propertyId, year, revenues, expenses, plans, totalPrice);
    StartedPlansNonNegative(plans, year);
    StartedComponentsNonNegative(cs);
    SumNonNegative(AnnualAmounts(cs));
    DeductibleTotals(cs, rbd, 0.0);
  }

  /** With every deductible amount non-negative, the positive details carry the whole
      allowance, which is the sum of the deducted amounts. */
  lemma {:induction false} PositiveAllowance(ds: seq<DepreciationDetail>)
    requires forall k :: 0 <= k < |ds| ==> ds[k].deductibleAmount >= 0.0
    ensures AllowanceTotal(PositiveDetails(ds)) == Sum(DeductedAmounts(ds))
  {
    if ds != [] {
      var n := |ds|;
      var init := ds[..n - 1];
      PositiveAllowance(init);
      var p := PositiveDetails(init);
      if ds[n - 1].deductibleAmount > 0.0 {
        assert (p + [ds[n - 1]])[..|p|] == p;
      } else {
        assert p + [] == p;
      }
      assert DeductedAmounts(ds)[..n - 1] == DeductedAmounts(init);
      SumPrefixStep(DeductedAmounts(ds), n - 1);
      assert DeductedAmounts(ds)[..n] == DeductedAmounts(ds);
    }
  }

  /** The journal balances, and its debit total is exactly the revenue, the expenses and
      the deductible depreciation the summary reports. */
  lemma RouteJournal(
    propertyId: int, year: int, revenues: seq<RevenueRow>, expenses: seq<ExpenseRow>,
    plans: seq<PlanRow>, totalPrice: real)
    requires StartedBy(plans, year)
    ensures var s := RouteSummary(propertyId, year, revenues, expenses, plans, totalPrice);
      && DebitTotal(s.journal) == CreditTotal(s.journal)
      && DebitTotal(s.journal) == s.totalRevenue + s.totalExpenses + s.totalDepreciationDeductible
  {
    var cs := Components(plans, year);
    var rbd := RouteResultBeforeDepreciation(revenues, expenses);
    var dep := RouteDepreciation(revenues, expenses, plans, year);
    StartedPlansNonNegative(plans, year);
    SummaryJournal(propertyId, year, RevenueDicts(revenues), ExpenseDicts(expenses), dep, totalPrice, 0.0);
    DeductibleBounds(cs, rbd, 0.0);
    PositiveAllowance(dep.details);
    DeductedByDetails(cs, rbd, 0.0);
    DeductibleTotals(cs, rbd, 0.0);
  }

  /** On the liasse routes, form 2031 carries the stored name, address and SIRET number
      as they are: a property without an address or a SIRET number gets `None` on the
      form, not the builder's empty default. Form 2033-F names the default owner. */
  lemma RouteIdentification(summary: FiscalSummary, name: string, address: Option<string>, siret: Option<string>)
    ensures var f := Build2031(summary, RouteProperty(name, address, siret));
      && f.raisonSociale == Some(name)
      && f.adresse == address && f.siret == siret
    ensures Build2033F(summary, RouteProperty(name, address, siret)).associes[0].nom == Some(DefaultOwner)
  {
  }
}
