/** The accounting engine: journal entries in paired debit/credit form, and the fiscal
    summary of one property for one fiscal year (totals, fiscal result and a simplified
    balance sheet). */
module Accounting {
  import opened Calendar
  import opened Money
  import opened Optional
  import opened Depreciation

  // ---------------------------------------------------------------------------
  // Journal
  // ---------------------------------------------------------------------------

  /** One line of the journal; `labelText` is its label (`label` is a Dafny keyword). The
      reference is always left empty. */
  datatype JournalEntry = JournalEntry(
    date: CalendarDate,
    account: string,
    labelText: string,
    debit: real,
    credit: real,
    reference: string)

  /** A revenue as the journal builder receives it, with its label. */
  datatype JournalRevenue = JournalRevenue(date: CalendarDate, amount: real, labelText: string)

  /** An expense as the journal builder receives it, with its label; the account and the deductible
      percentage may be absent. */
  datatype JournalExpense = JournalExpense(
    date: CalendarDate,
    amount: real,
    labelText: string,
    account: Option<string>,
    deductiblePct: Option<real>)

  const RentPrefix: string := "Loyer \U{2014} "
  const AllowancePrefix: string := "Dotation amortissement \U{2014} "
  const DepreciationPrefix: string := "Amortissement \U{2014} "

  /** The deductible part of an expense: its amount scaled by its percentage, 100 when absent. */
  function NetAmount(amount: real, deductiblePct: Option<real>): real {
    amount * deductiblePct.GetOr(100.0) / 100.0
  }

  function ExpenseNet(e: JournalExpense): real {
    NetAmount(e.amount, e.deductiblePct)
  }

  /** A revenue: debit the customer account 411, credit the services account 706. */
  function RevenuePair(r: JournalRevenue): seq<JournalEntry> {
    [ JournalEntry(r.date, "411", RentPrefix + r.labelText, r.amount, 0.0, ""),
      JournalEntry(r.date, "706", RentPrefix + r.labelText, 0.0, r.amount, "") ]
  }

  /** An expense: debit its account (627 when absent), credit the supplier account 401. */
  function ExpensePair(e: JournalExpense): seq<JournalEntry> {
    var net := ExpenseNet(e);
    [ JournalEntry(e.date, e.account.GetOr("627"), e.labelText, net, 0.0, ""),
      JournalEntry(e.date, "401", e.labelText, 0.0, net, "") ]
  }

  /** A depreciation allowance: debit 681, credit 281, on December 31 of the year. */
  function AllowancePair(d: DepreciationDetail, year: int): seq<JournalEntry> {
    [ JournalEntry(YearEnd(year), "681", AllowancePrefix + d.componentLabel, d.deductibleAmount, 0.0, ""),
      JournalEntry(YearEnd(year), "281", DepreciationPrefix + d.componentLabel, 0.0, d.deductibleAmount, "") ]
  }

  function RevenueEntries(rs: seq<JournalRevenue>): seq<JournalEntry> {
    if rs == [] then [] else RevenueEntries(rs[..|rs| - 1]) + RevenuePair(rs[|rs| - 1])
  }

  function ExpenseEntries(es: seq<JournalExpense>): seq<JournalEntry> {
    if es == [] then [] else ExpenseEntries(es[..|es| - 1]) + ExpensePair(es[|es| - 1])
  }

  /** Allowances are only journalised for details with a positive deductible amount. */
  function AllowanceEntries(ds: seq<DepreciationDetail>, year: int): seq<JournalEntry> {
    if ds == [] then []
    else
      var d := ds[|ds| - 1];
      AllowanceEntries(ds[..|ds| - 1], year) + (if d.deductibleAmount > 0.0 then AllowancePair(d, year) else [])
  }

  /** What `build_journal` returns: revenues, then expenses, then allowances, each in
      input order. */
  function Journal(rs: seq<JournalRevenue>, es: seq<JournalExpense>, ds: seq<DepreciationDetail>, year: int): seq<JournalEntry> {
    RevenueEntries(rs) + ExpenseEntries(es) + AllowanceEntries(ds, year)
  }

  function DebitTotal(entries: seq<JournalEntry>): real {
    if entries == [] then 0.0 else DebitTotal(entries[..|entries| - 1]) + entries[|entries| - 1].debit
  }

  function CreditTotal(entries: seq<JournalEntry>): real {
    if entries == [] then 0.0 else CreditTotal(entries[..|entries| - 1]) + entries[|entries| - 1].credit
  }

  function RevenueTotal(rs: seq<JournalRevenue>): real {
    if rs == [] then 0.0 else RevenueTotal(rs[..|rs| - 1]) + rs[|rs| - 1].amount
  }

  function ExpenseTotal(es: seq<JournalExpense>): real {
    if es == [] then 0.0 else ExpenseTotal(es[..|es| - 1]) + ExpenseNet(es[|es| - 1])
  }

  /** The details with a positive deductible amount, in order. */
  function PositiveDetails(ds: seq<DepreciationDetail>): seq<DepreciationDetail> {
    if ds == [] then []
    else
      var d := ds[|ds| - 1];
      PositiveDetails(ds[..|ds| - 1]) + (if d.deductibleAmount > 0.0 then [d] else [])
  }

  /** PositiveDetails keeps exactly the details with a positive deductible amount. */
  lemma {:induction false} PositiveDetailsMembers(ds: seq<DepreciationDetail>)
    ensures |PositiveDetails(ds)| <= |ds|
    ensures forall d :: d in PositiveDetails(ds) <==> d in ds && d.deductibleAmount > 0.0
  {
    if ds != [] {
      PositiveDetailsMembers(ds[..|ds| - 1]);
      assert ds == ds[..|ds| - 1] + [ds[|ds| - 1]];
    }
  }

  function AllowanceTotal(ds: seq<DepreciationDetail>): real {
    if ds == [] then 0.0 else AllowanceTotal(ds[..|ds| - 1]) + ds[|ds| - 1].deductibleAmount
  }

  lemma {:induction false} TotalsAppend(a: seq<JournalEntry>, b: seq<JournalEntry>)
    ensures DebitTotal(a + b) == DebitTotal(a) + DebitTotal(b)
    ensures CreditTotal(a + b) == CreditTotal(a) + CreditTotal(b)
    decreases |b|
  {
    if b == [] {
      assert a + b == a;
    } else {
      assert (a + b)[..|a + b| - 1] == a + b[..|b| - 1];
      TotalsAppend(a, b[..|b| - 1]);
    }
  }

  lemma PairTotals(p: seq<JournalEntry>)
    requires |p| == 2
    ensures DebitTotal(p) == p[0].debit + p[1].debit
    ensures CreditTotal(p) == p[0].credit + p[1].credit
  {
    var q := p[..1];
    assert q[..0] == [];
    assert DebitTotal(q) == p[0].debit && CreditTotal(q) == p[0].credit;
    assert DebitTotal(p) == DebitTotal(q) + p[1].debit;
    assert CreditTotal(p) == CreditTotal(q) + p[1].credit;
  }

  /** The revenue entries debit and credit the revenue total each. */
  lemma {:induction false} RevenueEntriesBalance(rs: seq<JournalRevenue>)
    ensures DebitTotal(RevenueEntries(rs)) == RevenueTotal(rs)
    ensures CreditTotal(RevenueEntries(rs)) == RevenueTotal(rs)
  {
    if rs != [] {
      RevenueEntriesBalance(rs[..|rs| - 1]);
      TotalsAppend(RevenueEntries(rs[..|rs| - 1]), RevenuePair(rs[|rs| - 1]));
      PairTotals(RevenuePair(rs[|rs| - 1]));
    }
  }

  /** The expense entries debit and credit the total of the net amounts each. */
  lemma {:induction false} ExpenseEntriesBalance(es: seq<JournalExpense>)
    ensures DebitTotal(ExpenseEntries(es)) == ExpenseTotal(es)
    ensures CreditTotal(ExpenseEntries(es)) == ExpenseTotal(es)
  {
    if es != [] {
      ExpenseEntriesBalance(es[..|es| - 1]);
      TotalsAppend(ExpenseEntries(es[..|es| - 1]), ExpensePair(es[|es| - 1]));
      PairTotals(ExpensePair(es[|es| - 1]));
    }
  }

  /** The allowance entries debit and credit the total of the positive deductible amounts each. */
  lemma {:induction false} AllowanceEntriesBalance(ds: seq<DepreciationDetail>, year: int)
    ensures DebitTotal(AllowanceEntries(ds, year)) == AllowanceTotal(PositiveDetails(ds))
    ensures CreditTotal(AllowanceEntries(ds, year)) == AllowanceTotal(PositiveDetails(ds))
  {
    if ds != [] {
      var init, d := ds[..|ds| - 1], ds[|ds| - 1];
      AllowanceEntriesBalance(init, year);
      if d.deductibleAmount > 0.0 {
        AllowanceStepPositive(ds, year);
      } else {
        AllowanceStepSkipped(ds, year);
      }
    }
  }

  lemma AllowanceStepPositive(ds: seq<DepreciationDetail>, year: int)
    requires ds != [] && ds[|ds| - 1].deductibleAmount > 0.0
    ensures DebitTotal(AllowanceEntries(ds, year)) ==
      DebitTotal(AllowanceEntries(ds[..|ds| - 1], year)) + ds[|ds| - 1].deductibleAmount
    ensures CreditTotal(AllowanceEntries(ds, year)) ==
      CreditTotal(AllowanceEntries(ds[..|ds| - 1], year)) + ds[|ds| - 1].deductibleAmount
    ensures AllowanceTotal(PositiveDetails(ds)) ==
      AllowanceTotal(PositiveDetails(ds[..|ds| - 1])) + ds[|ds| - 1].deductibleAmount
  {
    var init, d := ds[..|ds| - 1], ds[|ds| - 1];
    TotalsAppend(AllowanceEntries(init, year), AllowancePair(d, year));
    PairTotals(AllowancePair(d, year));
    var ps := PositiveDetails(init) + [d];
    assert ps[..|ps| - 1] == PositiveDetails(init);
  }

  lemma AllowanceStepSkipped(ds: seq<DepreciationDetail>, year: int)
    requires ds != [] && ds[|ds| - 1].deductibleAmount <= 0.0
    ensures AllowanceEntries(ds, year) == AllowanceEntries(ds[..|ds| - 1], year)
    ensures PositiveDetails(ds) == PositiveDetails(ds[..|ds| - 1])
  {
    assert AllowanceEntries(ds, year) == AllowanceEntries(ds[..|ds| - 1], year) + [];
    assert PositiveDetails(ds) == PositiveDetails(ds[..|ds| - 1]) + [];
  }

  /** The journal balances: total debit and total credit both equal the revenues plus the
      net expenses plus the positive allowances. */
  lemma JournalBalances(rs: seq<JournalRevenue>, es: seq<JournalExpense>, ds: seq<DepreciationDetail>, year: int)
    ensures DebitTotal(Journal(rs, es, ds, year)) == CreditTotal(Journal(rs, es, ds, year))
    ensures DebitTotal(Journal(rs, es, ds, year)) ==
      RevenueTotal(rs) + ExpenseTotal(es) + AllowanceTotal(PositiveDetails(ds))
  {
    RevenueEntriesBalance(rs);
    ExpenseEntriesBalance(es);
    AllowanceEntriesBalance(ds, year);
    TotalsAppend(RevenueEntries(rs), ExpenseEntries(es));
    TotalsAppend(RevenueEntries(rs) + ExpenseEntries(es), AllowanceEntries(ds, year));
  }

  /** Each revenue yields two entries, in input order: a 411 debit and a 706 credit of its amount. */
  lemma {:induction false} RevenueEntriesAt(rs: seq<JournalRevenue>)
    ensures |RevenueEntries(rs)| == 2 * |rs|
    ensures forall i :: 0 <= i < |rs| ==>
      && RevenueEntries(rs)[2 * i] == JournalEntry(rs[i].date, "411", RentPrefix + rs[i].labelText, rs[i].amount, 0.0, "")
      && RevenueEntries(rs)[2 * i + 1] == JournalEntry(rs[i].date, "706", RentPrefix + rs[i].labelText, 0.0, rs[i].amount, "")
  {
    if rs != [] {
      RevenueEntriesAt(rs[..|rs| - 1]);
    }
  }

  /** Each expense yields two entries, in input order: a debit of its net amount to its
      account (627 when absent) and a 401 credit of the same amount. */
  lemma {:induction false} ExpenseEntriesAt(es: seq<JournalExpense>)
    ensures |ExpenseEntries(es)| == 2 * |es|
    ensures forall i :: 0 <= i < |es| ==>
      && ExpenseEntries(es)[2 * i] == JournalEntry(es[i].date, es[i].account.GetOr("627"), es[i].labelText, ExpenseNet(es[i]), 0.0, "")
      && ExpenseEntries(es)[2 * i + 1] == JournalEntry(es[i].date, "401", es[i].labelText, 0.0, ExpenseNet(es[i]), "")
  {
    if es != [] {
      ExpenseEntriesAt(es[..|es| - 1]);
    }
  }

  /** The allowance entries are the 681 debit / 281 credit pairs of the details with a
      positive deductible amount, in order, dated December 31 of the year. */
  lemma {:induction false} AllowanceEntriesAt(ds: seq<DepreciationDetail>, year: int)
    ensures var ps := PositiveDetails(ds);
      && |AllowanceEntries(ds, year)| == 2 * |ps|
      && forall k :: 0 <= k < |ps| ==>
        && AllowanceEntries(ds, year)[2 * k] ==
             JournalEntry(YearEnd(year), "681", AllowancePrefix + ps[k].componentLabel, ps[k].deductibleAmount, 0.0, "")
        && AllowanceEntries(ds, year)[2 * k + 1] ==
             JournalEntry(YearEnd(year), "281", DepreciationPrefix + ps[k].componentLabel, 0.0, ps[k].deductibleAmount, "")
  {
    if ds != [] {
      AllowanceEntriesAt(ds[..|ds| - 1], year);
    }
  }

  /** The journal has two entries per revenue, per expense and per positive allowance. */
  lemma JournalLength(rs: seq<JournalRevenue>, es: seq<JournalExpense>, ds: seq<DepreciationDetail>, year: int)
    ensures |Journal(rs, es, ds, year)| == 2 * |rs| + 2 * |es| + 2 * |PositiveDetails(ds)|
  {
    RevenueEntriesAt(rs);
    ExpenseEntriesAt(es);
    AllowanceEntriesAt(ds, year);
  }

  // ---------------------------------------------------------------------------
  // Fiscal summary
  // ---------------------------------------------------------------------------

  /** A revenue record handed to the summary; the month may be absent. */
  datatype RevenueRecord = RevenueRecord(amount: real, month: Option<int>)

  /** An expense record handed to the summary; every key but the amount may be absent. */
  datatype ExpenseRecord = ExpenseRecord(
    amount: real,
    deductiblePct: Option<real>,
    category: Option<string>,
    description: Option<string>,
    date: Option<CalendarDate>,
    account: Option<string>)

  /** The summary of one property for one fiscal year. `liabilities` is never computed. */
  datatype FiscalSummary = FiscalSummary(
    propertyId: int,
    year: int,
    totalRevenue: real,
    totalExpenses: real,
    totalDepreciationAnnual: real,
    totalDepreciationDeductible: real,
    totalDepreciationCarried: real,
    resultBeforeDepreciation: real,
    fiscalResult: real,
    assetGross: real,
    assetDepreciationCumul: real,
    assetNet: real,
    cash: real,
    totalAssets: real,
    equity: real,
    liabilities: real,
    totalLiabilitiesEquity: real,
    journal: seq<JournalEntry>)

  function DigitChar(d: int): char
    requires 0 <= d < 10
  {
    ('0' as int + d) as char
  }

  function NatToString(n: nat): string {
    if n < 10 then [DigitChar(n)] else NatToString(n / 10) + [DigitChar(n % 10)]
  }

  /** Python's `str` on an integer. */
  function IntToString(n: int): string {
    if n < 0 then "-" + NatToString(-n) else NatToString(n)
  }

  function TotalRevenue(revenues: seq<RevenueRecord>): real {
    if revenues == [] then 0.0 else TotalRevenue(revenues[..|revenues| - 1]) + revenues[|revenues| - 1].amount
  }

  function ExpenseRecordNet(e: ExpenseRecord): real {
    NetAmount(e.amount, e.deductiblePct)
  }

  function TotalExpenses(expenses: seq<ExpenseRecord>): real {
    if expenses == [] then 0.0 else TotalExpenses(expenses[..|expenses| - 1]) + ExpenseRecordNet(expenses[|expenses| - 1])
  }

  /** The journal line of a revenue: dated the first of its month (December when absent),
      labelled with its month (1 when absent). */
  function RevenueLine(r: RevenueRecord, year: int): JournalRevenue {
    JournalRevenue(CalendarDate(year, r.month.GetOr(12), 1), r.amount, "Mois " + IntToString(r.month.GetOr(1)))
  }

  /** The journal line of an expense: dated December 31 when undated, labelled with its
      description, else its category, else nothing; the account and the percentage are
      always filled in. */
  function ExpenseLine(e: ExpenseRecord, year: int): JournalExpense {
    JournalExpense(
      e.date.GetOr(YearEnd(year)), e.amount, e.description.GetOr(e.category.GetOr("")),
      Some(e.account.GetOr("627")), Some(e.deductiblePct.GetOr(100.0)))
  }

  function RevenueLines(revenues: seq<RevenueRecord>, year: int): (ls: seq<JournalRevenue>)
    ensures |ls| == |revenues|
  {
    if revenues == [] then [] else RevenueLines(revenues[..|revenues| - 1], year) + [RevenueLine(revenues[|revenues| - 1], year)]
  }

  function ExpenseLines(expenses: seq<ExpenseRecord>, year: int): (ls: seq<JournalExpense>)
    ensures |ls| == |expenses|
  {
    if expenses == [] then [] else ExpenseLines(expenses[..|expenses| - 1], year) + [ExpenseLine(expenses[|expenses| - 1], year)]
  }

  /** `compute_fiscal_summary`. */
  function ComputeFiscalSummary(
    propertyId: int, year: int, revenues: seq<RevenueRecord>, expenses: seq<ExpenseRecord>,
    depreciation: DepreciationResult, propertyGrossValue: real, previousDepreciationCumul: real): FiscalSummary
  {
    var totalRevenue := TotalRevenue(revenues);
    var totalExpenses := TotalExpenses(expenses);
    var resultBeforeDepreciation := totalRevenue - totalExpenses;
    var cumul := previousDepreciationCumul + depreciation.totalDeductible;
    var assetNet := propertyGrossValue - cumul;
    var cash := totalRevenue - totalExpenses;
    FiscalSummary(
      propertyId, year, totalRevenue, totalExpenses,
      depreciation.totalAnnual, depreciation.totalDeductible, depreciation.totalCarriedOver,
      resultBeforeDepreciation, resultBeforeDepreciation - depreciation.totalDeductible,
      propertyGrossValue, cumul, assetNet, cash, assetNet + cash,
      propertyGrossValue, 0.0, propertyGrossValue,
      Journal(RevenueLines(revenues, year), ExpenseLines(expenses, year), depreciation.details, year))
  }

  /** The results: the result before depreciation is revenue minus expenses, the fiscal
      result further subtracts the deductible depreciation, and the three depreciation
      totals are those of the engine's result. */
  lemma SummaryResults(
    propertyId: int, year: int, revenues: seq<RevenueRecord>, expenses: seq<ExpenseRecord>,
    depreciation: DepreciationResult, propertyGrossValue: real, previousDepreciationCumul: real)
    ensures var s := ComputeFiscalSummary(propertyId, year, revenues, expenses, depreciation, propertyGrossValue, previousDepreciationCumul);
      && s.propertyId == propertyId && s.year == year
      && s.resultBeforeDepreciation == s.totalRevenue - s.totalExpenses
      && s.fiscalResult == s.totalRevenue - s.totalExpenses - depreciation.totalDeductible
      && s.totalDepreciationAnnual == depreciation.totalAnnual
      && s.totalDepreciationDeductible == depreciation.totalDeductible
      && s.totalDepreciationCarried == depreciation.totalCarriedOver
  {
  }

  /** The revenue total is the sum of the amounts and the expense total the sum of the net
      amounts: appending a record adds its (net) amount. */
  lemma SummaryTotalsStep(revenues: seq<RevenueRecord>, r: RevenueRecord, expenses: seq<ExpenseRecord>, e: ExpenseRecord)
    ensures TotalRevenue(revenues + [r]) == TotalRevenue(revenues) + r.amount
    ensures TotalExpenses(expenses + [e]) == TotalExpenses(expenses) + e.amount * e.deductiblePct.GetOr(100.0) / 100.0
  {
    assert (revenues + [r])[..|revenues|] == revenues;
    assert (expenses + [e])[..|expenses|] == expenses;
  }

  /** The simplified balance sheet: the accumulated depreciation grows by this year's
      deductible amount, the net asset value is gross minus accumulated (and may go below
      zero), cash is revenue minus expenses, and equity is the gross value. The two sides
      differ by the fiscal result minus the earlier accumulated depreciation. */
  lemma SummaryBalanceSheet(
    propertyId: int, year: int, revenues: seq<RevenueRecord>, expenses: seq<ExpenseRecord>,
    depreciation: DepreciationResult, propertyGrossValue: real, previousDepreciationCumul: real)
    ensures var s := ComputeFiscalSummary(propertyId, year, revenues, expenses, depreciation, propertyGrossValue, previousDepreciationCumul);
      && s.assetGross == propertyGrossValue
      && s.assetDepreciationCumul == previousDepreciationCumul + depreciation.totalDeductible
      && s.assetNet == s.assetGross - s.assetDepreciationCumul
      && (s.assetNet < 0.0 <==> previousDepreciationCumul + depreciation.totalDeductible > propertyGrossValue)
      && s.cash == s.totalRevenue - s.totalExpenses
      && s.totalAssets == s.assetNet + s.cash
      && s.equity == propertyGrossValue && s.liabilities == 0.0
      && s.totalLiabilitiesEquity == s.equity
      && s.totalAssets - s.totalLiabilitiesEquity == s.fiscalResult - previousDepreciationCumul
  {
  }

  lemma {:induction false} RevenueLinesTotal(revenues: seq<RevenueRecord>, year: int)
    ensures RevenueTotal(RevenueLines(revenues, year)) == TotalRevenue(revenues)
  {
    if revenues != [] {
      var init := revenues[..|revenues| - 1];
      RevenueLinesTotal(init, year);
      RevenueLinesLast(revenues, year);
    }
  }

  lemma RevenueLinesLast(revenues: seq<RevenueRecord>, year: int)
    requires revenues != []
    ensures var ls := RevenueLines(revenues, year);
      && ls[..|ls| - 1] == RevenueLines(revenues[..|revenues| - 1], year)
      && ls[|ls| - 1].amount == revenues[|revenues| - 1].amount
  {
    var ls := RevenueLines(revenues, year);
    assert ls[..|ls| - 1] == RevenueLines(revenues[..|revenues| - 1], year);
  }

  lemma {:induction false} ExpenseLinesTotal(expenses: seq<ExpenseRecord>, year: int)
    ensures ExpenseTotal(ExpenseLines(expenses, year)) == TotalExpenses(expenses)
    ensures forall i :: 0 <= i < |expenses| ==> ExpenseLines(expenses, year)[i] == ExpenseLine(expenses[i], year)
  {
    if expenses != [] {
      var init := expenses[..|expenses| - 1];
      ExpenseLinesTotal(init, year);
      var ls := ExpenseLines(expenses, year);
      assert ls[..|ls| - 1] == ExpenseLines(init, year);
      var e := expenses[|expenses| - 1];
      assert ExpenseNet(ExpenseLine(e, year)) == ExpenseRecordNet(e);
    }
  }

  /** The summary's journal balances, and its total debit is the summary's revenue plus
      its expenses plus the positive deductible amounts of the details; it has two
      entries per revenue, per expense and per positive allowance. */
  lemma SummaryJournal(
    propertyId: int, year: int, revenues: seq<RevenueRecord>, expenses: seq<ExpenseRecord>,
    depreciation: DepreciationResult, propertyGrossValue: real, previousDepreciationCumul: real)
    ensures var s := ComputeFiscalSummary(propertyId, year, revenues, expenses, depreciation, propertyGrossValue, previousDepreciationCumul);
      && DebitTotal(s.journal) == CreditTotal(s.journal)
      && DebitTotal(s.journal) == s.totalRevenue + s.totalExpenses + AllowanceTotal(PositiveDetails(depreciation.details))
      && |s.journal| == 2 * |revenues| + 2 * |expenses| + 2 * |PositiveDetails(depreciation.details)|
  {
    var rs, es := RevenueLines(revenues, year), ExpenseLines(expenses, year);
    RevenueLinesTotal(revenues, year);
    ExpenseLinesTotal(expenses, year);
    JournalBalances(rs, es, depreciation.details, year);
    JournalLength(rs, es, depreciation.details, year);
  }
}
