/** The imperative journal builder of `build_journal`, proved against the specification
    function Accounting.Journal. */
module AccountingEngine {
  import opened Calendar
  import opened Optional
  import opened Depreciation
  import opened Accounting

  /** `build_journal`: three loops appending a debit entry and its credit counterpart for
      every revenue, every expense and every detail with a positive deductible amount. */
  method BuildJournal(revenues: seq<JournalRevenue>, expenses: seq<JournalExpense>, depreciations: seq<DepreciationDetail>, year: int)
    returns (entries: seq<JournalEntry>)
    ensures entries == Journal(revenues, expenses, depreciations, year)
  {
    entries := [];
    entries := AppendRevenueEntries(entries, revenues);
    entries := AppendExpenseEntries(entries, expenses);
    entries := AppendAllowanceEntries(entries, depreciations, year);
  }

  /** The revenue loop: rent received (411) against rental income (706). */
  method AppendRevenueEntries(start: seq<JournalEntry>, revenues: seq<JournalRevenue>) returns (entries: seq<JournalEntry>)
    ensures entries == start + RevenueEntries(revenues)
  {
    entries := start;
    var i := 0;
    while i < |revenues|
      invariant 0 <= i <= |revenues|
      invariant entries == start + RevenueEntries(revenues[..i])
    {
      var rev := revenues[i];
      RevenueEntriesStep(revenues, i);
      entries := entries + [JournalEntry(rev.date, "411", RentPrefix + rev.labelText, rev.amount, 0.0, "")];
      entries := entries + [JournalEntry(rev.date, "706", RentPrefix + rev.labelText, 0.0, rev.amount, "")];
      i := i + 1;
    }
    assert revenues[..|revenues|] == revenues;
  }

  /** The expense loop: the expense account (627 by default) against suppliers (401). */
  method AppendExpenseEntries(start: seq<JournalEntry>, expenses: seq<JournalExpense>) returns (entries: seq<JournalEntry>)
    ensures entries == start + ExpenseEntries(expenses)
  {
    entries := start;
    var i := 0;
    while i < |expenses|
      invariant 0 <= i <= |expenses|
      invariant entries == start + ExpenseEntries(expenses[..i])
    {
      var exp := expenses[i];
      ExpenseEntriesStep(expenses, i);
      var net := exp.amount * exp.deductiblePct.GetOr(100.0) / 100.0;
      entries := entries + [JournalEntry(exp.date, exp.account.GetOr("627"), exp.labelText, net, 0.0, "")];
      entries := entries + [JournalEntry(exp.date, "401", exp.labelText, 0.0, net, "")];
      i := i + 1;
    }
    assert expenses[..|expenses|] == expenses;
  }

  /** The depreciation loop: the allowance (681) against accumulated depreciation (281),
      both on December 31, for details with a positive deductible amount only. */
  method AppendAllowanceEntries(start: seq<JournalEntry>, depreciations: seq<DepreciationDetail>, year: int)
    returns (entries: seq<JournalEntry>)
    ensures entries == start + AllowanceEntries(depreciations, year)
  {
    entries := start;
    var i := 0;
    while i < |depreciations|
      invariant 0 <= i <= |depreciations|
      invariant entries == start + AllowanceEntries(depreciations[..i], year)
    {
      var dep := depreciations[i];
      AllowanceEntriesStep(depreciations, i, year);
      if dep.deductibleAmount > 0.0 {
        entries := entries + [JournalEntry(YearEnd(year), "681", AllowancePrefix + dep.componentLabel, dep.deductibleAmount, 0.0, "")];
        entries := entries + [JournalEntry(YearEnd(year), "281", DepreciationPrefix + dep.componentLabel, 0.0, dep.deductibleAmount, "")];
      }
      i := i + 1;
    }
    assert depreciations[..|depreciations|] == depreciations;
  }

  lemma RevenueEntriesStep(rs: seq<JournalRevenue>, i: int)
    requires 0 <= i < |rs|
    ensures RevenueEntries(rs[..i + 1]) == RevenueEntries(rs[..i]) + RevenuePair(rs[i])
  {
    assert rs[..i + 1][..i] == rs[..i];
  }

  lemma ExpenseEntriesStep(es: seq<JournalExpense>, i: int)
    requires 0 <= i < |es|
    ensures ExpenseEntries(es[..i + 1]) == ExpenseEntries(es[..i]) + ExpensePair(es[i])
  {
    assert es[..i + 1][..i] == es[..i];
  }

  lemma AllowanceEntriesStep(ds: seq<DepreciationDetail>, i: int, year: int)
    requires 0 <= i < |ds|
    ensures AllowanceEntries(ds[..i + 1], year) ==
      AllowanceEntries(ds[..i], year) + (if ds[i].deductibleAmount > 0.0 then AllowancePair(ds[i], year) else [])
  {
    assert ds[..i + 1][..i] == ds[..i];
  }
}
