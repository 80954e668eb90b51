/** The fiscal validator: seven independent checks on a fiscal summary and its inputs,
    each appending typed issues, and the level-filtered views of the result. Message
    texts are replaced by the values they are formatted from. */
module Validator {
  import opened Money
  import opened Optional
  import opened Depreciation
  import opened Accounting

  datatype Level = Error | Warning | Info

  /** What an issue reports; each constructor is one issue code. */
  datatype Finding =
    | BalanceUnbalanced(gap: real)
    | NegativeRevenue(amount: real, month: Option<int>)
    | ExpensesHighRatio(totalExpenses: real, ratio: real)
    | IncompleteYear(missingMonths: seq<int>)
    | NoDepreciation
    | SuggestComponents
    | SuggestAcquisitionCosts

  datatype ValidationIssue = ValidationIssue(level: Level, finding: Finding, field: Option<string>, cgiRef: Option<string>)

  /** The issues of all issues that have level `level`, in order. */
  function OfLevel(issues: seq<ValidationIssue>, level: Level): seq<ValidationIssue> {
    if issues == [] then []
    else
      var last := issues[|issues| - 1];
      OfLevel(issues[..|issues| - 1], level) + (if last.level == level then [last] else [])
  }

  datatype ValidationResult = ValidationResult(issues: seq<ValidationIssue>) {
    predicate HasErrors() {
      exists i :: 0 <= i < |issues| && issues[i].level == Error
    }

    function Errors(): seq<ValidationIssue> {
      OfLevel(issues, Error)
    }

    function Warnings(): seq<ValidationIssue> {
      OfLevel(issues, Warning)
    }

    function Suggestions(): seq<ValidationIssue> {
      OfLevel(issues, Info)
    }
  }

  // ---------------------------------------------------------------------------
  // The seven checks
  // ---------------------------------------------------------------------------

  /** 1. The two sides of the balance sheet differ by more than one euro. */
  function BalanceIssue(gap: real): ValidationIssue {
    ValidationIssue(Error, BalanceUnbalanced(gap), Some("bilan"), None)
  }

  function BalanceIssues(summary: FiscalSummary): seq<ValidationIssue> {
    var gap := Abs(summary.totalAssets - summary.totalLiabilitiesEquity);
    if gap > 1.0 then [BalanceIssue(gap)] else []
  }

  function NegativeRevenueIssue(r: RevenueRecord): ValidationIssue {
    ValidationIssue(Error, NegativeRevenue(r.amount, r.month), Some("revenues"), None)
  }

  /** 2. One error per revenue with a negative amount, in input order. */
  function NegativeRevenueIssues(revenues: seq<RevenueRecord>): seq<ValidationIssue> {
    if revenues == [] then []
    else
      var r := revenues[|revenues| - 1];
      NegativeRevenueIssues(revenues[..|revenues| - 1]) + (if r.amount < 0.0 then [NegativeRevenueIssue(r)] else [])
  }

  /** 3. Expenses above three times a positive revenue. */
  function RatioIssue(totalExpenses: real, ratio: real): ValidationIssue {
    ValidationIssue(Warning, ExpensesHighRatio(totalExpenses, ratio), Some("expenses"), None)
  }

  function RatioIssues(summary: FiscalSummary): seq<ValidationIssue> {
    if summary.totalRevenue > 0.0 then
      var ratio := summary.totalExpenses / summary.totalRevenue;
      if ratio > 3.0 then [RatioIssue(summary.totalExpenses, ratio)] else []
    else []
  }

  /** Some revenue is recorded for `month`. */
  predicate HasMonth(revenues: seq<RevenueRecord>, month: int) {
    exists i :: 0 <= i < |revenues| && revenues[i].month == Some(month)
  }

  /** The months from `from` to 12 without a revenue, in ascending order. */
  function MissingMonthsFrom(revenues: seq<RevenueRecord>, from: int): seq<int>
    requires 1 <= from <= 13
    decreases 13 - from
  {
    if from == 13 then []
    else (if HasMonth(revenues, from) then [] else [from]) + MissingMonthsFrom(revenues, from + 1)
  }

  function MissingMonths(revenues: seq<RevenueRecord>): seq<int> {
    MissingMonthsFrom(revenues, 1)
  }

  /** 4. Some month of the year has no revenue. */
  function IncompleteYearIssue(missing: seq<int>): ValidationIssue {
    ValidationIssue(Warning, IncompleteYear(missing), Some("revenues"), None)
  }

  function IncompleteYearIssues(revenues: seq<RevenueRecord>): seq<ValidationIssue> {
    var missing := MissingMonths(revenues);
    if missing != [] then [IncompleteYearIssue(missing)] else []
  }

  /** 5. No depreciation detail at all. */
  const NoDepreciationIssue := ValidationIssue(Warning, NoDepreciation, Some("depreciation"), Some("art. 39 CGI"))

  function NoDepreciationIssues(details: seq<DepreciationDetail>): seq<ValidationIssue> {
    if details == [] then [NoDepreciationIssue] else []
  }

  /** 6. The property is not split into components. */
  const ComponentIssue := ValidationIssue(Info, SuggestComponents, None, Some("art. 39 A CGI"))

  function ComponentIssues(hasComponents: bool): seq<ValidationIssue> {
    if !hasComponents then [ComponentIssue] else []
  }

  const AcquisitionCosts: string := "acquisition_costs"

  predicate HasAcquisitionCosts(details: seq<DepreciationDetail>) {
    exists i :: 0 <= i < |details| && details[i].component == AcquisitionCosts
  }

  /** 7. No detail is for acquisition costs. */
  const AcquisitionCostIssue := ValidationIssue(Info, SuggestAcquisitionCosts, None, Some("art. 39 quinquies CGI"))

  function AcquisitionCostIssues(details: seq<DepreciationDetail>): seq<ValidationIssue> {
    if !HasAcquisitionCosts(details) then [AcquisitionCostIssue] else []
  }

  /** Checks 1 and 2, the only ones that raise errors. */
  function ErrorChecks(summary: FiscalSummary, revenues: seq<RevenueRecord>): seq<ValidationIssue> {
    BalanceIssues(summary) + NegativeRevenueIssues(revenues)
  }

  /** Checks 3 to 7, in order. */
  function AdvisoryChecks(summary: FiscalSummary, revenues: seq<RevenueRecord>, details: seq<DepreciationDetail>, hasComponents: bool): seq<ValidationIssue> {
    RatioIssues(summary) + IncompleteYearIssues(revenues) + NoDepreciationIssues(details)
    + ComponentIssues(hasComponents) + AcquisitionCostIssues(details)
  }

  /** What `validate_fiscal_summary` returns: the checks' issues in check order. */
  function Validation(summary: FiscalSummary, revenues: seq<RevenueRecord>, details: seq<DepreciationDetail>, hasComponents: bool): ValidationResult {
    ValidationResult(ErrorChecks(summary, revenues) + AdvisoryChecks(summary, revenues, details, hasComponents))
  }

  // ---------------------------------------------------------------------------
  // Properties
  // ---------------------------------------------------------------------------

  /** The number of revenues with a negative amount. */
  function NegativeCount(revenues: seq<RevenueRecord>): nat {
    if revenues == [] then 0
    else NegativeCount(revenues[..|revenues| - 1]) + (if revenues[|revenues| - 1].amount < 0.0 then 1 else 0)
  }

  /** The indices of the revenues with a negative amount, in ascending order. */
  function NegativeIndices(revenues: seq<RevenueRecord>): seq<int> {
    if revenues == [] then []
    else
      var n := |revenues|;
      NegativeIndices(revenues[..n - 1]) + (if revenues[n - 1].amount < 0.0 then [n - 1] else [])
  }

  /** NegativeIndices has one index per negative revenue, each pointing at one. */
  lemma {:induction false} NegativeIndicesRange(revenues: seq<RevenueRecord>)
    ensures |NegativeIndices(revenues)| == NegativeCount(revenues)
    ensures forall k :: 0 <= k < |NegativeIndices(revenues)| ==>
      0 <= NegativeIndices(revenues)[k] < |revenues| && revenues[NegativeIndices(revenues)[k]].amount < 0.0
  {
    if revenues != [] {
      var n := |revenues|;
      var init := revenues[..n - 1];
      NegativeIndicesRange(init);
      var p := NegativeIndices(init);
      assert forall k :: 0 <= k < |p| ==> init[p[k]] == revenues[p[k]];
    }
  }

  /** Every negative revenue's index is listed. */
  lemma {:induction false} NegativeIndicesCover(revenues: seq<RevenueRecord>)
    ensures forall i :: 0 <= i < |revenues| && revenues[i].amount < 0.0 ==> i in NegativeIndices(revenues)
  {
    if revenues != [] {
      var n := |revenues|;
      var init := revenues[..n - 1];
      NegativeIndicesCover(init);
      forall i | 0 <= i < n && revenues[i].amount < 0.0
        ensures i in NegativeIndices(revenues)
      {
        if i < n - 1 {
          assert init[i] == revenues[i];
        }
      }
    }
  }

  /** The indices are listed in strictly ascending order. */
  lemma {:induction false} NegativeIndicesAscending(revenues: seq<RevenueRecord>)
    ensures forall k, l :: 0 <= k < l < |NegativeIndices(revenues)| ==> NegativeIndices(revenues)[k] < NegativeIndices(revenues)[l]
  {
    if revenues != [] {
      var n := |revenues|;
      NegativeIndicesAscending(revenues[..n - 1]);
      NegativeIndicesRange(revenues[..n - 1]);
    }
  }

  /** Check 2 raises one error per negative revenue, each reporting a negative amount. */
  lemma {:induction false} NegativeRevenueIssuesExactly(revenues: seq<RevenueRecord>)
    ensures |NegativeRevenueIssues(revenues)| == NegativeCount(revenues)
    ensures forall k :: 0 <= k < |NegativeRevenueIssues(revenues)| ==>
      && NegativeRevenueIssues(revenues)[k].level == Error
      && NegativeRevenueIssues(revenues)[k].finding.NegativeRevenue?
      && NegativeRevenueIssues(revenues)[k].finding.amount < 0.0
  {
    if revenues != [] {
      NegativeRevenueIssuesExactly(revenues[..|revenues| - 1]);
    }
  }

  /** Check 2's issues follow the negative revenues in input order: the k-th issue is the
      issue of the k-th negative revenue, carrying that revenue's amount and month. */
  lemma {:induction false} NegativeRevenueIssuesInOrder(revenues: seq<RevenueRecord>)
    ensures |NegativeRevenueIssues(revenues)| == |NegativeIndices(revenues)|
    ensures forall k :: 0 <= k < |NegativeIndices(revenues)| ==>
      && 0 <= NegativeIndices(revenues)[k] < |revenues|
      && NegativeRevenueIssues(revenues)[k] == NegativeRevenueIssue(revenues[NegativeIndices(revenues)[k]])
  {
    NegativeIndicesRange(revenues);
    if revenues != [] {
      var n := |revenues|;
      var init := revenues[..n - 1];
      NegativeRevenueIssuesInOrder(init);
      var p := NegativeIndices(init);
      assert forall k :: 0 <= k < |p| ==> init[p[k]] == revenues[p[k]];
      if revenues[n - 1].amount < 0.0 {
        assert NegativeIndices(revenues) == p + [n - 1];
      }
    }
  }

  /** Every negative revenue's own issue is among check 2's issues. */
  lemma {:induction false} NegativeRevenueIssuesCover(revenues: seq<RevenueRecord>)
    ensures forall i :: 0 <= i < |revenues| && revenues[i].amount < 0.0 ==>
      NegativeRevenueIssue(revenues[i]) in NegativeRevenueIssues(revenues)
  {
    if revenues != [] {
      var n := |revenues|;
      var init := revenues[..n - 1];
      NegativeRevenueIssuesCover(init);
      forall i | 0 <= i < n && revenues[i].amount < 0.0
        ensures NegativeRevenueIssue(revenues[i]) in NegativeRevenueIssues(revenues)
      {
        if i < n - 1 {
          assert init[i] == revenues[i];
        }
      }
    }
  }

  /** The months listed from `from` on lie between `from` and 12. */
  lemma {:induction false} MissingMonthsFromRange(revenues: seq<RevenueRecord>, from: int)
    requires 1 <= from <= 13
    ensures forall k :: 0 <= k < |MissingMonthsFrom(revenues, from)| ==> from <= MissingMonthsFrom(revenues, from)[k] <= 12
    decreases 13 - from
  {
    if from < 13 {
      MissingMonthsFromRange(revenues, from + 1);
    }
  }

  /** Month `m` is listed as missing exactly when it is a month of the year without a
      revenue; the list is strictly ascending. */
  lemma {:induction false} MissingMonthsFromExactly(revenues: seq<RevenueRecord>, from: int)
    requires 1 <= from <= 13
    ensures forall m :: m in MissingMonthsFrom(revenues, from) <==> from <= m <= 12 && !HasMonth(revenues, m)
    ensures forall i, j :: 0 <= i < j < |MissingMonthsFrom(revenues, from)| ==>
      MissingMonthsFrom(revenues, from)[i] < MissingMonthsFrom(revenues, from)[j]
    decreases 13 - from
  {
    if from < 13 {
      MissingMonthsFromExactly(revenues, from + 1);
      MissingMonthsFromRange(revenues, from + 1);
      var head := if HasMonth(revenues, from) then [] else [from];
      var rest := MissingMonthsFrom(revenues, from + 1);
      assert MissingMonthsFrom(revenues, from) == head + rest;
      forall m
        ensures m in head + rest <==> m in head || m in rest
      {
      }
    }
  }

  lemma MissingMonthsExactly(revenues: seq<RevenueRecord>)
    ensures forall m :: m in MissingMonths(revenues) <==> 1 <= m <= 12 && !HasMonth(revenues, m)
    ensures forall i, j :: 0 <= i < j < |MissingMonths(revenues)| ==> MissingMonths(revenues)[i] < MissingMonths(revenues)[j]
  {
    MissingMonthsFromExactly(revenues, 1);
  }

  /** Checks 1, 5, 6 and 7 raise their issue exactly under their condition. */
  lemma SingleChecksExactly(summary: FiscalSummary, details: seq<DepreciationDetail>, hasComponents: bool)
    ensures BalanceIssues(summary) != [] <==> Abs(summary.totalAssets - summary.totalLiabilitiesEquity) > 1.0
    ensures NoDepreciationIssues(details) != [] <==> details == []
    ensures ComponentIssues(hasComponents) != [] <==> !hasComponents
    ensures AcquisitionCostIssues(details) != [] <==> !HasAcquisitionCosts(details)
  {
  }

  /** Check 3 flags expenses above three times a positive revenue, and never fires
      without a positive revenue. */
  lemma RatioCheckExactly(summary: FiscalSummary)
    ensures RatioIssues(summary) != [] <==> summary.totalRevenue > 0.0 && summary.totalExpenses > 3.0 * summary.totalRevenue
    ensures summary.totalRevenue <= 0.0 ==> RatioIssues(summary) == []
  {
    if summary.totalRevenue > 0.0 {
      RatioAboveThree(summary.totalExpenses, summary.totalRevenue);
    }
  }

  /** Check 4 fires exactly when some month of the year has no revenue. */
  lemma IncompleteYearExactly(revenues: seq<RevenueRecord>)
    ensures IncompleteYearIssues(revenues) != [] <==> exists m :: 1 <= m <= 12 && !HasMonth(revenues, m)
  {
    MissingMonthsExactly(revenues);
    if exists m :: 1 <= m <= 12 && !HasMonth(revenues, m) {
      var m :| 1 <= m <= 12 && !HasMonth(revenues, m);
      assert m in MissingMonths(revenues);
    }
  }

  lemma RatioAboveThree(expenses: real, revenue: real)
    requires revenue > 0.0
    ensures expenses / revenue > 3.0 <==> expenses > 3.0 * revenue
  {
    assert expenses / revenue * revenue == expenses;
  }

  /** Checks 1 and 2 raise errors only, and there is one exactly when the balance sheet is
      off by more than one euro or some revenue is negative. */
  lemma ErrorChecksLevels(summary: FiscalSummary, revenues: seq<RevenueRecord>)
    ensures forall k :: 0 <= k < |ErrorChecks(summary, revenues)| ==> ErrorChecks(summary, revenues)[k].level == Error
    ensures ErrorChecks(summary, revenues) != [] <==>
      Abs(summary.totalAssets - summary.totalLiabilitiesEquity) > 1.0 || NegativeCount(revenues) > 0
  {
    NegativeRevenueIssuesExactly(revenues);
  }

  predicate NoErrors(issues: seq<ValidationIssue>) {
    forall k :: 0 <= k < |issues| ==> issues[k].level != Error
  }

  lemma NoErrorsAppend(a: seq<ValidationIssue>, b: seq<ValidationIssue>)
    requires NoErrors(a) && NoErrors(b)
    ensures NoErrors(a + b)
  {
  }

  /** Checks 3 to 7 raise warnings and suggestions only. */
  lemma AdvisoryChecksLevels(summary: FiscalSummary, revenues: seq<RevenueRecord>, details: seq<DepreciationDetail>, hasComponents: bool)
    ensures NoErrors(AdvisoryChecks(summary, revenues, details, hasComponents))
  {
    var a := RatioIssues(summary) + IncompleteYearIssues(revenues);
    NoErrorsAppend(RatioIssues(summary), IncompleteYearIssues(revenues));
    NoErrorsAppend(a, NoDepreciationIssues(details));
    NoErrorsAppend(a + NoDepreciationIssues(details), ComponentIssues(hasComponents));
    NoErrorsAppend(a + NoDepreciationIssues(details) + ComponentIssues(hasComponents), AcquisitionCostIssues(details));
  }

  /** In a list of errors followed by non-errors, there is an error exactly when the first
      part is not empty, and every error precedes every other issue. */
  lemma ErrorsThenOthers(errs: seq<ValidationIssue>, rest: seq<ValidationIssue>)
    requires forall k :: 0 <= k < |errs| ==> errs[k].level == Error
    requires NoErrors(rest)
    ensures ValidationResult(errs + rest).HasErrors() <==> errs != []
    ensures var issues := errs + rest;
      forall i, j :: 0 <= i < j < |issues| && issues[j].level == Error ==> issues[i].level == Error
  {
    var issues := errs + rest;
    if ValidationResult(issues).HasErrors() {
      var i :| 0 <= i < |issues| && issues[i].level == Error;
    }
    if errs != [] {
      assert issues[0] == errs[0];
    }
    forall i, j | 0 <= i < j < |issues| && issues[j].level == Error
      ensures issues[i].level == Error
    {
      assert issues[i] == errs[i];
    }
  }

  /** The result has errors exactly when the balance sheet is off by more than one euro
      or some revenue is negative, and its errors come before every other issue. */
  lemma HasErrorsExactly(summary: FiscalSummary, revenues: seq<RevenueRecord>, details: seq<DepreciationDetail>, hasComponents: bool)
    ensures Validation(summary, revenues, details, hasComponents).HasErrors() <==>
      Abs(summary.totalAssets - summary.totalLiabilitiesEquity) > 1.0 || NegativeCount(revenues) > 0
    ensures var issues := Validation(summary, revenues, details, hasComponents).issues;
      forall i, j :: 0 <= i < j < |issues| && issues[j].level == Error ==> issues[i].level == Error
  {
    ErrorChecksLevels(summary, revenues);
    AdvisoryChecksLevels(summary, revenues, details, hasComponents);
    ErrorsThenOthers(ErrorChecks(summary, revenues), AdvisoryChecks(summary, revenues, details, hasComponents));
  }

  /** A level view keeps exactly the issues of its level. */
  lemma {:induction false} OfLevelExactly(issues: seq<ValidationIssue>, level: Level)
    ensures forall x :: x in OfLevel(issues, level) <==> x in issues && x.level == level
  {
    if issues != [] {
      OfLevelExactly(issues[..|issues| - 1], level);
      assert issues == issues[..|issues| - 1] + [issues[|issues| - 1]];
    }
  }

  /** The three views together account for every issue. */
  lemma {:induction false} OfLevelPartition(issues: seq<ValidationIssue>)
    ensures |OfLevel(issues, Error)| + |OfLevel(issues, Warning)| + |OfLevel(issues, Info)| == |issues|
  {
    if issues != [] {
      OfLevelPartition(issues[..|issues| - 1]);
    }
  }

  /** `has_errors` holds exactly when the error view is not empty. */
  lemma HasErrorsIffErrors(r: ValidationResult)
    ensures r.HasErrors() <==> r.Errors() != []
  {
    OfLevelExactly(r.issues, Error);
    if r.HasErrors() {
      var i :| 0 <= i < |r.issues| && r.issues[i].level == Error;
      assert r.issues[i] in r.Errors();
    }
    if r.Errors() != [] {
      var x := r.Errors()[0];
      assert x in r.Errors();
      var i :| 0 <= i < |r.issues| && r.issues[i] == x;
    }
  }
}
