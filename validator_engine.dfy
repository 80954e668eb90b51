/** The imperative validator of `validate_fiscal_summary`, proved against the
    specification function Validator.Validation. */
module ValidatorEngine {
  import opened Money
  import opened Optional
  import opened Depreciation
  import opened Accounting
  import opened Validator

  /** Runs the seven checks in order, appending each issue as it is found. */
  method ValidateFiscalSummary(summary: FiscalSummary, revenues: seq<RevenueRecord>, details: seq<DepreciationDetail>, hasComponents: bool)
    returns (result: ValidationResult)
    ensures result == Validation(summary, revenues, details, hasComponents)
  {
    var issues: seq<ValidationIssue> := [];

    var balanceDiff := Abs(summary.totalAssets - summary.totalLiabilitiesEquity);
    if balanceDiff > 1.0 {
      issues := issues + [BalanceIssue(balanceDiff)];
    }

    var i := 0;
    while i < |revenues|
      invariant 0 <= i <= |revenues|
      invariant issues == BalanceIssues(summary) + NegativeRevenueIssues(revenues[..i])
    {
      assert revenues[..i + 1][..i] == revenues[..i];
      var rev := revenues[i];
      if rev.amount < 0.0 {
        issues := issues + [NegativeRevenueIssue(rev)];
      }
      i := i + 1;
    }
    assert revenues[..|revenues|] == revenues;
    ghost var errors := issues;

    if summary.totalRevenue > 0.0 {
      var ratio := summary.totalExpenses / summary.totalRevenue;
      if ratio > 3.0 {
        issues := issues + [RatioIssue(summary.totalExpenses, ratio)];
      }
    }
    ghost var afterRatio := issues;
    assert afterRatio == errors + RatioIssues(summary);

    var missingMonths := MissingMonths(revenues);
    if missingMonths != [] {
      issues := issues + [IncompleteYearIssue(missingMonths)];
    }
    ghost var afterMonths := issues;
    assert afterMonths == afterRatio + IncompleteYearIssues(revenues);

    if details == [] {
      issues := issues + [NoDepreciationIssue];
    }
    ghost var afterDepreciation := issues;
    assert afterDepreciation == afterMonths + NoDepreciationIssues(details);

    if !hasComponents {
      issues := issues + [ComponentIssue];
    }
    ghost var afterComponents := issues;
    assert afterComponents == afterDepreciation + ComponentIssues(hasComponents);

    var noAcquisitionCosts := !HasAcquisitionCosts(details);
    if noAcquisitionCosts {
      issues := issues + [AcquisitionCostIssue];
    }
    assert issues == afterComponents + AcquisitionCostIssues(details);

    ChecksInOrder(errors, afterRatio, afterMonths, afterDepreciation, afterComponents, issues,
      summary, revenues, details, hasComponents);
    result := ValidationResult(issues);
  }

  /** Appending the checks' issues one after the other yields the specification's list. */
  lemma ChecksInOrder(
    errors: seq<ValidationIssue>, afterRatio: seq<ValidationIssue>, afterMonths: seq<ValidationIssue>,
    afterDepreciation: seq<ValidationIssue>, afterComponents: seq<ValidationIssue>, issues: seq<ValidationIssue>,
    summary: FiscalSummary, revenues: seq<RevenueRecord>, details: seq<DepreciationDetail>, hasComponents: bool)
    requires errors == ErrorChecks(summary, revenues)
    requires afterRatio == errors + RatioIssues(summary)
    requires afterMonths == afterRatio + IncompleteYearIssues(revenues)
    requires afterDepreciation == afterMonths + NoDepreciationIssues(details)
    requires afterComponents == afterDepreciation + ComponentIssues(hasComponents)
    requires issues == afterComponents + AcquisitionCostIssues(details)
    ensures issues == Validation(summary, revenues, details, hasComponents).issues
  {
    AppendAssociates(errors, RatioIssues(summary), IncompleteYearIssues(revenues),
      NoDepreciationIssues(details), ComponentIssues(hasComponents), AcquisitionCostIssues(details));
  }

  lemma AppendAssociates<T>(a: seq<T>, b: seq<T>, c: seq<T>, d: seq<T>, e: seq<T>, f: seq<T>)
    ensures a + b + c + d + e + f == a + (b + c + d + e + f)
  {
  }
}
