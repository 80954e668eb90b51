/** The imperative engine of `compute_deductible_depreciation`, proved against the
    specification function Depreciation.DeductibleDepreciation. */
module DepreciationEngine {
  import opened Money
  import opened Allocation
  import opened Depreciation

  /** `compute_deductible_depreciation`: the first loop computes each component's annual
      amount, accumulates the total and appends a detail with nothing allocated yet; the
      second loop fills in each detail's deductible and carried amounts while consuming
      the deductible total. */
  method ComputeDeductibleDepreciation(cs: seq<ComponentInput>, resultBeforeDepreciation: real, previousCarriedOver: real)
    returns (r: DepreciationResult)
    ensures r == DeductibleDepreciation(cs, resultBeforeDepreciation, previousCarriedOver)
  {
    var totalAnnual, details := AnnualPass(cs);

    var totalAvailable := totalAnnual + previousCarriedOver;
    var cap := Max(0.0, resultBeforeDepreciation);
    var totalDeductible := Min(totalAvailable, cap);
    var totalCarriedOver := totalAvailable - totalDeductible;

    details := AllocationPass(cs, details, totalDeductible);
    r := DepreciationResult(totalAnnual, totalDeductible, totalCarriedOver, details);
  }

  /** The first loop: the annual amounts, their total and the pending details. */
  method AnnualPass(cs: seq<ComponentInput>) returns (totalAnnual: real, details: seq<DepreciationDetail>)
    ensures totalAnnual == Sum(AnnualAmounts(cs))
    ensures details == PendingDetails(cs)
  {
    totalAnnual := 0.0;
    details := [];
    ghost var amounts := AnnualAmounts(cs);
    var i := 0;
    while i < |cs|
      invariant 0 <= i <= |cs|
      invariant totalAnnual + Sum(amounts[i..]) == Sum(amounts)
      invariant details == PendingDetails(cs[..i])
    {
      var amount := AnnualDepreciationAmount(cs[i].value, cs[i].durationYears, cs[i].startDate, cs[i].fiscalYear);
      SumStep(amounts, i);
      PendingDetailsStep(cs, i);
      totalAnnual := totalAnnual + amount;
      details := details + [DepreciationDetail(cs[i].component, cs[i].componentLabel, amount, 0.0, 0.0)];
      i := i + 1;
    }
    assert amounts[|cs|..] == [];
    assert cs[..|cs|] == cs;
  }

  /** The second loop: each pending detail takes the smaller of its annual amount and
      what is left of the deductible total, and carries the rest. */
  method AllocationPass(cs: seq<ComponentInput>, pending: seq<DepreciationDetail>, totalDeductible: real)
    returns (details: seq<DepreciationDetail>)
    requires pending == PendingDetails(cs)
    ensures details == Details(cs, Allocate(AnnualAmounts(cs), totalDeductible))
  {
    ghost var amounts := AnnualAmounts(cs);
    ghost var allocs := Allocate(amounts, totalDeductible);
    PartlyAllocatedNone(cs, allocs);
    details := pending;
    var remainingDeductible := totalDeductible;
    var i := 0;
    while i < |details|
      invariant 0 <= i <= |details| == |cs|
      invariant remainingDeductible == RemainingBefore(amounts, totalDeductible, i)
      invariant details == PartlyAllocated(cs, allocs, i)
    {
      PartlyAllocatedStep(cs, allocs, i);
      var alloc := Min(details[i].annualAmount, remainingDeductible);
      details := details[i := details[i].(deductibleAmount := alloc, carriedOver := details[i].annualAmount - alloc)];
      remainingDeductible := remainingDeductible - alloc;
      i := i + 1;
    }
    PartlyAllocatedAll(cs, allocs);
  }

  /** The details as the first loop leaves them: one per component, nothing allocated. */
  function PendingDetails(cs: seq<ComponentInput>): (ds: seq<DepreciationDetail>)
    ensures |ds| == |cs|
    ensures forall k :: 0 <= k < |cs| ==> ds[k] == PendingDetail(cs[k])
  {
    seq(|cs|, k requires 0 <= k < |cs| => PendingDetail(cs[k]))
  }

  /** The details while the second loop runs: the first `n` allocated, the rest pending. */
  function PartlyAllocated(cs: seq<ComponentInput>, allocs: seq<real>, n: int): (ds: seq<DepreciationDetail>)
    requires |allocs| == |cs| && 0 <= n <= |cs|
    ensures |ds| == |cs|
    ensures forall k :: 0 <= k < |cs| ==> ds[k] == if k < n then DetailOf(cs[k], allocs[k]) else PendingDetail(cs[k])
  {
    seq(|cs|, k requires 0 <= k < |cs| => if k < n then DetailOf(cs[k], allocs[k]) else PendingDetail(cs[k]))
  }

  lemma PendingDetailsStep(cs: seq<ComponentInput>, i: int)
    requires 0 <= i < |cs|
    ensures PendingDetails(cs[..i + 1]) ==
      PendingDetails(cs[..i]) + [DepreciationDetail(cs[i].component, cs[i].componentLabel, AnnualAmountOf(cs[i]), 0.0, 0.0)]
  {
    assert PendingDetails(cs[..i + 1])[i] == PendingDetail(cs[i]);
  }

  lemma PartlyAllocatedNone(cs: seq<ComponentInput>, allocs: seq<real>)
    requires |allocs| == |cs|
    ensures PartlyAllocated(cs, allocs, 0) == PendingDetails(cs)
  {
  }

  /** Filling in the next detail as the second loop does moves the boundary by one. */
  lemma PartlyAllocatedStep(cs: seq<ComponentInput>, allocs: seq<real>, i: int)
    requires |allocs| == |cs| && 0 <= i < |cs|
    ensures PartlyAllocated(cs, allocs, i)[i].annualAmount == AnnualAmountOf(cs[i])
    ensures var d := PartlyAllocated(cs, allocs, i)[i];
      PartlyAllocated(cs, allocs, i)[i := d.(deductibleAmount := allocs[i], carriedOver := d.annualAmount - allocs[i])] ==
      PartlyAllocated(cs, allocs, i + 1)
  {
    var d := PartlyAllocated(cs, allocs, i)[i];
    assert d.(deductibleAmount := allocs[i], carriedOver := d.annualAmount - allocs[i]) == DetailOf(cs[i], allocs[i]);
  }

  lemma PartlyAllocatedAll(cs: seq<ComponentInput>, allocs: seq<real>)
    requires |allocs| == |cs|
    ensures PartlyAllocated(cs, allocs, |cs|) == Details(cs, allocs)
  {
  }

  /** Splitting off the head of the suffix summed by the first loop. */
  lemma SumStep(s: seq<real>, i: int)
    requires 0 <= i < |s|
    ensures Sum(s[i..]) == s[i] + Sum(s[i + 1..])
  {
    assert s[i..][1..] == s[i + 1..];
  }
}
