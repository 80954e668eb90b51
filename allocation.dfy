/** Greedy allocation of a budget to a list of amounts, in list order: each amount takes
    the smaller of itself and what is left of the budget. */
module Allocation {
  import opened Money

  predicate AllNonNegative(s: seq<real>) {
    forall i :: 0 <= i < |s| ==> s[i] >= 0.0
  }

  /** What is left of `budget` once the first `i` amounts have taken their share; each
      amount takes the smaller of itself and what is left (the engine's
      `remaining_deductible`). */
  function RemainingBefore(amounts: seq<real>, budget: real, i: int): real
    requires 0 <= i <= |amounts|
  {
    if i == 0 then budget
    else
      var left := RemainingBefore(amounts, budget, i - 1);
      left - Min(amounts[i - 1], left)
  }

  /** Greedy allocation of `budget` to `amounts` in list order. */
  function Allocate(amounts: seq<real>, budget: real): (allocs: seq<real>)
    ensures |allocs| == |amounts|
    ensures forall i :: 0 <= i < |amounts| ==> allocs[i] == Min(amounts[i], RemainingBefore(amounts, budget, i))
  {
    seq(|amounts|, i requires 0 <= i < |amounts| => Min(amounts[i], RemainingBefore(amounts, budget, i)))
  }

  lemma SumPrefixStep(s: seq<real>, i: int)
    requires 0 <= i < |s|
    ensures Sum(s[..i + 1]) == Sum(s[..i]) + s[i]
  {
    assert s[..i + 1] == s[..i] + [s[i]];
    SumAppend(s[..i], [s[i]]);
    assert Sum([s[i]]) == s[i] + Sum([]);
  }

  /** With non-negative amounts and budget, what is left before entry `i` is the budget
      minus everything before `i`, but never below zero. */
  lemma {:induction false} RemainingBeforeFormula(amounts: seq<real>, budget: real, i: int)
    requires AllNonNegative(amounts) && budget >= 0.0 && 0 <= i <= |amounts|
    ensures RemainingBefore(amounts, budget, i) == Max(0.0, budget - Sum(amounts[..i]))
  {
    if i == 0 {
      assert amounts[..0] == [];
    } else {
      RemainingBeforeFormula(amounts, budget, i - 1);
      SumPrefixStep(amounts, i - 1);
      SumNonNegative(amounts[..i - 1]);
    }
  }

  /** `allocs` holds, for each entry, the smaller of its amount and what is left. */
  predicate TakesWhatIsLeft(amounts: seq<real>, budget: real, allocs: seq<real>) {
    |allocs| == |amounts| &&
    forall k :: 0 <= k < |allocs| ==> allocs[k] == Min(amounts[k], RemainingBefore(amounts, budget, k))
  }

  lemma AllocateTakesWhatIsLeft(amounts: seq<real>, budget: real)
    ensures TakesWhatIsLeft(amounts, budget, Allocate(amounts, budget))
  {
  }

  /** The conservation argument, on any sequence built by the greedy rule. */
  lemma {:induction false} TakenBefore(amounts: seq<real>, budget: real, allocs: seq<real>, i: int)
    requires TakesWhatIsLeft(amounts, budget, allocs) && 0 <= i <= |amounts|
    ensures Sum(allocs[..i]) + RemainingBefore(amounts, budget, i) == budget
  {
    if i == 0 {
      assert allocs[..0] == [];
    } else {
      TakenBefore(amounts, budget, allocs, i - 1);
      SumPrefixStep(allocs, i - 1);
    }
  }

  /** Whatever the inputs, the allocations before entry `i` and what is left add up to
      the budget: nothing is created or lost. */
  lemma AllocatedBefore(amounts: seq<real>, budget: real, i: int)
    requires 0 <= i <= |amounts|
    ensures Sum(Allocate(amounts, budget)[..i]) + RemainingBefore(amounts, budget, i) == budget
  {
    AllocateTakesWhatIsLeft(amounts, budget);
    TakenBefore(amounts, budget, Allocate(amounts, budget), i);
  }

  /** Each entry's allocation is taken from what is left. */
  lemma RemainingStep(amounts: seq<real>, budget: real, i: int)
    requires 0 <= i < |amounts|
    ensures RemainingBefore(amounts, budget, i + 1) == RemainingBefore(amounts, budget, i) - Allocate(amounts, budget)[i]
  {
  }

  /** Each entry receives between nothing and its whole amount. */
  lemma AllocateBounds(amounts: seq<real>, budget: real)
    requires AllNonNegative(amounts) && budget >= 0.0
    ensures forall i :: 0 <= i < |amounts| ==> 0.0 <= Allocate(amounts, budget)[i] <= amounts[i]
  {
    forall i | 0 <= i < |amounts|
      ensures 0.0 <= Allocate(amounts, budget)[i]
    {
      RemainingBeforeFormula(amounts, budget, i);
    }
  }

  /** The allocations add up to the budget or to the sum of the amounts, whichever is smaller. */
  lemma AllocateTotal(amounts: seq<real>, budget: real)
    requires AllNonNegative(amounts) && budget >= 0.0
    ensures Sum(Allocate(amounts, budget)) == Min(Sum(amounts), budget)
  {
    var allocs := Allocate(amounts, budget);
    AllocatedBefore(amounts, budget, |amounts|);
    RemainingBeforeFormula(amounts, budget, |amounts|);
    assert allocs[..|amounts|] == allocs;
    assert amounts[..|amounts|] == amounts;
  }

  /** Once nothing is left, nothing is left for any later entry. */
  lemma {:induction false} NothingLeftStays(amounts: seq<real>, budget: real, i: int, j: int)
    requires AllNonNegative(amounts) && 0 <= i <= j <= |amounts|
    requires RemainingBefore(amounts, budget, i) == 0.0
    ensures RemainingBefore(amounts, budget, j) == 0.0
    decreases j - i
  {
    if i < j {
      assert RemainingBefore(amounts, budget, i + 1) == 0.0;
      NothingLeftStays(amounts, budget, i + 1, j);
    }
  }

  /** The allocation is greedy: once an entry receives less than its amount, every later
      entry receives nothing. */
  lemma AllocateGreedy(amounts: seq<real>, budget: real, i: int, j: int)
    requires AllNonNegative(amounts) && 0 <= i < j < |amounts|
    requires Allocate(amounts, budget)[i] < amounts[i]
    ensures Allocate(amounts, budget)[j] == 0.0
  {
    ShortfallEmptiesBudget(amounts, budget, i);
    NothingLeftStays(amounts, budget, i + 1, j);
  }

  /** An entry that receives less than its amount takes all that is left. */
  lemma ShortfallEmptiesBudget(amounts: seq<real>, budget: real, i: int)
    requires 0 <= i < |amounts|
    requires Allocate(amounts, budget)[i] < amounts[i]
    ensures RemainingBefore(amounts, budget, i + 1) == 0.0
  {
  }

  lemma SumSplitAt(s: seq<real>, i: int)
    requires 0 <= i < |s|
    ensures Sum(s) == Sum(s[..i]) + s[i] + Sum(s[i + 1..])
  {
    assert s == s[..i] + ([s[i]] + s[i + 1..]);
    SumAppend(s[..i], [s[i]] + s[i + 1..]);
    SumAppend([s[i]], s[i + 1..]);
    assert Sum([s[i]]) == s[i] + Sum([]);
  }

  /** Under a budget covering the whole sum, what is left before an entry covers it. */
  lemma EnoughLeft(amounts: seq<real>, budget: real, i: int)
    requires AllNonNegative(amounts) && budget >= Sum(amounts) && 0 <= i < |amounts|
    ensures RemainingBefore(amounts, budget, i) >= amounts[i]
  {
    SumNonNegative(amounts);
    RemainingBeforeFormula(amounts, budget, i);
    SumSplitAt(amounts, i);
    SumNonNegative(amounts[i + 1..]);
  }

  /** A budget covering the whole sum gives every entry its whole amount. */
  lemma AllocateEverything(amounts: seq<real>, budget: real)
    requires AllNonNegative(amounts) && budget >= Sum(amounts)
    ensures Allocate(amounts, budget) == amounts
  {
    forall i | 0 <= i < |amounts|
      ensures Allocate(amounts, budget)[i] == amounts[i]
    {
      EnoughLeft(amounts, budget, i);
    }
  }

  /** A zero budget gives nothing to anyone. */
  lemma AllocateNothing(amounts: seq<real>)
    requires AllNonNegative(amounts)
    ensures forall i :: 0 <= i < |amounts| ==> Allocate(amounts, 0.0)[i] == 0.0
  {
    forall i | 0 <= i < |amounts|
      ensures Allocate(amounts, 0.0)[i] == 0.0
    {
      NothingLeftStays(amounts, 0.0, 0, i);
    }
  }
}
