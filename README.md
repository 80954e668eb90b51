# LMNP fiscal engine in Dafny

This project models the core of a fiscal engine for furnished rentals declared under
the French LMNP *régime réel simplifié*, and proves properties of the model. The core
has five parts:

- **Depreciation.** Each asset component has a linear annual amount. The first year is
  prorated by days held over 365. The year's deductible depreciation is capped by the
  result before depreciation. What cannot be deducted is carried over. The deducted
  amount is shared out among the components in list order.
- **Accounting.** The fiscal summary holds the totals, the fiscal result, a simplified
  balance sheet and a double-entry journal. The journal pairs 411/706 for rent,
  627/401 for expenses and 681/281 for depreciation.
- **Regime comparator.** Compares the micro-BIC flat-allowance base with the réel base
  and recommends one of the two regimes.
- **Validator.** Seven checks, each of which may append an error, a warning or a
  suggestion. The result can be filtered by level.
- **CERFA forms.** Forms 2031 and 2033-A to 2033-G are projections of the summary. The
  liasse gathers them.

The fiscal-summary route is modelled as a composition of these parts:
records → result before depreciation → depreciation → summary.

Modules, one per file:

| module | role |
|---|---|
| `Calendar` | Gregorian dates, day of year, ordinal day numbers. |
| `Money` | Exact amounts as `real`; rounding half away from zero to the cent; `Sum`. |
| `Optional` | `Option` with `GetOr`, for dictionary lookups with a default. `Entry` with `Get`, for a key that may be missing or hold `None`. `Stored`, which puts a nullable column under a key. |
| `Allocation` | Greedy sharing of a budget among amounts, in order. |
| `Depreciation` | Specification functions of the depreciation engine, and their lemmas. |
| `DepreciationEngine` | The engine's two loops as methods, proved equal to `Depreciation.DeductibleDepreciation`. |
| `Accounting` | Journal entries, the fiscal summary, and their lemmas. |
| `AccountingEngine` | The journal builder's three loops as methods, proved equal to `Accounting.Journal`. |
| `Comparator` | The regime comparison. |
| `Validator` | The seven checks and the level-filtered views. |
| `ValidatorEngine` | The validator as a method that appends issues, proved equal to `Validator.Validation`. |
| `Cerfa` | The eight forms and the liasse. |
| `Pipeline` | The fiscal-summary route as one composition. |
| `DepreciationExamples`, `SummaryExamples` | The figures the repository's test suite expects. |

Modelling conventions:

- **Amounts.** Python `Decimal` amounts are exact `real`s. `quantize(0.01, ROUND_HALF_UP)`
  is `Money.RoundHalfUp`. Python's `min` and `max` are `Money.Min` and `Money.Max`,
  which return their first argument on a tie.
- **Dictionaries and exceptions.** A key that may be missing is an `Option`, and a
  `.get(key, default)` is `GetOr(default)`. For the property data of the forms, a key
  may also hold `None`. It is then an `Entry`, and `.get(key, default)` is
  `Get(default)`, which keeps `None`. The comparator's `KeyError` becomes a
  `None` result.
- **Issue messages.** The validator's formatted message texts are replaced by typed
  payloads: the values each message is formatted from.

Behaviours of the code that the model keeps as written:

- A shortfall is allocated in list order (backend/app/core/depreciation.py:105-110).
  The comment at depreciation.py:103-104 says proportionally, carry-over first. In the
  loop, earlier carry-over reaches no detail and later components get nothing.
- The year is always 365 days (depreciation.py:21), so a January 1 start in a leap year
  gives 366/365.
- Rounding is `ROUND_HALF_UP`: half away from zero (depreciation.py:42 and 45).
- Net asset value is gross minus cumulated depreciation and is not floored at zero
  (accounting.py:163).
- Carry-over is one amount for the property (depreciation.py:98-101). A detail's
  carried amount (depreciation.py:109) is only the part of that year's own amount not
  deducted.
- A non-positive value or duration gives an amount of 0, not an error
  (depreciation.py:34-35).
- A tie between the taxable bases recommends micro-BIC (comparator.py:67-72).

## Model

| member | source | states |
|---|---|---|
| Depreciation.Prorata | backend/app/core/depreciation.py:9-21 | Held in an earlier year: exactly 1. In the start year: days held to December 31, both ends included, over 365, between 1/365 and DaysInYear/365. Start year after the fiscal year: at most 0. |
| Calendar.DaysHeldUntilYearEnd | backend/app/core/depreciation.py:19-20 | The days from the start date to December 31 of the fiscal year, both included. In the start year: the days in the year minus the day of the year, plus one. For a fiscal year after the start year: more than the fiscal year's days. For one before it: at most 0. |
| Calendar.DayOfYear | backend/app/core/depreciation.py:19-20 | Between 1 and the days in the year. It is 1 exactly on January 1 and the last day exactly on December 31. |
| Depreciation.ProrataAboveOne | backend/app/core/depreciation.py:19-21 | The fraction exceeds 1 exactly for a January 1 start in a leap year, and is then 366/365. |
| Depreciation.ProrataFromNewYear | backend/app/core/depreciation.py:15-21 | A January 1 start in the fiscal year gives DaysInYear/365, which is 1 exactly when the year is not a leap year. |
| Depreciation.AnnualDepreciationAmount | backend/app/core/depreciation.py:24-46 | Zero for a non-positive value, a non-positive duration, or a fiscal year after the plan's last year. |
| Depreciation.FullAnnualIsCents | backend/app/core/depreciation.py:41-42 | The full annual amount is a whole number of cents, and non-negative for a non-negative value. |
| Depreciation.FullAnnualNear | backend/app/core/depreciation.py:41-42 | The full annual amount is within half a cent of value / duration. |
| Depreciation.AnnualAmountInPlan | backend/app/core/depreciation.py:34-46 | Inside the plan the amount is the rounded product of the full annual amount and the fraction. |
| Depreciation.AnnualAmountIsCents | backend/app/core/depreciation.py:42-45 | Every annual amount is a whole number of cents. |
| Depreciation.AnnualAmountInLaterYear | backend/app/core/depreciation.py:15-16 | After the start year, within the plan, the amount is the full annual amount. |
| Depreciation.AnnualAmountNonNegative | backend/app/core/depreciation.py:24-46 | A component started by the fiscal year never yields a negative amount. |
| Depreciation.AnnualAmountNonPositive | backend/app/core/depreciation.py:37-45 | A fiscal year before the start year yields zero or a negative amount. |
| Depreciation.AnnualAmountAtMostFull | backend/app/core/depreciation.py:41-45 | Outside the leap-year January 1 case, prorating never exceeds the full annual amount. |
| Depreciation.AnnualAmounts | backend/app/core/depreciation.py:79-86 | One amount per component, in order. |
| Depreciation.StartedComponentsNonNegative | backend/app/core/depreciation.py:79-86 | Components started by their fiscal year all have non-negative amounts. |
| Depreciation.DeductibleTotals | backend/app/core/depreciation.py:98-101 | The annual total is the sum of the amounts. The deductible total is at most the available amount (annual plus carry-over) and at most max(0, result), and equals one of the two. Deductible plus carried equals available. |
| Depreciation.DeductibleDetailsShape | backend/app/core/depreciation.py:87-109 | One detail per component, in order. Each echoes the component, its label and its amount; deducted plus carried equals the amount. |
| Depreciation.DetailsAllocate | backend/app/core/depreciation.py:105-110 | The deducted amounts are the greedy allocation of the deductible total over the annual amounts. |
| Depreciation.DeductibleBudgetNonNegative | backend/app/core/depreciation.py:98-100 | With non-negative amounts and carry-over, the deductible total is non-negative. |
| Depreciation.DeductibleBounds | backend/app/core/depreciation.py:98-110 | No total is negative. Each detail deducts between 0 and its amount and carries between 0 and its amount. |
| Depreciation.DeductedByDetails | backend/app/core/depreciation.py:103-110 | The details deduct min(annual total, deductible total) together. Carry-over in the deductible total appears in no detail. |
| Depreciation.NoResultNoDeduction | backend/app/core/depreciation.py:99-101 | A result of at most 0 deducts nothing and carries everything available; each detail carries its whole amount. |
| Depreciation.FullDeduction | backend/app/core/depreciation.py:98-110 | A result covering everything available deducts it all; nothing is carried in total or in any detail. |
| Depreciation.DeductedInOrder | backend/app/core/depreciation.py:103-110 | Once one component is not fully deducted, every later component deducts nothing. |
| Depreciation.DeductedAmounts | backend/app/core/depreciation.py:108 | The deductible amount of each detail, in order. |
| Depreciation.CarriedAmounts | backend/app/core/depreciation.py:109 | The carried amount of each detail, in order. |
| Depreciation.Details | backend/app/core/depreciation.py:87-110 | One detail per component with its allocation, in order. |
| DepreciationEngine.ComputeDeductibleDepreciation | backend/app/core/depreciation.py:49-117 | The engine's result equals DeductibleDepreciation, about which the lemmas above are proved. |
| DepreciationEngine.AnnualPass | backend/app/core/depreciation.py:76-95 | The first loop yields the sum of the annual amounts and one pending detail per component. |
| DepreciationEngine.AllocationPass | backend/app/core/depreciation.py:105-110 | The second loop fills the details with the greedy allocation of the deductible total. |
| Allocation.Allocate | backend/app/core/depreciation.py:105-110 | Each entry gets min(its amount, what is left before it). |
| Allocation.RemainingBeforeFormula | backend/app/core/depreciation.py:105-110 | With non-negative inputs, what is left before entry i is max(0, budget - sum of the first i amounts). |
| Allocation.TakenBefore | backend/app/core/depreciation.py:105-110 | For any sequence built by the greedy rule, allocated-so-far plus what is left equals the budget. |
| Allocation.AllocatedBefore | backend/app/core/depreciation.py:105-110 | The allocations before entry i plus what is left equal the budget: nothing is created or lost. |
| Allocation.RemainingStep | backend/app/core/depreciation.py:110 | Each entry's allocation is taken from what is left. |
| Allocation.AllocateBounds | backend/app/core/depreciation.py:107 | Each entry receives between 0 and its amount. |
| Allocation.AllocateTotal | backend/app/core/depreciation.py:105-110 | The allocations add up to min(sum of the amounts, budget). |
| Allocation.NothingLeftStays | backend/app/core/depreciation.py:105-110 | Once nothing is left, nothing is left for any later entry. |
| Allocation.ShortfallEmptiesBudget | backend/app/core/depreciation.py:107-110 | An entry that receives less than its amount takes all that is left. |
| Allocation.AllocateGreedy | backend/app/core/depreciation.py:103-110 | Once an entry receives less than its amount, every later entry receives 0. |
| Allocation.EnoughLeft | backend/app/core/depreciation.py:107 | When the budget covers the sum, what is left before each entry covers that entry. |
| Allocation.AllocateEverything | backend/app/core/depreciation.py:105-110 | A budget covering the sum gives every entry its whole amount. |
| Allocation.AllocateNothing | backend/app/core/depreciation.py:105-110 | A zero budget gives 0 to every entry. |
| Money.RoundHalfUpIsCents | backend/app/core/depreciation.py:42 | Rounding yields a whole number of cents. |
| Money.RoundHalfUpNear | backend/app/core/depreciation.py:42 | Rounding moves by at most half a cent, and a tie goes away from zero. |
| Money.RoundHalfUpSign | backend/app/core/depreciation.py:45 | Rounding never changes the sign. |
| Money.RoundMonotone | backend/app/core/depreciation.py:45 | Rounding preserves order. |
| Money.RoundCentsIdentity | backend/app/core/depreciation.py:45 | A whole number of cents is left unchanged. |
| Money.RoundedProductSign | backend/app/core/depreciation.py:45 | Scaling a non-negative amount keeps the factor's sign. |
| Money.RoundedProductAtMost | backend/app/core/depreciation.py:45 | Scaling a whole number of cents by a factor of at most 1 never exceeds it. |
| Money.RoundedProductByOne | backend/app/core/depreciation.py:45 | Scaling a whole number of cents by 1 gives it back. |
| Money.RoundedProductIsCents | backend/app/core/depreciation.py:45 | A rounded product is a whole number of cents. |
| Money.Min | backend/app/core/depreciation.py:100 | The result is at most both arguments and is one of them. |
| Money.Max | backend/app/core/depreciation.py:99 | The result is at least both arguments and is one of them. |
| Money.Abs | backend/app/core/validator.py:51 | The result is non-negative and equals x or -x. |
| Money.SumAppend | backend/app/core/depreciation.py:86 | The sum of a concatenation is the sum of the sums. |
| Money.SumNonNegative | backend/app/core/depreciation.py:86 | A sum of non-negative amounts is non-negative. |
| Optional.Option.GetOr | backend/app/core/accounting.py:173-185 | `get(key, default)`: the value when present, the default otherwise. |
| Optional.Entry.Get | backend/app/core/cerfa_generator.py:30-32 | `get(key, default)` on a key that may be missing or hold `None`. The result is `None` exactly when the key holds `None`. A missing key gives the default, and a value gives itself. |
| Optional.Stored | backend/app/api/fiscal.py:273-276 | A nullable column put under a key holds `None` exactly when the column is null, and its value otherwise. |
| DepreciationExamples.ProrataEarlierYear | backend/tests/test_depreciation.py:15-18 | An asset bought in 2020 is held all of 2025. |
| DepreciationExamples.ProrataJulyFirst | backend/tests/test_depreciation.py:25-30 | A July 1 start gives 184/365. |
| DepreciationExamples.ProrataLastDay | backend/tests/test_depreciation.py:32-35 | A December 31 start gives 1/365. |
| DepreciationExamples.AnnualStructure | backend/tests/test_depreciation.py:39-47 | 126000 over 50 years, started in 2022, gives 2520.00 in 2025. |
| DepreciationExamples.AnnualStructureFirstYear | backend/tests/test_depreciation.py:49-59 | The same asset from July 1, 2022 gives 1270.36 in 2022. |
| DepreciationExamples.AnnualFullyDepreciated | backend/tests/test_depreciation.py:61-69 | A plan that ended in 2019 gives 0 in 2025. |
| DepreciationExamples.AnnualZeroValue | backend/tests/test_depreciation.py:71-78 | A zero value gives 0. |
| DepreciationExamples.AnnualBeforeStart | backend/app/core/depreciation.py:15-21 | A fiscal year before the start year gives a negative amount (-1.00). |
| DepreciationExamples.SampleAmounts | backend/tests/test_depreciation.py:82-108 | The three test components yield 2520, 1800 and 1800, 6120 in total. |
| DepreciationExamples.SampleCapped | backend/tests/test_depreciation.py:119-126 | A result of 4550 deducts 4550 and carries 1570. Per component it deducts [2520, 1800, 230] and carries [0, 0, 1570]. |
| DepreciationExamples.SampleCovered | backend/tests/test_depreciation.py:110-117 | A result of 10000 deducts everything and carries nothing. |
| DepreciationExamples.SampleNoResult | backend/tests/test_depreciation.py:128-143 | A zero or negative result deducts nothing and carries everything. |
| DepreciationExamples.SampleWithCarryOver | backend/tests/test_depreciation.py:145-153 | A result of 2000 with 500 carried in deducts 2000 and carries 4620. The details deduct [2000, 0, 0]. |
| Accounting.JournalBalances | backend/app/core/accounting.py:51-130 | Total debits equal total credits. They equal revenue plus net expenses plus the positive deductible amounts. |
| Accounting.RevenueEntriesBalance | backend/app/core/accounting.py:65-84 | The revenue entries debit and credit exactly the revenue total. |
| Accounting.ExpenseEntriesBalance | backend/app/core/accounting.py:86-106 | The expense entries debit and credit exactly the net expense total. |
| Accounting.AllowanceEntriesBalance | backend/app/core/accounting.py:108-128 | The depreciation entries debit and credit exactly the sum of the positive deductible amounts. |
| Accounting.AllowanceStepPositive | backend/app/core/accounting.py:110-128 | A detail with a positive deductible amount adds it to both sides. |
| Accounting.AllowanceStepSkipped | backend/app/core/accounting.py:110 | A detail without a positive deductible amount adds no entry. |
| Accounting.PositiveDetailsMembers | backend/app/core/accounting.py:110 | The depreciation entries are made for exactly the details with a positive deductible amount. |
| Accounting.RevenueEntriesAt | backend/app/core/accounting.py:66-84 | Revenue i yields entry 2i, debiting 411 with the amount, and entry 2i+1, crediting 706 with it. Both are labelled "Loyer — " plus the label. |
| Accounting.ExpenseEntriesAt | backend/app/core/accounting.py:87-106 | Expense i yields entry 2i, debiting its account (627 by default) with the net amount (amount × pct / 100, default pct 100), and entry 2i+1, crediting 401 with it. |
| Accounting.AllowanceEntriesAt | backend/app/core/accounting.py:109-128 | The k-th positive detail yields entry 2k (681 debit) and entry 2k+1 (281 credit), both dated December 31. |
| Accounting.JournalLength | backend/app/core/accounting.py:63-130 | Two entries per revenue, per expense and per positive detail. |
| Accounting.TotalsAppend | backend/app/core/accounting.py:67-128 | Appending entries adds their debits and credits. |
| Accounting.PairTotals | backend/app/core/accounting.py:67-84 | The totals of an entry pair are the sums of its two entries. |
| Accounting.RevenueLines | backend/app/core/accounting.py:171-178 | One journal revenue per revenue record. |
| Accounting.ExpenseLines | backend/app/core/accounting.py:179-188 | One journal expense per expense record. |
| Accounting.RevenueLinesTotal | backend/app/core/accounting.py:147-178 | The journal's revenue lines add up to the summary's revenue total. |
| Accounting.RevenueLinesLast | backend/app/core/accounting.py:171-178 | Dropping the last record drops the last line, and that line carries the record's amount. |
| Accounting.ExpenseLinesTotal | backend/app/core/accounting.py:148-188 | The journal's expense lines add up to the summary's net expense total. Line i is built from record i by its defaults. |
| Accounting.SummaryResults | backend/app/core/accounting.py:145-156 | Result before depreciation is revenue minus expenses. The fiscal result further subtracts the deductible depreciation. The three depreciation totals are the engine's. |
| Accounting.SummaryTotalsStep | backend/app/core/accounting.py:147-151 | Appending a record adds its amount, or its net amount (default pct 100). |
| Accounting.SummaryBalanceSheet | backend/app/core/accounting.py:158-168 | Net assets are gross minus cumulated depreciation, and negative exactly when the cumulated depreciation exceeds gross. Assets are net plus cash; equity is the gross value. The sheet is off balance by the fiscal result minus the earlier cumulated depreciation. |
| Accounting.SummaryJournal | backend/app/core/accounting.py:170-191 | The summary's journal balances. Its debit total is revenue plus expenses plus the positive deductible amounts; it has two entries per record and per positive detail. |
| AccountingEngine.BuildJournal | backend/app/core/accounting.py:51-130 | The built journal equals Journal, about which the lemmas above are proved. |
| AccountingEngine.AppendRevenueEntries | backend/app/core/accounting.py:65-84 | The revenue loop appends RevenueEntries to what was there. |
| AccountingEngine.AppendExpenseEntries | backend/app/core/accounting.py:86-106 | The expense loop appends ExpenseEntries to what was there. |
| AccountingEngine.AppendAllowanceEntries | backend/app/core/accounting.py:108-128 | The depreciation loop appends AllowanceEntries to what was there. |
| Comparator.LookupWithFallback | backend/app/core/comparator.py:49-50 | None exactly when the standard fallback key is missing. Otherwise the key's value if present, else the fallback's. |
| Comparator.CompareFailsOnlyWithoutStandard | backend/app/core/comparator.py:44-50 | The comparison fails exactly when a standard constant is missing. |
| Comparator.CompareUsesConstants | backend/app/core/comparator.py:46-86 | The threshold and abatement are the regime's own constants, falling back to the standard ones. The abatement is reported as a percentage. |
| Comparator.AboveThresholdExactly | backend/app/core/comparator.py:52 | Above threshold exactly when revenue exceeds the threshold. |
| Comparator.MicroBicBase | backend/app/core/comparator.py:55-58 | The micro-BIC base is revenue × (1 - abatement), floored at 0. |
| Comparator.ReelSplit | backend/app/core/comparator.py:61-62 | The réel base and the deficit are non-negative and at most one is non-zero; base minus deficit is the fiscal result. |
| Comparator.Recommendation | backend/app/core/comparator.py:65-72 | The saving is micro-BIC base minus réel base. Réel is recommended exactly when above threshold or when the micro-BIC base is larger. A tie recommends micro-BIC. |
| Comparator.ExampleReelBetter | backend/tests/test_comparator.py:8-18 | With the standard 50 % abatement, 10600 of revenue and a zero result give base 5300 against 0, so réel is recommended. |
| Comparator.ExampleMicroBetter | backend/tests/test_comparator.py:20-30 | With the standard 50 % abatement, 10000 of revenue and a result of 6000 give base 5000, so micro-BIC is recommended. |
| Comparator.ExampleAboveThreshold | backend/tests/test_comparator.py:32-41 | With the standard threshold below 100000, 100000 of revenue is above the threshold, so réel is recommended. |
| Comparator.ExampleStandardAbatement | backend/tests/test_comparator.py:43-51 | The standard abatement is reported as 50, and gives a base of 10000 on 20000. |
| Comparator.ExampleDeficit | backend/tests/test_comparator.py:53-63 | With the standard constants, a result of -2000 gives base 0 and a deficit of 2000, so réel is recommended. |
| Validator.HasErrorsIffErrors | backend/app/core/validator.py:24-30 | `has_errors` holds exactly when the error list is not empty. |
| Validator.OfLevelExactly | backend/app/core/validator.py:28-38 | Each filtered view holds exactly the issues of its level. |
| Validator.OfLevelPartition | backend/app/core/validator.py:28-38 | The errors, warnings and suggestions together account for every issue. |
| Validator.SingleChecksExactly | backend/app/core/validator.py:50-146 | Check 1 fires exactly when the balance gap exceeds 1. Check 5 fires exactly with no details, check 6 exactly without components, and check 7 exactly when no detail is for acquisition costs. |
| Validator.NegativeRevenueIssuesExactly | backend/app/core/validator.py:62-72 | Check 2 raises as many issues as there are negative revenues. Each is an error reporting a negative amount. |
| Validator.NegativeRevenueIssuesInOrder | backend/app/core/validator.py:62-72 | Check 2's k-th issue is the issue of the k-th negative revenue in input order, with that revenue's amount and month. |
| Validator.NegativeRevenueIssuesCover | backend/app/core/validator.py:62-72 | Every negative revenue's own issue is among check 2's issues. |
| Validator.NegativeIndicesRange | backend/app/core/validator.py:63-64 | The indices of the negative revenues: one per negative revenue, each in range and pointing at a negative amount. |
| Validator.NegativeIndicesCover | backend/app/core/validator.py:63-64 | Every index of a negative revenue is listed. |
| Validator.NegativeIndicesAscending | backend/app/core/validator.py:63 | The indices are listed in strictly ascending order, the order of the loop. |
| Validator.RatioCheckExactly | backend/app/core/validator.py:74-89 | Check 3 fires exactly when revenue is positive and expenses exceed three times revenue. |
| Validator.RatioAboveThree | backend/app/core/validator.py:76-77 | For a positive revenue, the ratio is above 3 exactly when expenses exceed three times revenue. |
| Validator.MissingMonthsExactly | backend/app/core/validator.py:92-93 | The missing months are exactly the months 1 to 12 with no revenue, in ascending order. |
| Validator.MissingMonthsFromExactly | backend/app/core/validator.py:93 | The missing months from a starting month: exactly those up to 12 without revenue, ascending. |
| Validator.MissingMonthsFromRange | backend/app/core/validator.py:93 | Every missing month lies between the starting month and 12. |
| Validator.IncompleteYearExactly | backend/app/core/validator.py:91-105 | Check 4 fires exactly when some month has no revenue. |
| Validator.ErrorChecksLevels | backend/app/core/validator.py:50-72 | Checks 1 and 2 raise only errors. They raise some exactly when the balance is off by more than 1 or some revenue is negative. |
| Validator.AdvisoryChecksLevels | backend/app/core/validator.py:74-146 | Checks 3 to 7 never raise an error. |
| Validator.NoErrorsAppend | backend/app/core/validator.py:74-146 | Issue lists without errors stay without errors when concatenated. |
| Validator.ErrorsThenOthers | backend/app/core/validator.py:24-26 | Errors followed by non-errors: `has_errors` holds exactly when there are errors, and every error precedes every other issue. |
| Validator.HasErrorsExactly | backend/app/core/validator.py:41-148 | The validation has errors exactly when the balance is off by more than 1 euro or some revenue is negative. All errors come first. |
| ValidatorEngine.ValidateFiscalSummary | backend/app/core/validator.py:41-148 | The appended issues equal Validation, the seven checks in order, about which the lemmas above are proved. |
| ValidatorEngine.ChecksInOrder | backend/app/core/validator.py:74-146 | Appending checks 3 to 7 one after the other gives the specification's list. |
| Cerfa.Build2031 | backend/app/core/cerfa_generator.py:24-44 | The name, address and SIRET number are the property's entries read with an empty default, so a key holding `None` gives `None`. The regime is réel simplifié. The result is split into a profit line and a deficit line. Both are non-negative, at most one is non-zero, and profit minus deficit equals the result. The profit is positive exactly for a positive result, the deficit exactly for a negative one. |
| Cerfa.Build2033A | backend/app/core/cerfa_generator.py:47-61 | The balance-sheet lines are the summary's figures. |
| Cerfa.Build2033B | backend/app/core/cerfa_generator.py:64-81 | Total charges are the expenses plus the deductible depreciation. Both result lines equal the fiscal result. |
| Cerfa.AssetLine | backend/app/core/cerfa_generator.py:90-99 | The line's dotation and closing depreciation both equal the deductible amount. The gross value is 0 at both ends. There are no acquisitions, disposals or opening depreciation. |
| Cerfa.AssetLines | backend/app/core/cerfa_generator.py:88-99 | One line per detail, in order. |
| Cerfa.Build2033C | backend/app/core/cerfa_generator.py:84-105 | The lines come from the details, and the total is the summary's deductible depreciation. |
| Cerfa.Build2033D | backend/app/core/cerfa_generator.py:108-117 | No provisions and zero totals. |
| Cerfa.Build2033E | backend/app/core/cerfa_generator.py:120-129 | The value added is production minus external charges. |
| Cerfa.Build2033F | backend/app/core/cerfa_generator.py:132-144 | A single partner holds 100 % of the equity. It is named by the owner-name entry, with the default "Propriétaire" for a missing key and `None` for a key holding `None`. |
| Cerfa.Build2033G | backend/app/core/cerfa_generator.py:147-153 | No participations. |
| Cerfa.FullLiasse | backend/app/core/cerfa_generator.py:156-171 | Exactly the eight form numbers. Every form's own number is its key, and every form's year is the summary's. |
| Cerfa.LiasseCrossChecks | backend/app/core/cerfa_generator.py:156-171 | Result, depreciation, revenue, charges and equity appear with the same amount on every form that carries them. |
| Cerfa.Form2031AddsUp | backend/app/core/cerfa_generator.py:35-38 | For a computed summary, products minus charges minus depreciation equal the declared result. |
| Cerfa.Form2033BAddsUp | backend/app/core/cerfa_generator.py:70-80 | For a computed summary, operating products minus operating charges equal the operating result. |
| Cerfa.Form2033ABalance | backend/app/core/cerfa_generator.py:53-60 | For a computed summary: net is gross minus cumulated depreciation, and total assets are net plus cash. Liabilities and equity are the gross value. The sheet is off balance by the result minus the earlier cumulated depreciation. |
| Cerfa.Form2033EValueAdded | backend/app/core/cerfa_generator.py:122-128 | For a computed summary, the value added is the result before depreciation. |
| Cerfa.LineDotations | backend/app/core/cerfa_generator.py:97 | Each line's dotation, in order. |
| Cerfa.AssetLinesDotations | backend/app/core/cerfa_generator.py:88-99 | The line dotations are the details' deductible amounts. |
| Cerfa.Form2033CLines | backend/app/core/cerfa_generator.py:88-104 | With the engine's details, the lines add up to min(annual total, the form's total). Earlier carry-over is on no line. |
| Cerfa.Form2033CTotal | backend/app/core/cerfa_generator.py:88-104 | Without earlier carry-over, the lines add up to the form's total. |
| Pipeline.RevenueDicts | backend/app/api/fiscal.py:69 | One revenue record per stored revenue, with its amount and its month, which is always set. |
| Pipeline.ExpenseDicts | backend/app/api/fiscal.py:70-79 | One expense record per stored expense, with its percentage, category, description and date. |
| Pipeline.Components | backend/app/api/fiscal.py:87-97 | One component per stored plan, all for the requested year. |
| Pipeline.RouteRevenueAgrees | backend/app/api/fiscal.py:81 | The route's revenue total equals the summary's. |
| Pipeline.RouteExpensesAgree | backend/app/api/fiscal.py:82-84 | The route's expense total equals the summary's. |
| Pipeline.RouteTotalsAgree | backend/app/api/fiscal.py:81-110 | The result before depreciation that caps the engine is the one the summary reports. |
| Pipeline.StartedPlansNonNegative | backend/app/api/fiscal.py:87-97 | Plans started by the year give non-negative amounts. |
| Pipeline.RouteFiscalResult | backend/app/api/fiscal.py:81-110 | A loss is reported unchanged. A profit is lowered by the annual depreciation, never below zero, so it is zero exactly when the depreciation covers it. The carry-over is whatever the profit cannot absorb. |
| Pipeline.PositiveAllowance | backend/app/core/accounting.py:109-128 | With non-negative deductible amounts, the journal's depreciation total is the sum of the deducted amounts. |
| Pipeline.RouteJournal | backend/app/api/fiscal.py:81-110 | The route's journal balances, and its debit total is revenue plus expenses plus the deductible depreciation. |
| Pipeline.RouteIdentification | backend/app/api/fiscal.py:273-279 | On the liasse routes, form 2031 carries the stored name and the stored address and SIRET number unchanged, `None` included. Form 2033-F names the default owner. |
| SummaryExamples.SampleTotals | backend/tests/test_accounting.py:41-42 | The single test revenue and expense give their own amounts as totals. |
| SummaryExamples.SampleSummaryCapped | backend/tests/test_accounting.py:53-95 | 10600 against 6050 leaves 4550, fully absorbed, so the fiscal result is 0. The journal is balanced and not empty, and both sides of the balance sheet are 180000. |
| SummaryExamples.SampleSummaryPositive | backend/tests/test_accounting.py:72-76 | 20000 against 1000 with a result of 19000 leaves 12880. |
| SummaryExamples.TwoComponentsDeduction | backend/tests/test_cerfa.py:18-40 | The structure and the furniture give 4320, all deducted from 4550. |
| SummaryExamples.LiasseSummaryValues | backend/tests/test_cerfa.py:41-48 | Fiscal result 230, deductible 4320; assets 180230 against 180000. |
| SummaryExamples.SampleLiasseResult | backend/tests/test_cerfa.py:64-80 | Form 2031 declares a profit of 230 and no deficit, as form 2033-B does. |
| SummaryExamples.SampleLiasseLines | backend/tests/test_cerfa.py:82-90 | Form 2033-C has lines of 2520 and 1800, adding up to its total of 4320. |
| SummaryExamples.SampleLiasseBalance | backend/tests/test_cerfa.py:70-76 | Both sides of form 2033-A are positive: 180230 and 180000. |
| SummaryExamples.SampleListsHaveLiasseTotals | backend/tests/test_cerfa.py:44-45 | The test's revenue and expense lists total 10600 and 6050. |

## Left out

One line per omission or deliberately weaker contract:

- Float conversions: the `float(...)` calls at the output boundary (form builders, route responses) are not modelled. Amounts stay exact.
- `Decimal(str(x))` round trips through floats are the identity here.
- Decimal's 28-digit context is not modelled. `1 / duration` and `days / 365` are exact rationals, so a product rounded at the 28th digit may in principle differ from the exact one.
- `date` construction errors are not modelled: a `ValueError` for an invalid date or a year outside 1..9999.
- Depreciation.Prorata: it is total, with no precondition that the start year is at most the fiscal year. The source has no such guard, and a later start yields a non-positive fraction.
- Lemmas that need non-negative amounts take that as a hypothesis (NonNegativeAmounts, or every component started by its fiscal year). A later start gives negative amounts, as the code does.
- A leap-year January 1 start is covered by the general lemma Depreciation.ProrataFromNewYear rather than by a worked value.
- Accounting: in the revenue and expense records, a key present with the value `None` is not distinguished from an absent key. Every optional key there is an `Option`, absent when `None`. On the summary route the month column is never null, so it is always set. A `None` description would give a `None` label there, which the model does not produce. The form builders' property data does tell the three cases apart.
- The journal reads an expense's net amount through its percentage, but never reports the percentage itself, as in the code.
- The route's revenue `type` key is never read by the summary, so it is not modelled.
- Validator: the `expenses` argument of `validate_fiscal_summary` is never read by the code, so the model does not take it.
- Validator: the month set of check 4 is the predicate Validator.HasMonth. A revenue whose month is absent adds `None` to the set, which never matches a month.
- Validator: message texts are replaced by the values they are formatted from. The French wording and the number formatting are not modelled.
- Comparator: `get_micro_bic_constants(year)` (a file of versioned constants) is replaced by a `map<string, real>` parameter. A missing standard key (a `KeyError`) is a `None` result.
- Comparator: the regime labels are the datatype `Regime` instead of the strings "reel" and "micro_bic". The 305 euro minimum in the source's comment is not applied by the code, so it is not modelled.
- Cerfa: form 2033-C's gross value reads a "value" key with a default of 0. The engine's details have no such key, so it is 0. A caller passing other dictionaries is not modelled.
- Cerfa: the empty lists of forms 2033-D and 2033-G are sequences of amounts, because their element shape is never fixed.
- Cerfa: PDF and XML export are not modelled.
- Pipeline: the database queries and the HTTP layer are not modelled. The route's previous carry-over and previous cumulated depreciation are both 0, as in the code.
- Pipeline.ExpenseRow: the stored description is a string; a missing description, which the route would pass as `None`, is not modelled.
- No deficit ledger, per-component carry-over, disposal-year proration or degressive method: the code has none.
- The methods of DepreciationEngine, AccountingEngine and ValidatorEngine return new sequences. Python's in-place list appends have no aliasing visible to callers, so nothing is lost.
