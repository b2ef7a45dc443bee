# Karbon flag rules in Dafny

This project models the flag-evaluation rule engine of Karbon. The engine takes
one parsed financial-statement document for one company and sets three risk
flags:

- `TOTAL_REVENUE_5CR_FLAG` checks whether net revenue is at least 50,000,000.
- `BORROWING_TO_REVENUE_FLAG` checks the borrowings-to-revenue ratio against 0.25.
- `ISCR_FLAG` checks whether the interest service coverage ratio is at least 2.

It first selects a reporting period: the first `STANDALONE` entry of
`financials`, or 0. It then computes the metrics for that period and classifies
each one. The result is the mapping `{"flags": {name: flag}}`.

Modules:

- `Outcomes` (outcomes.dfy) holds `Option` (a missing key or Python's `None`),
  `Fault` and `Outcome`, and Python's `/` as `PyDivide`. `Fault` lists the
  exceptions a rule can raise. `Outcome` is a value or a raised exception.
- `Rules` (rules.dfy) models `rules.py`: the flag enumeration, the document as
  datatypes, and every rule as a function. It also holds the loop of
  `latest_financial_index` as a method, which is proved equal to its function.
- `App` (app.dfy) models `probe_model_5l_profit`, the pipeline.
- `Scenarios` (scenarios.dfy) evaluates small concrete documents.

The document keys that `isinstance(..., list)` tests (`bs`, `total_revenue`)
are a `Listing`: `Absent`, `NotList` or `List`. Every other key that may be
missing is an `Option`. All amounts are exact `real`s.

The rules do not catch their exceptions, so each exception is an explicit
outcome rather than a default:

- iterating over a missing `financials` list raises `NoneNotIterable`;
- a balance-sheet entry without a borrowing key raises `MissingKey`;
- `None` used in a division raises `NoneInDivision`;
- a zero divisor raises `DivisionByZero`.

Missing data does not always lead to a default. For example, take
`total_revenue = [100]` and borrowings 10 + 15 with no net revenue under
`financials`. One might expect GREEN, since 25 / 100 = 0.25. The code instead
divides by `None` at rules.py:94 and raises
(`Scenarios.BorrowingWithoutNetRevenueRaises`).

`borrowing_to_revenue_flag` divides the ratio that `total_borrowing` returns by
the `total_revenue` entry a second time. `Rules.BorrowingFlagOnAlignedRevenue`
proves what that means when the `total_revenue` entry equals the net revenue:
the flag is GREEN exactly when 4 × borrowings ≤ revenue². The model keeps this
behaviour as written.

## Model

| member | source | states |
|---|---|---|
| `Outcomes.PyDivide` | rules.py:94 | `/` succeeds exactly when both operands are numbers and the divisor is non-zero, and then quotient × divisor = dividend; otherwise `None` raises a TypeError and zero raises ZeroDivisionError |
| `Rules.Code` | rules.py:6-11 | decoding a flag's integer gives the flag back, so the five flags have distinct integers in 0..4 |
| `Rules.FlagCodes` | rules.py:7-11 | the integers are RED=0, GREEN=1, AMBER=2, MEDIUM_RISK=3, WHITE=4 |
| `Rules.FromCode` | rules.py:6-11 | an integer names a flag exactly when it is in 0..4 |
| `Rules.FindStandalone` | rules.py:28-31 | the search stops at the first STANDALONE entry, and it runs off the end only when no entry is STANDALONE |
| `Rules.LatestFinancialIndex` | rules.py:14-31 | raises when `financials` is missing; otherwise returns the first STANDALONE position, or 0 when there is none; the result is within the list whenever the list is non-empty |
| `Rules.ScanLatestFinancialIndex` | rules.py:28-31 | the loop with its early return computes the same outcome as `LatestFinancialIndex` |
| `Rules.SelectionCharacterised` | rules.py:28-31 | the index i is selected if and only if entry i is the first STANDALONE entry, or no entry is STANDALONE and i = 0 |
| `Rules.TotalRevenue` | rules.py:48-65 | returns `netRevenue` of entry i exactly when `financials`, the index, `pnl`, `lineItems` and `netRevenue` all exist; otherwise returns `None`, negative and out-of-range indices included (the index check is the helper `Outcomes.At`) |
| `Rules.Sum` | rules.py:86-87 | Python's `sum` of a borrowing list, added from the left; a list of non-negative amounts has a non-negative sum |
| `Rules.TotalBorrowing` | rules.py:83-101 | gives the 0.0 default exactly when `bs` is missing, is not a list, or has no entry i; raises KeyError for a missing long-term and then short-term key; raises TypeError when net revenue is `None`; returns `None` exactly when net revenue is 0; otherwise returns a ratio that, multiplied by net revenue, gives long-term plus short-term borrowings |
| `Rules.BorrowingRatioNonNegative` | rules.py:86-95 | with non-negative borrowings and positive net revenue the ratio is non-negative |
| `Rules.Iscr` | rules.py:166-180 | out of range of the shorter list the result is 0.0; in range it raises exactly when the interest expense is -1, and otherwise the result × (interest + 1) = profit + 1; a missing list reads as empty (the helper `Rules.ListOrEmpty`) |
| `Rules.IscrFlag` | rules.py:119-124 | GREEN if and only if the ISCR is at least 2, otherwise RED; never AMBER; RED out of range; raises only when the ISCR does |
| `Rules.IscrFlagByCoverage` | rules.py:119-124 | with interest + 1 > 0 the flag is GREEN exactly when profit + 1 >= 2 × (interest + 1) |
| `Rules.TotalRevenue5crFlag` | rules.py:142-147 | GREEN if and only if net revenue exists and is at least 50,000,000; otherwise RED, so a missing revenue gives RED and AMBER never appears |
| `Rules.BorrowingToRevenueFlag` | rules.py:199-213 | AMBER when `total_revenue` is missing, not a list, or has no entry i. Otherwise it passes on the exception of `total_borrowing`, raises TypeError on its `None` (read through the helper `Rules.Borrowing.Numeric`) and ZeroDivisionError on a zero entry, and raises in no other case. GREEN if and only if `total_borrowing` / entry <= 0.25; AMBER if and only if the entry is missing or that ratio is above 0.25 |
| `Rules.BorrowingFlagGreenWithoutBalanceSheet` | rules.py:199-208 | with no balance-sheet entry for the period, `total_borrowing`'s 0.0 default makes the flag GREEN for any non-zero revenue entry |
| `Rules.BorrowingFlagOnAlignedRevenue` | rules.py:199-210 | when the `total_revenue` entry equals the net revenue, the flag is GREEN exactly when 4 × borrowings <= revenue² |
| `App.ProbeModel5lProfit` | app.py:11-36 | computes the period once and passes it to all three classifiers; succeeds exactly when the selection and the borrowing and ISCR flags succeed; the result has the single key `flags`, which holds exactly the three flag names, each mapped to its classifier's value; otherwise the first exception in program order escapes |
| `App.ProbeFlagValues` | app.py:30-36 | the revenue and ISCR flags are GREEN or RED, the borrowing flag is GREEN or AMBER, and MEDIUM_RISK and WHITE never appear |
| `App.ProbeSucceedsExactly` | app.py:18-28 | the pipeline returns a mapping if and only if `financials` is present and no rule raises for the selected period |
| `Scenarios.StandaloneSecondPeriod` | rules.py:28-31 | for a CONSOLIDATED entry followed by a STANDALONE entry with 60,000,000 revenue, period 1 is selected and the mapping is revenue GREEN, borrowing AMBER, ISCR RED |
| `Scenarios.IscrOfTwoIsGreen` | rules.py:170-177 | profit 9 and interest 4 give ISCR 2 and a GREEN flag |
| `Scenarios.NoBalanceSheet` | rules.py:100-101 | without `bs` the borrowing result is the 0.0 default for every period |
| `Scenarios.BorrowingWithoutNetRevenueRaises` | rules.py:90-94 | with no net revenue, `total_borrowing` divides by `None`, so the borrowing flag raises |
| `Scenarios.BorrowingFlagDividesTwice` | rules.py:200-210 | with net revenue 100, borrowings of 25 and of 50 both give a GREEN flag, because the ratio is divided by 100 again |
| `Scenarios.BorrowingsAreSummed` | rules.py:86-94 | long-term [10, 5] and short-term [7, 3] borrowings over net revenue 100 give the ratio 0.25: every element of both lists is added |

## Left out

- The Streamlit shell is not modelled: `initialize_session_state`, `main`, the
  file uploader, the session state and the JSON display. They are presentation
  and I/O.
- JSON decoding of the uploaded file and the unwrapping of its `data` key are
  not modelled. The model starts from an already parsed document.
- Floating point is not modelled. Every amount, ratio and threshold is an exact
  `real`, so IEEE-754 rounding near the 0.25 and 2 thresholds is not captured.
- Python's dynamic typing is modelled only where the rules test it with
  `isinstance`. Numeric fields are assumed to hold numbers, and `financials`,
  the borrowing lists and the ISCR lists are assumed to be lists when present.
  A JSON `null` stored under a key counts as a missing key. Where the code
  raises on such a `null`, the model does not: `len(None)` at rules.py:50
  and rules.py:170, `"lineItems" in None` at rules.py:55, `"netRevenue" in
  None` at rules.py:60, and `sum(None)` at rules.py:86 and rules.py:87 raise
  TypeError. The model instead returns `None` (rules.py:50, 55, 60), 0.0 (so
  the ISCR flag is RED; rules.py:170) or `MissingKey` (rules.py:86, 87).
- Negative indices are not modelled. `TotalBorrowing` and
  `BorrowingToRevenueFlag` require a non-negative period index, where Python
  would wrap around. The pipeline only ever passes the non-negative selected
  index.
- The unused `datetime` import is not modelled.
