/** The evaluation pipeline: select the period once, run the three
    classifiers on it, and assemble the result mapping. */
module App {
  import opened Outcomes
  import opened Rules

  const FlagsKey: string := "flags"
  const TotalRevenue5crFlagKey: string := "TOTAL_REVENUE_5CR_FLAG"
  const BorrowingToRevenueFlagKey: string := "BORROWING_TO_REVENUE_FLAG"
  const IscrFlagKey: string := "ISCR_FLAG"

  /** The mapping handed to the display: `{"flags": {name: flag}}`. */
  type FlagResult = map<string, map<string, Flag>>

  /** Evaluates the three flags for the latest STANDALONE period. The
      classifiers run in the program's order (revenue, borrowing, ISCR), so
      the first exception raised is the one that escapes. */
  function ProbeModel5lProfit(data: Document): (r: Outcome<FlagResult>)
    ensures r.Ok? <==>
              LatestFinancialIndex(data).Ok?
              && BorrowingToRevenueFlag(data, LatestFinancialIndex(data).value).Ok?
              && IscrFlag(data, LatestFinancialIndex(data).value).Ok?
    ensures r.Ok? ==> r.value.Keys == {FlagsKey}
    ensures r.Ok? ==>
              r.value[FlagsKey].Keys == {TotalRevenue5crFlagKey, BorrowingToRevenueFlagKey, IscrFlagKey}
    ensures r.Ok? ==>
              var i := LatestFinancialIndex(data).value;
              && r.value[FlagsKey][TotalRevenue5crFlagKey] == TotalRevenue5crFlag(data, i)
              && Ok(r.value[FlagsKey][BorrowingToRevenueFlagKey]) == BorrowingToRevenueFlag(data, i)
              && Ok(r.value[FlagsKey][IscrFlagKey]) == IscrFlag(data, i)
    ensures r.Raised? ==>
              if LatestFinancialIndex(data).Raised? then r.fault == NoneNotIterable
              else
                var i := LatestFinancialIndex(data).value;
                if BorrowingToRevenueFlag(data, i).Raised? then r.fault == BorrowingToRevenueFlag(data, i).fault
                else r.fault == DivisionByZero
  {
    var index :- LatestFinancialIndex(data);
    var totalRevenue5crFlag := TotalRevenue5crFlag(data, index);
    var borrowingToRevenueFlag :- BorrowingToRevenueFlag(data, index);
    var iscrFlag :- IscrFlag(data, index);
    Ok(map[FlagsKey := map[
                         TotalRevenue5crFlagKey := totalRevenue5crFlag,
                         BorrowingToRevenueFlagKey := borrowingToRevenueFlag,
                         IscrFlagKey := iscrFlag]])
  }

  /** The revenue and ISCR flags are GREEN or RED, the borrowing flag GREEN
      or AMBER; MEDIUM_RISK and WHITE never appear. */
  lemma ProbeFlagValues(data: Document)
    requires ProbeModel5lProfit(data).Ok?
    ensures var flags := ProbeModel5lProfit(data).value[FlagsKey];
            && flags[TotalRevenue5crFlagKey] in {Green, Red}
            && flags[BorrowingToRevenueFlagKey] in {Green, Amber}
            && flags[IscrFlagKey] in {Green, Red}
            && forall name :: name in flags ==> flags[name] != MediumRisk && flags[name] != White
  {
  }

  /** No rule raises for period i: a `total_revenue` entry used as a divisor
      is non-zero, and so is the revenue `total_borrowing` divides by when
      there is a balance-sheet entry, which then has both borrowing keys; an
      interest expense in range is not -1. */
  predicate RulesDefinedAt(data: Document, i: nat) {
    && (HasRevenueEntry(data, i) ==>
          && data.totalRevenue.items[i] != 0.0
          && (HasBalanceSheetEntry(data, i) ==>
                HasBorrowings(data, i) && TotalRevenue(data, i).Some? && TotalRevenue(data, i).value != 0.0))
    && (IscrInRange(data, i) ==> Interests(data)[i] != -1.0)
  }

  /** The pipeline returns a mapping exactly when `financials` is present and
      no rule raises for the selected period. */
  lemma ProbeSucceedsExactly(data: Document)
    ensures ProbeModel5lProfit(data).Ok? <==>
              data.financials.Some? && RulesDefinedAt(data, LatestFinancialIndex(data).value)
  {
  }
}
