/** Worked documents: the evaluation of small, concrete inputs. */
module Scenarios {
  import opened Outcomes
  import opened Rules
  import opened App

  function Period(nature: string, netRevenue: real): FinancialEntry {
    FinancialEntry(Some(nature), Some(Pnl(Some(LineItems(Some(netRevenue))))))
  }

  /** A CONSOLIDATED period followed by a STANDALONE one with 60,000,000 net
      revenue: period 1 is selected and its revenue flag is GREEN. With no
      other keys the borrowing flag takes its AMBER default and the ISCR
      its 0.0 default, hence RED. */
  lemma StandaloneSecondPeriod()
    ensures var data := Document(
              Some([FinancialEntry(Some("CONSOLIDATED"), None), Period("STANDALONE", 60000000.0)]),
              Absent, None, None, Absent);
            && LatestFinancialIndex(data) == Ok(1)
            && TotalRevenue5crFlag(data, 1) == Green
            && ProbeModel5lProfit(data) == Ok(map[FlagsKey := map[
                 TotalRevenue5crFlagKey := Green,
                 BorrowingToRevenueFlagKey := Amber,
                 IscrFlagKey := Red]])
  {
  }

  /** Profit 9 and interest 4 give an ISCR of (9 + 1) / (4 + 1) = 2, which
      is GREEN. */
  lemma IscrOfTwoIsGreen()
    ensures var data := Document(Some([]), Absent, Some([9.0]), Some([4.0]), Absent);
            Iscr(data, 0) == Ok(2.0) && IscrFlag(data, 0) == Ok(Green)
  {
  }

  /** Without `bs` the borrowing ratio is the 0.0 default for every period. */
  lemma NoBalanceSheet(i: nat)
    ensures TotalBorrowing(Document(Some([]), Absent, None, None, Absent), i) == Ok(DefaultZero)
  {
  }

  /** `total_revenue` [100] and borrowings 10 + 15, but no net revenue under
      `financials`: `total_borrowing` divides by `None` and raises. */
  lemma BorrowingWithoutNetRevenueRaises()
    ensures var data := Document(
              Some([]), List([BalanceSheetEntry(Some([10.0]), Some([15.0]))]), None, None, List([100.0]));
            BorrowingToRevenueFlag(data, 0) == Raised(NoneInDivision)
  {
  }

  /** With net revenue 100 as well, `total_borrowing` is 25 / 100 = 0.25 and
      the flag compares 0.25 / 100 with 0.25: GREEN. Borrowings of 50 (half
      the revenue) are GREEN too, since 0.5 / 100 <= 0.25. */
  lemma BorrowingFlagDividesTwice()
    ensures var data := Document(
              Some([Period("STANDALONE", 100.0)]),
              List([BalanceSheetEntry(Some([10.0]), Some([15.0]))]), None, None, List([100.0]));
            TotalBorrowing(data, 0) == Ok(Ratio(0.25)) && BorrowingToRevenueFlag(data, 0) == Ok(Green)
    ensures var data := Document(
              Some([Period("STANDALONE", 100.0)]),
              List([BalanceSheetEntry(Some([50.0]), Some([]))]), None, None, List([100.0]));
            TotalBorrowing(data, 0) == Ok(Ratio(0.5)) && BorrowingToRevenueFlag(data, 0) == Ok(Green)
  {
  }

  /** Borrowings spread over several entries are added up: long-term
      [10, 5] and short-term [7, 3] over net revenue 100 give 25 / 100. */
  lemma BorrowingsAreSummed()
    ensures var data := Document(
              Some([Period("STANDALONE", 100.0)]),
              List([BalanceSheetEntry(Some([10.0, 5.0]), Some([7.0, 3.0]))]), None, None, Absent);
            TotalBorrowing(data, 0) == Ok(Ratio(0.25))
  {
    assert [10.0, 5.0][..1] == [10.0] && [10.0][..0] == [];
    assert [7.0, 3.0][..1] == [7.0] && [7.0][..0] == [];
    assert Sum([10.0, 5.0]) == Sum([10.0]) + 5.0 == 15.0;
    assert Sum([7.0, 3.0]) == Sum([7.0]) + 3.0 == 10.0;
  }
}
