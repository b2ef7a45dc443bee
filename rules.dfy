/** The flag-evaluation rules: period selection, metric extraction and the
    three threshold classifiers, over one parsed financial-statement
    document. Every rule is a pure function of the document and a period
    index; an exception the rule would raise is returned as `Raised`. */
module Rules {
  import opened Outcomes

  // ---------------------------------------------------------------------
  // Flags

  /** The flag enumeration; MediumRisk and White are for display only. */
  datatype Flag = Red | Green | Amber | MediumRisk | White

  /** The integer each flag stands for in the result mapping. */
  function Code(f: Flag): (c: nat)
    ensures FromCode(c) == Some(f)
  {
    match f
    case Red => 0
    case Green => 1
    case Amber => 2
    case MediumRisk => 3
    case White => 4
  }

  /** The integers of the five flags. */
  lemma FlagCodes()
    ensures Code(Red) == 0 && Code(Green) == 1 && Code(Amber) == 2
    ensures Code(MediumRisk) == 3 && Code(White) == 4
  {
  }

  /** Reads a flag back from its integer, as a consumer of the mapping does. */
  function FromCode(c: int): (f: Option<Flag>)
    ensures f.Some? <==> 0 <= c <= 4
  {
    if c == 0 then Some(Red)
    else if c == 1 then Some(Green)
    else if c == 2 then Some(Amber)
    else if c == 3 then Some(MediumRisk)
    else if c == 4 then Some(White)
    else None
  }

  // ---------------------------------------------------------------------
  // The document

  /** A key that the rules test with `isinstance(..., list)`: absent,
      present with some other type, or a list. */
  datatype Listing<+T> = Absent | NotList | List(items: seq<T>)

  datatype LineItems = LineItems(netRevenue: Option<real>)

  datatype Pnl = Pnl(lineItems: Option<LineItems>)

  /** One reporting period: its accounting basis and its profit and loss. */
  datatype FinancialEntry = FinancialEntry(nature: Option<string>, pnl: Option<Pnl>)

  /** One balance-sheet period: the borrowings to be summed. */
  datatype BalanceSheetEntry =
    BalanceSheetEntry(longTermBorrowings: Option<seq<real>>, shortTermBorrowings: Option<seq<real>>)

  /** The parsed document; every `Option` is a key that may be missing. */
  datatype Document = Document(
    financials: Option<seq<FinancialEntry>>,
    bs: Listing<BalanceSheetEntry>,
    profitBeforeInterestTaxDeprec: Option<seq<real>>,
    interestExpenses: Option<seq<real>>,
    totalRevenue: Listing<real>)

  const Standalone: string := "STANDALONE"
  const LongTermKey: string := "long_term_borrowings"
  const ShortTermKey: string := "short_term_borrowings"

  // ---------------------------------------------------------------------
  // Period selection

  predicate IsStandalone(e: FinancialEntry) {
    e.nature == Some(Standalone)
  }

  /** Entry i is STANDALONE and no earlier entry is. */
  predicate IsFirstStandalone(fs: seq<FinancialEntry>, i: int) {
    0 <= i < |fs| && IsStandalone(fs[i]) && forall j :: 0 <= j < i ==> !IsStandalone(fs[j])
  }

  predicate NoStandalone(fs: seq<FinancialEntry>) {
    forall j :: 0 <= j < |fs| ==> !IsStandalone(fs[j])
  }

  /** Position of the first STANDALONE entry, or |fs| when there is none. */
  function FindStandalone(fs: seq<FinancialEntry>): (k: nat)
    ensures k <= |fs|
    ensures k < |fs| ==> IsFirstStandalone(fs, k)
    ensures k == |fs| ==> NoStandalone(fs)
  {
    if fs == [] || IsStandalone(fs[0]) then 0
    else
      var k := 1 + FindStandalone(fs[1..]);
      assert forall j :: 1 <= j < |fs| ==> fs[j] == fs[1..][j - 1];
      k
  }

  /** The period to evaluate: the first STANDALONE entry, else 0. Iterating
      over a missing `financials` list raises. */
  function LatestFinancialIndex(data: Document): (r: Outcome<nat>)
    ensures r.Raised? <==> data.financials.None?
    ensures r.Raised? ==> r.fault == NoneNotIterable
    ensures r.Ok? ==> IsFirstStandalone(data.financials.value, r.value)
                      || (NoStandalone(data.financials.value) && r.value == 0)
    ensures r.Ok? && |data.financials.value| > 0 ==> r.value < |data.financials.value|
  {
    match data.financials
    case None => Raised(NoneNotIterable)
    case Some(fs) =>
      var k := FindStandalone(fs);
      Ok(if k < |fs| then k else 0)
  }

  /** The scan as the program writes it: a loop over the entries that
      returns at the first STANDALONE one. */
  method ScanLatestFinancialIndex(data: Document) returns (r: Outcome<nat>)
    ensures r == LatestFinancialIndex(data)
  {
    if data.financials.None? {
      return Raised(NoneNotIterable);
    }
    var fs := data.financials.value;
    var index := 0;
    while index < |fs|
      invariant 0 <= index <= |fs|
      invariant forall j :: 0 <= j < index ==> !IsStandalone(fs[j])
    {
      if IsStandalone(fs[index]) {
        return Ok(index);
      }
      index := index + 1;
    }
    return Ok(0);
  }

  /** The selected index is exactly the first STANDALONE position, or 0 when
      there is none (an empty list included). */
  lemma SelectionCharacterised(data: Document, i: nat)
    requires data.financials.Some?
    ensures LatestFinancialIndex(data) == Ok(i) <==>
              IsFirstStandalone(data.financials.value, i)
              || (NoStandalone(data.financials.value) && i == 0)
  {
  }

  // ---------------------------------------------------------------------
  // Revenue

  /** The whole key chain `pnl.lineItems.netRevenue` exists. */
  predicate HasNetRevenue(e: FinancialEntry) {
    e.pnl.Some? && e.pnl.value.lineItems.Some? && e.pnl.value.lineItems.value.netRevenue.Some?
  }

  /** Net revenue of period i, or `None` if any link of the chain (the
      `financials` key, the index, `pnl`, `lineItems`, `netRevenue`) is
      missing. */
  function TotalRevenue(data: Document, i: int): (r: Option<real>)
    ensures r.Some? <==>
              data.financials.Some? && 0 <= i < |data.financials.value|
              && HasNetRevenue(data.financials.value[i])
    ensures r.Some? ==> r.value == data.financials.value[i].pnl.value.lineItems.value.netRevenue.value
  {
    var fs :- data.financials;
    var entry :- At(fs, i);
    var pnl :- entry.pnl;
    var lineItems :- pnl.lineItems;
    lineItems.netRevenue
  }

  // ---------------------------------------------------------------------
  // Borrowings

  /** Python's `sum`, adding from the left; a list of non-negative
      amounts has a non-negative sum. */
  function Sum(xs: seq<real>): (total: real)
    ensures (forall x :: x in xs ==> x >= 0.0) ==> total >= 0.0
  {
    if xs == [] then 0.0
    else
      var init := xs[..|xs| - 1];
      assert forall x :: x in init ==> x in xs;
      assert xs[|xs| - 1] in xs;
      Sum(init) + xs[|xs| - 1]
  }

  /** What `total_borrowing` returns: a ratio, `None` (revenue is zero),
      or its `0.0` default (no balance-sheet entry for the period). */
  datatype Borrowing = Ratio(value: real) | NoRatio | DefaultZero {
    /** The Python value: a number, or `None`. */
    function Numeric(): Option<real>
    {
      match this
      case Ratio(x) => Some(x)
      case NoRatio => None
      case DefaultZero => Some(0.0)
    }
  }

  /** `bs` is a list and has an entry for period i. */
  predicate HasBalanceSheetEntry(data: Document, i: int) {
    data.bs.List? && 0 <= i < |data.bs.items|
  }

  /** ... and that entry has both borrowing keys. */
  predicate HasBorrowings(data: Document, i: int) {
    HasBalanceSheetEntry(data, i)
    && data.bs.items[i].longTermBorrowings.Some?
    && data.bs.items[i].shortTermBorrowings.Some?
  }

  /** Long-term plus short-term borrowings of period i. */
  function BorrowingsAt(data: Document, i: int): real
    requires HasBorrowings(data, i)
  {
    Sum(data.bs.items[i].longTermBorrowings.value) + Sum(data.bs.items[i].shortTermBorrowings.value)
  }

  /** Ratio of the borrowings of period i to its net revenue. */
  function TotalBorrowing(data: Document, i: int): (r: Outcome<Borrowing>)
    requires 0 <= i
    ensures r == Ok(DefaultZero) <==> !HasBalanceSheetEntry(data, i)
    ensures r == Raised(MissingKey(LongTermKey)) <==>
              HasBalanceSheetEntry(data, i) && data.bs.items[i].longTermBorrowings.None?
    ensures r == Raised(MissingKey(ShortTermKey)) <==>
              HasBalanceSheetEntry(data, i) && data.bs.items[i].longTermBorrowings.Some?
              && data.bs.items[i].shortTermBorrowings.None?
    ensures r == Raised(NoneInDivision) <==> HasBorrowings(data, i) && TotalRevenue(data, i).None?
    ensures r == Ok(NoRatio) <==> HasBorrowings(data, i) && TotalRevenue(data, i) == Some(0.0)
    ensures r.Ok? && r.value.Ratio? <==>
              HasBorrowings(data, i) && TotalRevenue(data, i).Some? && TotalRevenue(data, i).value != 0.0
    ensures r.Ok? && r.value.Ratio? ==>
              r.value.value * TotalRevenue(data, i).value == BorrowingsAt(data, i)
  {
    if data.bs.List? && i < |data.bs.items| then
      var entry := data.bs.items[i];
      if entry.longTermBorrowings.None? then Raised(MissingKey(LongTermKey))
      else if entry.shortTermBorrowings.None? then Raised(MissingKey(ShortTermKey))
      else
        var longTerm := Sum(entry.longTermBorrowings.value);
        var shortTerm := Sum(entry.shortTermBorrowings.value);
        var revenue := TotalRevenue(data, i);
        if revenue != Some(0.0) then
          var ratio :- PyDivide(Some(longTerm + shortTerm), revenue);
          Ok(Ratio(ratio))
        else
          Ok(NoRatio)
    else
      Ok(DefaultZero)
  }

  /** When every borrowing is non-negative and revenue is positive, the
      ratio is non-negative. */
  lemma BorrowingRatioNonNegative(data: Document, i: int)
    requires 0 <= i && HasBorrowings(data, i)
    requires forall x :: x in data.bs.items[i].longTermBorrowings.value ==> x >= 0.0
    requires forall x :: x in data.bs.items[i].shortTermBorrowings.value ==> x >= 0.0
    requires TotalRevenue(data, i).Some? && TotalRevenue(data, i).value > 0.0
    ensures TotalBorrowing(data, i).Ok? && TotalBorrowing(data, i).value.Ratio?
    ensures TotalBorrowing(data, i).value.value >= 0.0
  {
  }

  // ---------------------------------------------------------------------
  // Interest service coverage ratio

  /** `data.get(key, [])`. */
  function ListOrEmpty(o: Option<seq<real>>): seq<real>
  {
    match o
    case Some(ys) => ys
    case None => []
  }

  function Profits(data: Document): seq<real> {
    ListOrEmpty(data.profitBeforeInterestTaxDeprec)
  }

  function Interests(data: Document): seq<real> {
    ListOrEmpty(data.interestExpenses)
  }

  function Min(a: int, b: int): int {
    if a <= b then a else b
  }

  /** i is an index of both the profit list and the interest list. */
  predicate IscrInRange(data: Document, i: int) {
    0 <= i < |Profits(data)| && i < |Interests(data)|
  }

  /** (profit + 1) / (interest + 1) for period i, 0.0 out of range; an
      interest expense of exactly -1 divides by zero. */
  function Iscr(data: Document, i: int): (r: Outcome<real>)
    ensures !IscrInRange(data, i) ==> r == Ok(0.0)
    ensures IscrInRange(data, i) ==> (r.Raised? <==> Interests(data)[i] == -1.0)
    ensures r.Raised? ==> r.fault == DivisionByZero
    ensures IscrInRange(data, i) && r.Ok? ==>
              r.value * (Interests(data)[i] + 1.0) == Profits(data)[i] + 1.0
  {
    var profits := Profits(data);
    var interests := Interests(data);
    if 0 <= i < Min(|profits|, |interests|) then
      PyDivide(Some(profits[i] + 1.0), Some(interests[i] + 1.0))
    else
      Ok(0.0)
  }

  // ---------------------------------------------------------------------
  // Classifiers

  const IscrThreshold: real := 2.0
  const RevenueThreshold: real := 50000000.0
  const BorrowingRatioLimit: real := 0.25

  /** GREEN when the ISCR is at least 2, otherwise RED. */
  function IscrFlag(data: Document, i: int): (r: Outcome<Flag>)
    ensures r.Raised? <==> Iscr(data, i).Raised?
    ensures r.Raised? ==> r.fault == DivisionByZero
    ensures r.Ok? ==> (r.value == Green <==> Iscr(data, i).value >= IscrThreshold)
    ensures r.Ok? ==> r.value == Green || r.value == Red
    ensures !IscrInRange(data, i) ==> r == Ok(Red)
  {
    var value :- Iscr(data, i);
    Ok(if value >= IscrThreshold then Green else Red)
  }

  /** With a positive denominator the ISCR flag is GREEN exactly when
      profit + 1 is at least twice interest + 1. */
  lemma IscrFlagByCoverage(data: Document, i: int)
    requires IscrInRange(data, i) && Interests(data)[i] + 1.0 > 0.0
    ensures IscrFlag(data, i) == Ok(Green) <==>
              Profits(data)[i] + 1.0 >= IscrThreshold * (Interests(data)[i] + 1.0)
  {
  }

  /** GREEN when the net revenue exists and is at least 50,000,000,
      otherwise RED. */
  function TotalRevenue5crFlag(data: Document, i: int): (f: Flag)
    ensures f == Green <==> TotalRevenue(data, i).Some? && TotalRevenue(data, i).value >= RevenueThreshold
    ensures f == Green || f == Red
  {
    var revenue := TotalRevenue(data, i);
    if revenue.Some? && revenue.value >= RevenueThreshold then Green else Red
  }

  /** `total_revenue` is a list with an entry for period i. */
  predicate HasRevenueEntry(data: Document, i: int) {
    data.totalRevenue.List? && 0 <= i < |data.totalRevenue.items|
  }

  /** Divides `total_borrowing`'s result by the `total_revenue` entry of
      period i: GREEN when that is at most 0.25, otherwise AMBER; AMBER
      when there is no such entry. */
  function BorrowingToRevenueFlag(data: Document, i: int): (r: Outcome<Flag>)
    requires 0 <= i
    ensures !HasRevenueEntry(data, i) ==> r == Ok(Amber)
    ensures HasRevenueEntry(data, i) && TotalBorrowing(data, i).Raised? ==>
              r == Raised(TotalBorrowing(data, i).fault)
    ensures HasRevenueEntry(data, i) && TotalBorrowing(data, i) == Ok(NoRatio) ==>
              r == Raised(NoneInDivision)
    ensures HasRevenueEntry(data, i) && TotalBorrowing(data, i).Ok?
            && TotalBorrowing(data, i).value.Numeric().Some? && data.totalRevenue.items[i] == 0.0 ==>
              r == Raised(DivisionByZero)
    ensures r == Ok(Green) <==>
              HasRevenueEntry(data, i) && TotalBorrowing(data, i).Ok?
              && TotalBorrowing(data, i).value.Numeric().Some? && data.totalRevenue.items[i] != 0.0
              && TotalBorrowing(data, i).value.Numeric().value / data.totalRevenue.items[i] <= BorrowingRatioLimit
    ensures r == Ok(Amber) <==>
              !HasRevenueEntry(data, i)
              || (&& TotalBorrowing(data, i).Ok?
                  && TotalBorrowing(data, i).value.Numeric().Some? && data.totalRevenue.items[i] != 0.0
                  && TotalBorrowing(data, i).value.Numeric().value / data.totalRevenue.items[i] > BorrowingRatioLimit)
    ensures r.Raised? ==>
              HasRevenueEntry(data, i)
              && (|| TotalBorrowing(data, i).Raised?
                  || TotalBorrowing(data, i) == Ok(NoRatio)
                  || data.totalRevenue.items[i] == 0.0)
    ensures r.Ok? ==> r.value == Green || r.value == Amber
  {
    if data.totalRevenue.List? && i < |data.totalRevenue.items| then
      var borrowing :- TotalBorrowing(data, i);
      var revenue := data.totalRevenue.items[i];
      var ratio :- PyDivide(borrowing.Numeric(), Some(revenue));
      Ok(if ratio <= BorrowingRatioLimit then Green else Amber)
    else
      Ok(Amber)
  }

  /** Without a balance-sheet entry the borrowing ratio defaults to 0.0, so
      the flag is GREEN whenever the revenue entry is non-zero. */
  lemma BorrowingFlagGreenWithoutBalanceSheet(data: Document, i: int)
    requires 0 <= i && HasRevenueEntry(data, i) && !HasBalanceSheetEntry(data, i)
    requires data.totalRevenue.items[i] != 0.0
    ensures BorrowingToRevenueFlag(data, i) == Ok(Green)
  {
  }

  /** When the `total_revenue` entry equals the net revenue that
      `total_borrowing` divides by, the flag divides the borrowings by the
      revenue twice: it is GREEN exactly when 4 * borrowings <= revenue^2. */
  lemma BorrowingFlagOnAlignedRevenue(data: Document, i: int)
    requires 0 <= i && HasRevenueEntry(data, i) && HasBorrowings(data, i)
    requires data.totalRevenue.items[i] != 0.0
    requires TotalRevenue(data, i) == Some(data.totalRevenue.items[i])
    ensures BorrowingToRevenueFlag(data, i) == Ok(Green) <==>
              4.0 * BorrowingsAt(data, i) <= data.totalRevenue.items[i] * data.totalRevenue.items[i]
  {
    var rev := data.totalRevenue.items[i];
    var q := TotalBorrowing(data, i).value.value;
    RatioOfRatio(q, rev, BorrowingsAt(data, i));
  }

  /** Arithmetic step: if q * rev == b then q / rev <= 0.25 exactly when
      4 * b <= rev^2. */
  lemma RatioOfRatio(q: real, rev: real, b: real)
    requires rev != 0.0 && q * rev == b
    ensures q / rev <= BorrowingRatioLimit <==> 4.0 * b <= rev * rev
  {
    var s := q / rev;
    var square := rev * rev;
    assert s * rev == q;
    assert s * square == b;
    if s <= BorrowingRatioLimit {
      assert s * square <= BorrowingRatioLimit * square;
    } else {
      assert s * square > BorrowingRatioLimit * square;
    }
  }
}
