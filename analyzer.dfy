/**
 * The financial analyzer of modules/finance/services/analyzer.py: the
 * date filter, the per-period category report with its cache, the cost
 * charged to one athlete, the budget status and the free-text search.
 *
 * The stored records are passed in (they are what `load_all` returns);
 * `datetime.now()` is the parameter `now`, a moment in seconds.
 */
module Analysis {
  import opened Common
  import opened FinanceRules
  import opened Ledger
  import opened Dates
  import FinanceService

  // ---------------------------------------------------------------------
  // The date filter

  /**
   * `is_date_in_range`: the first word of the text is read as
   * `%d-%m-%Y`; a date that does not parse is simply out of range, while
   * a blank text raises `IndexError`, which is not caught.
   */
  function IsDateInRange(target: string, start: int, end: int): (r: Result<bool, PyError>)
    ensures r.Err? <==> IsBlank(target)
    ensures r.Err? ==> r.error == IndexError
    ensures r == Ok(true) ==>
      var d := ParseDate(FirstWord(target).value);
      d.Some? && start <= Midnight(d.value) <= end
    ensures !IsBlank(target) ==>
      var d := ParseDate(FirstWord(target).value);
      r == Ok(d.Some? && start <= Midnight(d.value) <= end)
  {
    match FirstWord(target)
    case None => Err(IndexError)
    case Some(word) =>
      match ParseDate(word)
      case None => Ok(false)
      case Some(d) => Ok(start <= Midnight(d) <= end)
  }

  /** No character of a formatted date is whitespace. */
  lemma FormatDateHasNoSpace(d: Date)
    requires Valid(d) && d.year >= 1000
    ensures FormatDate(d) != [] && forall i :: 0 <= i < |FormatDate(d)| ==> !IsSpace(FormatDate(d)[i])
  {
    var s := FormatDate(d);
    forall i | 0 <= i < |s| ensures !IsSpace(s[i]) {
      assert IsDigit(s[i]) || s[i] == '-';
    }
  }

  /**
   * A timestamp as `Transaction` writes it (`"%d-%m-%Y %H:%M:%S"`) is in
   * range exactly when midnight of its date is.
   */
  lemma TimestampInRange(d: Date, time: string, start: int, end: int)
    requires Valid(d) && d.year >= 1000
    ensures IsDateInRange(FormatDate(d) + " " + time, start, end) == Ok(start <= Midnight(d) <= end)
  {
    FormatDateHasNoSpace(d);
    FirstWordOfWordThenSpace(FormatDate(d), time);
    ParseFormatDate(d);
  }

  // ---------------------------------------------------------------------
  // The period report

  /** The days `analyze_by_period` looks back for each period it knows. */
  function PeriodDays(period: string): (r: Option<int>)
    ensures r.Some? <==> period == "week" || period == "month" || period == "year"
    ensures period == "week" ==> r == Some(7)
    ensures period == "month" ==> r == Some(30)
    ensures period == "year" ==> r == Some(365)
  {
    if period == "week" then Some(7)
    else if period == "month" then Some(30)
    else if period == "year" then Some(365)
    else None
  }

  /** The (category, amount) pairs of the income and of the expense records in range. */
  datatype Collected = Collected(income: seq<(string, real)>, expense: seq<(string, real)>)

  /**
   * One record taken into the report: a blank date raises, a record out
   * of range is skipped, and one in range is filed under its type, which
   * must be income or expense (`report[t_type]` raises `KeyError`
   * otherwise).
   */
  function FileRecord(c: Collected, r: Record, start: int, end: int): Result<Collected, PyError>
  {
    match IsDateInRange(r.date, start, end)
    case Err(e) => Err(e)
    case Ok(false) => Ok(c)
    case Ok(true) =>
      if r.kind == Income.Value() then Ok(c.(income := c.income + [(r.category, r.amount)]))
      else if r.kind == Expense.Value() then Ok(c.(expense := c.expense + [(r.category, r.amount)]))
      else Err(KeyError(r.kind))
  }

  /** The records taken in order; the first record that raises ends the report. */
  function Collect(rs: seq<Record>, start: int, end: int): Result<Collected, PyError>
  {
    if rs == [] then Ok(Collected([], []))
    else
      match Collect(rs[..|rs| - 1], start, end)
      case Err(e) => Err(e)
      case Ok(c) => FileRecord(c, rs[|rs| - 1], start, end)
  }

  lemma CollectSnoc(rs: seq<Record>, i: nat, start: int, end: int)
    requires i < |rs|
    ensures Collect(rs[..i], start, end).Err? ==> Collect(rs[..i + 1], start, end) == Collect(rs[..i], start, end)
    ensures Collect(rs[..i], start, end).Ok? ==>
      Collect(rs[..i + 1], start, end) == FileRecord(Collect(rs[..i], start, end).value, rs[i], start, end)
  {
    assert rs[..i + 1][..i] == rs[..i];
  }

  /** Records in range, with dates that are not blank and a known type, are collected without error. */
  lemma {:induction false} CollectSucceeds(rs: seq<Record>, start: int, end: int)
    requires forall i :: 0 <= i < |rs| ==> !IsBlank(rs[i].date)
    requires forall i :: 0 <= i < |rs| ==> rs[i].kind == Income.Value() || rs[i].kind == Expense.Value()
    ensures Collect(rs, start, end).Ok?
  {
    if rs != [] {
      CollectSucceeds(rs[..|rs| - 1], start, end);
    }
  }

  /**
   * A record in range whose type is neither income nor expense, which
   * `add_transaction` accepts, makes the whole report raise.
   */
  lemma {:induction false} CollectFailsOnUnknownType(rs: seq<Record>, start: int, end: int)
    requires rs != []
    requires IsDateInRange(rs[|rs| - 1].date, start, end) == Ok(true)
    requires rs[|rs| - 1].kind != Income.Value() && rs[|rs| - 1].kind != Expense.Value()
    ensures Collect(rs, start, end).Err?
  {
  }

  /** The record is of type `kind` and its date lies in the window. */
  predicate InWindow(r: Record, kind: string, start: int, end: int)
  {
    r.kind == kind && IsDateInRange(r.date, start, end) == Ok(true)
  }

  /**
   * The (category, amount) pairs of the records of type `kind` whose date
   * lies in the window, in ledger order.
   */
  function InRange(rs: seq<Record>, kind: string, start: int, end: int): (r: seq<(string, real)>)
    ensures |r| <= |rs|
  {
    if rs == [] then []
    else
      var init, last := rs[..|rs| - 1], rs[|rs| - 1];
      var kept := InRange(init, kind, start, end);
      if InWindow(last, kind, start, end) then kept + [(last.category, last.amount)] else kept
  }

  /** Every in-range record of the type contributes its pair. */
  lemma {:induction false} InRangeKeeps(rs: seq<Record>, kind: string, start: int, end: int, i: nat)
    requires i < |rs| && InWindow(rs[i], kind, start, end)
    ensures (rs[i].category, rs[i].amount) in InRange(rs, kind, start, end)
    decreases |rs|
  {
    var init := rs[..|rs| - 1];
    if i < |rs| - 1 {
      assert init[i] == rs[i];
      InRangeKeeps(init, kind, start, end, i);
    }
  }

  /** Every pair comes from an in-range record of the type. */
  lemma {:induction false} InRangeSource(rs: seq<Record>, kind: string, start: int, end: int, j: nat)
    requires j < |InRange(rs, kind, start, end)|
    ensures exists i ::
      0 <= i < |rs| && InWindow(rs[i], kind, start, end) && InRange(rs, kind, start, end)[j] == (rs[i].category, rs[i].amount)
    decreases |rs|
  {
    var init := rs[..|rs| - 1];
    var kept := InRange(init, kind, start, end);
    if j < |kept| {
      InRangeSource(init, kind, start, end, j);
      var i :| 0 <= i < |init| && InWindow(init[i], kind, start, end) && kept[j] == (init[i].category, init[i].amount);
      assert init[i] == rs[i];
    } else {
      assert InWindow(rs[|rs| - 1], kind, start, end);
    }
  }

  /** A record that makes the report raise: a blank date, or an unknown type in range. */
  predicate Raises(r: Record, start: int, end: int)
  {
    IsBlank(r.date) ||
    (IsDateInRange(r.date, start, end) == Ok(true) && r.kind != Income.Value() && r.kind != Expense.Value())
  }

  /**
   * Collecting fails exactly when some record raises. Otherwise the income
   * and the expense pairs are those of the in-range records of each type,
   * in ledger order.
   */
  lemma {:induction false} CollectFiles(rs: seq<Record>, start: int, end: int)
    ensures Collect(rs, start, end).Err? <==> exists i :: 0 <= i < |rs| && Raises(rs[i], start, end)
    ensures Collect(rs, start, end).Ok? ==>
      Collect(rs, start, end).value == Collected(InRange(rs, Income.Value(), start, end), InRange(rs, Expense.Value(), start, end))
  {
    if rs != [] {
      var init, last := rs[..|rs| - 1], rs[|rs| - 1];
      CollectFiles(init, start, end);
      assert forall i :: 0 <= i < |init| ==> init[i] == rs[i];
      assert (exists i :: 0 <= i < |rs| && Raises(rs[i], start, end)) <==>
        (exists i :: 0 <= i < |init| && Raises(init[i], start, end)) || Raises(last, start, end);
      match Collect(init, start, end)
      case Err(_) =>
      case Ok(c) =>
        assert Income.Value() != Expense.Value();
        assert FileRecord(c, last, start, end).Err? <==> Raises(last, start, end);
    }
  }

  /** The report of one period: category totals per transaction type. */
  datatype PeriodReport =
    | UnknownPeriod
    | Report(income: map<string, real>, expense: map<string, real>)

  /**
   * What `analyze_by_period` returns for records `rs` at moment `now`: an
   * unknown period gives the empty report; otherwise the report raises
   * exactly when some record does, and else totals the in-range income and
   * expense records per category.
   */
  function PeriodReportOf(rs: seq<Record>, period: string, now: int): (r: Result<PeriodReport, PyError>)
    ensures PeriodDays(period).None? ==> r == Ok(UnknownPeriod)
    ensures PeriodDays(period).Some? ==>
      var start := now - PeriodDays(period).value * SecondsPerDay;
      (r.Err? <==> exists i :: 0 <= i < |rs| && Raises(rs[i], start, now)) &&
      (r.Ok? ==> r.value == Report(Totals(InRange(rs, Income.Value(), start, now)),
                                   Totals(InRange(rs, Expense.Value(), start, now))))
  {
    match PeriodDays(period)
    case None => Ok(UnknownPeriod)
    case Some(days) =>
      CollectFiles(rs, now - days * SecondsPerDay, now);
      match Collect(rs, now - days * SecondsPerDay, now)
      case Err(e) => Err(e)
      case Ok(c) => Ok(Report(Totals(c.income), Totals(c.expense)))
  }

  /** A category occurs among the in-range pairs exactly when some in-range record has it. */
  lemma InRangeHasCategory(rs: seq<Record>, kind: string, start: int, end: int, category: string)
    ensures (exists j :: 0 <= j < |InRange(rs, kind, start, end)| && InRange(rs, kind, start, end)[j].0 == category) <==>
      (exists i :: 0 <= i < |rs| && InWindow(rs[i], kind, start, end) && rs[i].category == category)
  {
    var pairs := InRange(rs, kind, start, end);
    if i :| 0 <= i < |rs| && InWindow(rs[i], kind, start, end) && rs[i].category == category {
      InRangeKeeps(rs, kind, start, end, i);
      var j :| 0 <= j < |pairs| && pairs[j] == (rs[i].category, rs[i].amount);
    }
    if j :| 0 <= j < |pairs| && pairs[j].0 == category {
      InRangeSource(rs, kind, start, end, j);
    }
  }

  /** The totals of one type hold a category exactly when an in-range record has it, with their sum. */
  lemma KindTotals(rs: seq<Record>, kind: string, start: int, end: int, category: string)
    ensures var pairs := InRange(rs, kind, start, end);
      (category in Totals(pairs) ==> Totals(pairs)[category] == SumFor(pairs, category)) &&
      (category in Totals(pairs) <==>
        exists i :: 0 <= i < |rs| && InWindow(rs[i], kind, start, end) && rs[i].category == category)
  {
    TotalsAreSums(InRange(rs, kind, start, end), category);
    InRangeHasCategory(rs, kind, start, end, category);
  }

  /**
   * A category appears in the income part of the report exactly when some
   * in-range income record has it, and then holds the sum of those records'
   * amounts; likewise for expense.
   */
  lemma ReportTotals(rs: seq<Record>, period: string, now: int, category: string)
    requires PeriodReportOf(rs, period, now).Ok? && PeriodReportOf(rs, period, now).value.Report?
    ensures var report := PeriodReportOf(rs, period, now).value;
      var start := now - PeriodDays(period).value * SecondsPerDay;
      var income, expense := InRange(rs, Income.Value(), start, now), InRange(rs, Expense.Value(), start, now);
      (category in report.income ==> report.income[category] == SumFor(income, category)) &&
      (category in report.expense ==> report.expense[category] == SumFor(expense, category)) &&
      (category in report.income <==>
        exists i :: 0 <= i < |rs| && InWindow(rs[i], Income.Value(), start, now) && rs[i].category == category) &&
      (category in report.expense <==>
        exists i :: 0 <= i < |rs| && InWindow(rs[i], Expense.Value(), start, now) && rs[i].category == category)
  {
    var start := now - PeriodDays(period).value * SecondsPerDay;
    KindTotals(rs, Income.Value(), start, now, category);
    KindTotals(rs, Expense.Value(), start, now, category);
  }

  // ---------------------------------------------------------------------
  // Athlete cost, search

  /** The expense records whose description mentions `athleteId`. */
  function AthleteExpenses(rs: seq<Record>, athleteId: string): (r: seq<Record>)
    ensures forall i :: 0 <= i < |r| ==> r[i].kind == Expense.Value() && Contains(r[i].description, athleteId)
    ensures forall i :: 0 <= i < |rs| && rs[i].kind == Expense.Value() && Contains(rs[i].description, athleteId) ==>
      rs[i] in r
  {
    if rs == [] then []
    else
      var last := rs[|rs| - 1];
      var kept := AthleteExpenses(rs[..|rs| - 1], athleteId);
      assert rs == rs[..|rs| - 1] + [last];
      if last.kind == Expense.Value() && Contains(last.description, athleteId) then kept + [last] else kept
  }

  /** The athlete's expenses keep the ledger's order. */
  lemma {:induction false} AthleteExpensesInOrder(rs: seq<Record>, athleteId: string)
    ensures SubseqOf(AthleteExpenses(rs, athleteId), rs)
  {
    if rs != [] {
      var init, last := rs[..|rs| - 1], rs[|rs| - 1];
      assert rs == init + [last];
      AthleteExpensesInOrder(init, athleteId);
      SubseqOfSnoc(AthleteExpenses(init, athleteId), init, last);
    }
  }

  /** The sum of the amounts of `rs`. */
  function SumAmounts(rs: seq<Record>): real
  {
    if rs == [] then 0.0 else SumAmounts(rs[..|rs| - 1]) + rs[|rs| - 1].amount
  }

  /** The expenses charged to one athlete lie between zero and the total expense. */
  lemma {:induction false} AthleteCostIsExpenseShare(rs: seq<Record>, athleteId: string)
    requires forall i :: 0 <= i < |rs| ==> rs[i].amount > 0.0
    ensures 0.0 <= SumAmounts(AthleteExpenses(rs, athleteId)) <= SumOfKind(rs, Expense.Value())
  {
    if rs != [] {
      AthleteCostIsExpenseShare(rs[..|rs| - 1], athleteId);
      var kept := AthleteExpenses(rs[..|rs| - 1], athleteId);
      assert (kept + [rs[|rs| - 1]])[..|kept|] == kept;
    }
  }

  /** What `calculate_athlete_total_cost` returns. */
  datatype AthleteCost = AthleteCost(athleteId: string, totalCost: real, transactionCount: nat, transactions: seq<Record>)

  /** `search_transactions`' test: the term occurs in the id, category, date or description. */
  predicate Matches(r: Record, term: string)
  {
    Contains(r.id, term) || Contains(r.category, term) || Contains(r.date, term) || Contains(r.description, term)
  }

  /** The records matching `term`, in order. */
  function SearchResults(rs: seq<Record>, term: string): (r: seq<Record>)
    ensures forall i :: 0 <= i < |r| ==> Matches(r[i], term)
    ensures forall i :: 0 <= i < |rs| && Matches(rs[i], term) ==> rs[i] in r
  {
    if rs == [] then []
    else
      var init, last := rs[..|rs| - 1], rs[|rs| - 1];
      assert rs == init + [last];
      assert forall j :: 0 <= j < |init| ==> init[j] == rs[j];
      var kept := SearchResults(init, term);
      if Matches(last, term) then kept + [last] else kept
  }

  /** The search results keep the ledger's order. */
  lemma {:induction false} SearchResultsInOrder(rs: seq<Record>, term: string)
    ensures SubseqOf(SearchResults(rs, term), rs)
  {
    if rs != [] {
      var init, last := rs[..|rs| - 1], rs[|rs| - 1];
      assert rs == init + [last];
      SearchResultsInOrder(init, term);
      SubseqOfSnoc(SearchResults(init, term), init, last);
    }
  }

  /** The empty term occurs in every string, so it finds every record. */
  lemma {:induction false} EmptySearchFindsAll(rs: seq<Record>)
    ensures SearchResults(rs, "") == rs
  {
    if rs != [] {
      EmptySearchFindsAll(rs[..|rs| - 1]);
      assert OccursAt(rs[|rs| - 1].id, "", 0);
      assert rs[..|rs| - 1] + [rs[|rs| - 1]] == rs;
    }
  }

  // ---------------------------------------------------------------------
  // Budget status

  /** What `get_budget_status` returns. */
  datatype BudgetStatus = BudgetStatus(status: string, netBalance: real, detail: FinanceService.Summary)

  /**
   * `get_budget_status` over `_calculate_totals`: profit when income
   * exceeds expense, deficit when it falls short, balanced otherwise.
   */
  function BudgetStatusOf(rs: seq<Record>): (b: BudgetStatus)
    ensures b.detail == FinanceService.SummaryOf(rs) && b.netBalance == b.detail.balance
    ensures b.status == "KÂR" <==> SumOfKind(rs, Income.Value()) > SumOfKind(rs, Expense.Value())
    ensures b.status == "ZARAR (BÜTÇE AÇIĞI)" <==> SumOfKind(rs, Income.Value()) < SumOfKind(rs, Expense.Value())
    ensures b.status == "DENK" <==> SumOfKind(rs, Income.Value()) == SumOfKind(rs, Expense.Value())
  {
    var summary := FinanceService.SummaryOf(rs);
    var status := if summary.balance > 0.0 then "KÂR"
                  else if summary.balance < 0.0 then "ZARAR (BÜTÇE AÇIĞI)"
                  else "DENK";
    BudgetStatus(status, summary.balance, summary)
  }

  /** The loop of `analyze_by_period`: the records filed one by one into running totals. */
  method ReportOverRange(rs: seq<Record>, start: int, now: int) returns (r: Result<PeriodReport, PyError>)
    ensures Collect(rs, start, now).Err? ==> r == Err(Collect(rs, start, now).error)
    ensures Collect(rs, start, now).Ok? ==>
      r == Ok(Report(Totals(Collect(rs, start, now).value.income), Totals(Collect(rs, start, now).value.expense)))
  {
    var income: map<string, real> := map[];
    var expense: map<string, real> := map[];
    ghost var c := Collected([], []);
    var i := 0;
    while i < |rs|
      invariant 0 <= i <= |rs|
      invariant Collect(rs[..i], start, now) == Ok(c)
      invariant income == Totals(c.income) && expense == Totals(c.expense)
    {
      var item := rs[i];
      CollectSnoc(rs, i, start, now);
      var inRange := IsDateInRange(item.date, start, now);
      if inRange.Err? {
        CollectErrorPersists(rs, i + 1, start, now);
        return Err(inRange.error);
      }
      if inRange.value {
        if item.kind == Income.Value() {
          TotalsSnoc(c.income, item.category, item.amount);
          income := AddAmount(income, item.category, item.amount);
          c := c.(income := c.income + [(item.category, item.amount)]);
        } else if item.kind == Expense.Value() {
          TotalsSnoc(c.expense, item.category, item.amount);
          expense := AddAmount(expense, item.category, item.amount);
          c := c.(expense := c.expense + [(item.category, item.amount)]);
        } else {
          CollectErrorPersists(rs, i + 1, start, now);
          return Err(KeyError(item.kind));
        }
      }
      i := i + 1;
    }
    assert rs[..i] == rs;
    return Ok(Report(income, expense));
  }

  // ---------------------------------------------------------------------
  // The analyzer object

  class FinancialAnalyzer {
    /** The report language, `"TR"` or `"EN"`. */
    var language: string
    /** `__analysis_cache`: the last report of each period, under `"period_<name>"`. */
    var cache: map<string, PeriodReport>

    constructor ()
      ensures language == "TR" && cache == map[]
    {
      language := "TR";
      cache := map[];
    }

    /** `set_report_language`: any other code is ignored. */
    method SetReportLanguage(code: string)
      modifies this`language
      ensures code == "TR" || code == "EN" ==> language == code
      ensures code != "TR" && code != "EN" ==> language == old(language)
    {
      if code == "TR" || code == "EN" {
        language := code;
      }
    }

    /**
     * `analyze_by_period`: the report of the last 7, 30 or 365 days up to
     * `now`; it is cached only when it is computed without error for a
     * known period.
     */
    method AnalyzeByPeriod(rs: seq<Record>, period: string, now: int) returns (r: Result<PeriodReport, PyError>)
      modifies this`cache
      ensures r == PeriodReportOf(rs, period, now)
      ensures r.Ok? && r.value.Report? ==> cache == old(cache)["period_" + period := r.value]
      ensures !(r.Ok? && r.value.Report?) ==> cache == old(cache)
    {
      var days := PeriodDays(period);
      if days.None? {
        return Ok(UnknownPeriod);
      }
      r := ReportOverRange(rs, now - days.value * SecondsPerDay, now);
      if r.Ok? {
        cache := cache["period_" + period := r.value];
      }
    }

    /**
     * `calculate_athlete_total_cost`: the expenses whose description
     * mentions the id, their count and their total.
     */
    method CalculateAthleteTotalCost(rs: seq<Record>, athleteId: string) returns (cost: AthleteCost)
      ensures cost.athleteId == athleteId
      ensures cost.transactions == AthleteExpenses(rs, athleteId)
      ensures cost.transactionCount == |cost.transactions|
      ensures cost.totalCost == SumAmounts(cost.transactions)
    {
      var total := 0.0;
      var details: seq<Record> := [];
      var i := 0;
      while i < |rs|
        invariant 0 <= i <= |rs|
        invariant details == AthleteExpenses(rs[..i], athleteId)
        invariant total == SumAmounts(details)
      {
        var item := rs[i];
        assert rs[..i + 1][..i] == rs[..i];
        if item.kind == Expense.Value() && Contains(item.description, athleteId) {
          total := total + item.amount;
          assert (details + [item])[..|details|] == details;
          details := details + [item];
        }
        i := i + 1;
      }
      assert rs[..i] == rs;
      return AthleteCost(athleteId, total, |details|, details);
    }

    /** `search_transactions`, with the identifier read from `id`. */
    method SearchTransactions(rs: seq<Record>, term: string) returns (results: seq<Record>)
      ensures results == SearchResults(rs, term)
    {
      results := [];
      var i := 0;
      while i < |rs|
        invariant 0 <= i <= |rs|
        invariant results == SearchResults(rs[..i], term)
      {
        assert rs[..i + 1][..i] == rs[..i];
        if Matches(rs[i], term) {
          results := results + [rs[i]];
        }
        i := i + 1;
      }
      assert rs[..i] == rs;
    }
  }

  /** Once a prefix fails to collect, the whole sequence fails with the same error. */
  lemma {:induction false} CollectErrorPersists(rs: seq<Record>, k: nat, start: int, end: int)
    requires 0 < k <= |rs|
    requires Collect(rs[..k], start, end).Err?
    ensures Collect(rs, start, end) == Collect(rs[..k], start, end)
    decreases |rs| - k
  {
    if k < |rs| {
      assert rs[..k + 1][..k] == rs[..k];
      CollectErrorPersists(rs, k + 1, start, end);
    } else {
      assert rs[..k] == rs;
    }
  }

  // ---------------------------------------------------------------------
  // The search as written

  /**
   * `search_transactions` on the dictionaries `to_dict` writes: the term
   * is first looked for in `item["id"]`, whose lookup raises `KeyError`;
   * nothing catches it.
   */
  function SearchAsWritten(store: seq<map<string, Value>>, term: string)
    : (r: Result<seq<map<string, Value>>, PyError>)
  {
    if store == [] then Ok([])
    else
      match FinanceService.Lookup(store[0], "id")
      case Err(e) => Err(e)
      case Ok(id) =>
        match SearchAsWritten(store[1..], term)
        case Err(e) => Err(e)
        case Ok(rest) =>
          var hit := id.VStr? && Contains(id.s, term);
          Ok((if hit then [store[0]] else []) + rest)
  }

  /** As written, searching any non-empty store raises `KeyError('id')`. */
  lemma SearchAsWrittenFails(ts: seq<Transaction>, term: string)
    requires ts != []
    ensures SearchAsWritten(FinanceService.Written(ts), term) == Err(KeyError("id"))
  {
    assert "id" !in FinanceService.Written(ts)[0];
  }
}
