/** The dashboard endpoint `get_dashboard_stats`: the time-range window, the
    filter list with its bind parameters, and the aggregation of the two
    query results into total, top category, breakdown and trend. The
    database is abstract: the rows each query returns are parameters. */
module Dashboard {
  import opened Common

  // ---------------------------------------------------------------------
  // Time range
  // ---------------------------------------------------------------------

  /** The query parameter `time_range`, an enumeration of seven codes. */
  datatype TimeRange = Last24h | Last7d | Last30d | Last3m | Last6m | Last1y | AllTime
  {
    function Code(): string {
      match this
      case Last24h => "1d"
      case Last7d => "7d"
      case Last30d => "30d"
      case Last3m => "3m"
      case Last6m => "6m"
      case Last1y => "1y"
      case AllTime => "all"
    }

    /** Position in the enumeration, widest window last. */
    function Rank(): nat {
      match this
      case Last24h => 0
      case Last7d => 1
      case Last30d => 2
      case Last3m => 3
      case Last6m => 4
      case Last1y => 5
      case AllTime => 6
    }
  }

  /** The value used when the parameter is absent. */
  const DefaultRange: TimeRange := Last30d

  /** The `time_range` query parameter: absent means the last 30 days;
      present, it must be one of the codes. */
  function RequestedRange(param: Option<string>): (r: Option<TimeRange>)
    ensures param.None? ==> r.Some? && r.value.Code() == "30d"
    ensures param.Some? && r.Some? ==> r.value.Code() == param.value
    ensures param.Some? && r.None? ==> forall t: TimeRange :: t.Code() != param.value
  {
    match param
    case None => Some(DefaultRange)
    case Some(s) =>
      CodesParse();
      ParseTimeRange(s)
  }

  lemma CodesParse()
    ensures forall t: TimeRange :: ParseTimeRange(t.Code()) == Some(t)
  {
    forall t: TimeRange ensures ParseTimeRange(t.Code()) == Some(t) {
      TimeRangeRoundTrip(t);
    }
  }

  /** Request validation of `time_range`: only the seven codes are
      accepted; anything else is a validation error (`None`). */
  function ParseTimeRange(s: string): (r: Option<TimeRange>)
    ensures r.Some? ==> r.value.Code() == s
  {
    if s == "1d" then Some(Last24h)
    else if s == "7d" then Some(Last7d)
    else if s == "30d" then Some(Last30d)
    else if s == "3m" then Some(Last3m)
    else if s == "6m" then Some(Last6m)
    else if s == "1y" then Some(Last1y)
    else if s == "all" then Some(AllTime)
    else None
  }

  /** Every range is read back from its code, so codes are distinct. */
  lemma TimeRangeRoundTrip(t: TimeRange)
    ensures ParseTimeRange(t.Code()) == Some(t)
  {
  }

  /** The number of days subtracted from today; `None` for all time. */
  function StartOffset(t: TimeRange): (o: Option<nat>)
    ensures o.None? <==> t == AllTime
  {
    match t
    case Last24h => Some(1)
    case Last7d => Some(7)
    case Last30d => Some(30)
    case Last3m => Some(90)
    case Last6m => Some(180)
    case Last1y => Some(365)
    case AllTime => None
  }

  /** `start_date`, as a day number. */
  function StartDate(t: TimeRange, today: int): (d: Option<int>)
    ensures d.None? <==> t == AllTime
    ensures d.Some? ==> d.value < today
  {
    match StartOffset(t)
    case None => None
    case Some(n) => Some(today - n)
  }

  /** A wider range never starts later: the windows are nested. */
  lemma WindowsNested(a: TimeRange, b: TimeRange, today: int)
    requires a.Rank() <= b.Rank()
    ensures StartDate(b, today).Some? ==> StartDate(a, today).Some? && StartDate(b, today).value <= StartDate(a, today).value
  {
  }

  /** `is_long_range`: month buckets for 6m, 1y and all. */
  predicate IsLongRange(t: TimeRange) {
    t == Last6m || t == Last1y || t == AllTime
  }

  /** Month granularity is chosen exactly when the window is unbounded or
      reaches back half a year or more. */
  lemma LongRangeIffWideWindow(t: TimeRange)
    ensures IsLongRange(t) <==> StartOffset(t).None? || StartOffset(t).value >= 180
  {
  }

  const MonthColumn: string := "strftime('%Y-%m', date)"
  const DayColumn: string := "date"

  /** The `period` expression of the trend query. */
  function DateColumn(t: TimeRange): (c: string)
    ensures c == MonthColumn <==> IsLongRange(t)
    ensures c == DayColumn <==> !IsLongRange(t)
  {
    if IsLongRange(t) then MonthColumn else DayColumn
  }

  // ---------------------------------------------------------------------
  // Filters and bind parameters
  // ---------------------------------------------------------------------

  /** A bind parameter value: the user id, the start date, or a category. */
  datatype Param = UserParam(uid: nat) | DateParam(day: int) | CategoryParam(name: string)

  /** A bind parameter key; `Name()` is the dictionary key the query text
      refers to with a leading colon. */
  datatype ParamKey = UidKey | StartKey | CatKey(index: nat)
  {
    function Name(): (n: string)
      ensures n != []
    {
      match this
      case UidKey => "uid"
      case StartKey => "start_date"
      case CatKey(i) => "cat_" + NatToString(i)
    }
  }

  /** Distinct keys have distinct names, so the parameters form a
      dictionary with one entry per key. */
  lemma KeyNamesInjective(a: ParamKey, b: ParamKey)
    ensures a.Name() == b.Name() ==> a == b
  {
    assert a.Name()[0] == (if a.CatKey? then 'c' else if a.UidKey? then 'u' else 's');
    assert b.Name()[0] == (if b.CatKey? then 'c' else if b.UidKey? then 'u' else 's');
    if a.Name() == b.Name() {
      if a.CatKey? && b.CatKey? {
        PrefixCancel("cat_", NatToString(a.index), NatToString(b.index));
        NatToStringInjective(a.index, b.index);
      }
    }
  }

  datatype Filters = Filters(clauses: seq<string>, params: map<ParamKey, Param>)

  const UserClause: string := "user_id = :uid"
  const DateClause: string := "date >= :start_date"

  /** The placeholders `:cat_0`, …, `:cat_{k-1}`. */
  function Placeholders(k: nat): (ps: seq<string>)
    ensures |ps| == k
    ensures forall i :: 0 <= i < k ==> ps[i] == ":" + CatKey(i).Name()
  {
    seq(k, i requires 0 <= i => ":" + CatKey(i).Name())
  }

  lemma PlaceholdersStep(k: nat)
    ensures Placeholders(k + 1) == Placeholders(k) + [":" + CatKey(k).Name()]
  {
    var a := Placeholders(k + 1);
    var b := Placeholders(k) + [":" + CatKey(k).Name()];
    assert |a| == |b|;
    forall i | 0 <= i < |a| ensures a[i] == b[i] {
    }
  }

  function InClause(k: nat): string {
    "category IN (" + Join(",", Placeholders(k)) + ")"
  }

  /** `params` is `base` with `cat_0` … `cat_{i-1}` bound to the first `i`
      categories. */
  ghost predicate BoundUpTo(base: map<ParamKey, Param>, params: map<ParamKey, Param>, categories: seq<string>, i: nat) {
    && i <= |categories|
    && (forall k :: k in params <==> k in base || (k.CatKey? && k.index < i))
    && |params| == |base| + i
    && (forall k :: k in base ==> params[k] == base[k])
    && (forall j :: 0 <= j < i ==> params[CatKey(j)] == CategoryParam(categories[j]))
  }

  lemma BindStep(base: map<ParamKey, Param>, params: map<ParamKey, Param>, categories: seq<string>, i: nat)
    requires forall k :: k in base ==> !k.CatKey?
    requires BoundUpTo(base, params, categories, i) && i < |categories|
    ensures BoundUpTo(base, params[CatKey(i) := CategoryParam(categories[i])], categories, i + 1)
  {
    assert CatKey(i) !in params;
  }

  /** The `enumerate(categories)` loop: binds `cat_i` to the i-th category
      on top of `base` and collects the placeholders, in input order. */
  method BindCategories(base: map<ParamKey, Param>, categories: seq<string>)
    returns (placeholders: seq<string>, params: map<ParamKey, Param>)
    requires forall k :: k in base ==> !k.CatKey?
    ensures placeholders == Placeholders(|categories|)
    ensures BoundUpTo(base, params, categories, |categories|)
  {
    placeholders := [];
    params := base;
    var i := 0;
    while i < |categories|
      invariant 0 <= i <= |categories|
      invariant placeholders == Placeholders(i)
      invariant BoundUpTo(base, params, categories, i)
    {
      PlaceholdersStep(i);
      BindStep(base, params, categories, i);
      placeholders := placeholders + [":" + CatKey(i).Name()];
      params := params[CatKey(i) := CategoryParam(categories[i])];
      i := i + 1;
    }
  }

  /** The filter list and parameters, as the endpoint builds them: the user
      filter first, then the date filter when there is a start date, then
      one `IN` clause when at least one category is selected. */
  method BuildFilters(uid: nat, start: Option<int>, categories: seq<string>) returns (f: Filters)
    ensures f.clauses == [UserClause] + (if start.Some? then [DateClause] else [])
                         + (if categories != [] then [InClause(|categories|)] else [])
    ensures forall k :: k in f.params <==> k == UidKey || (k == StartKey && start.Some?) || (k.CatKey? && k.index < |categories|)
    ensures |f.params| == 1 + (if start.Some? then 1 else 0) + |categories|
    ensures f.params[UidKey] == UserParam(uid)
    ensures start.Some? ==> f.params[StartKey] == DateParam(start.value)
    ensures forall i :: 0 <= i < |categories| ==> f.params[CatKey(i)] == CategoryParam(categories[i])
  {
    var clauses := [UserClause];
    var params := map[UidKey := UserParam(uid)];
    if start.Some? {
      clauses := clauses + [DateClause];
      params := params[StartKey := DateParam(start.value)];
    }
    if categories != [] {
      var placeholders;
      placeholders, params := BindCategories(params, categories);
      clauses := clauses + ["category IN (" + Join(",", placeholders) + ")"];
    }
    f := Filters(clauses, params);
  }

  /** ` WHERE ` followed by the filters joined with ` AND `. */
  function WhereClause(f: Filters): (w: string)
    ensures StartsWith(w, " WHERE ")
    ensures |f.clauses| == 1 ==> w == " WHERE " + f.clauses[0]
  {
    " WHERE " + Join(" AND ", f.clauses)
  }

  /** The where clause carries every filter, and every placeholder of the
      `IN` clause names a bound parameter. */
  lemma WhereClauseBindsCategories(f: Filters, categories: seq<string>, i: nat)
    requires |f.clauses| > 0 && categories != [] && f.clauses[|f.clauses| - 1] == InClause(|categories|)
    requires forall j :: 0 <= j < |categories| ==> CatKey(j) in f.params
    requires i < |categories|
    ensures Contains(WhereClause(f), InClause(|categories|))
    ensures Contains(WhereClause(f), ":" + CatKey(i).Name()) && CatKey(i) in f.params
  {
    var last := |f.clauses| - 1;
    JoinContainsPart(" AND ", f.clauses, last);
    ContainsInContext(" WHERE ", Join(" AND ", f.clauses), "", InClause(|categories|));
    assert " WHERE " + Join(" AND ", f.clauses) + "" == WhereClause(f);
    var ps := Placeholders(|categories|);
    JoinContainsPart(",", ps, i);
    ContainsInContext("category IN (", Join(",", ps), ")", ps[i]);
    assert Contains(InClause(|categories|), ":" + CatKey(i).Name());
    ContainsTransitive(WhereClause(f), InClause(|categories|), ":" + CatKey(i).Name());
  }

  lemma ContainsTransitive(a: string, b: string, c: string)
    requires Contains(a, b) && Contains(b, c)
    ensures Contains(a, c)
  {
    var i :| 0 <= i <= |a| && OccursAt(a, b, i);
    var j :| 0 <= j <= |b| && OccursAt(b, c, j);
    forall t | 0 <= t < |c| ensures a[i + j + t] == c[t] {
      assert a[i + j + t] == a[i..i + |b|][j + t];
      assert b[j + t] == b[j..j + |c|][t];
    }
    assert OccursAt(a, c, i + j);
  }

  // ---------------------------------------------------------------------
  // Aggregation
  // ---------------------------------------------------------------------

  /** A row of the category query: `category` may be null. */
  datatype CategoryRow = CategoryRow(category: Option<string>, total: real)

  /** A row of the trend query, its period already rendered with `str`. */
  datatype TrendRow = TrendRow(period: string, total: real)

  /** The response schemas, with `percentage` before rounding. */
  datatype CategoryStat = CategoryStat(category: string, amount: real, percentage: real)
  datatype TrendPoint = TrendPoint(period: string, amount: real)
  datatype Stats = Stats(
    totalSpent: real,
    topCategory: Option<string>,
    breakdown: seq<CategoryStat>,
    trend: seq<TrendPoint>)

  const Uncategorized: string := "Uncategorized"

  function Totals(rows: seq<CategoryRow>): (ts: seq<real>)
    ensures |ts| == |rows| && forall i :: 0 <= i < |rows| ==> ts[i] == rows[i].total
  {
    seq(|rows|, i requires 0 <= i < |rows| => rows[i].total)
  }

  /** `total_spent`: the sum of the category totals. */
  function TotalSpent(rows: seq<CategoryRow>): (t: real)
    ensures rows == [] ==> t == 0.0
    ensures (forall k :: 0 <= k < |rows| ==> rows[k].total >= 0.0) ==> t >= 0.0
  {
    var ts := Totals(rows);
    if forall k :: 0 <= k < |rows| ==> rows[k].total >= 0.0 then
      SumNonNegative(ts);
      Sum(ts)
    else Sum(ts)
  }

  /** `top_category`: the first row's category, which is null when that
      row's category is null, and `None` when there are no rows. */
  function TopCategory(rows: seq<CategoryRow>): (c: Option<string>)
    ensures rows == [] ==> c.None?
    ensures rows != [] ==> c == rows[0].category
  {
    if rows == [] then None else rows[0].category
  }

  /** The label of a category row: a null or empty category is
      "Uncategorized" (Python's `or`). */
  function Label(c: Option<string>): (l: string)
    ensures c.Some? && c.value != [] ==> l == c.value
    ensures c.None? || c.value == [] ==> l == Uncategorized
    ensures l != []
  {
    match c
    case Some(s) => if s != [] then s else Uncategorized
    case None => Uncategorized
  }

  function StatOf(row: CategoryRow, total: real): (s: CategoryStat)
    ensures s.category == Label(row.category) && s.amount == row.total
    ensures total > 0.0 ==> s.percentage * total == row.total * 100.0
    ensures total <= 0.0 ==> s.percentage == 0.0
  {
    CategoryStat(Label(row.category), row.total, Percent(row.total, total))
  }

  /** `category_breakdown`: one entry per row, in row order. */
  function Breakdown(rows: seq<CategoryRow>, total: real): (b: seq<CategoryStat>)
    ensures |b| == |rows|
    ensures forall i :: 0 <= i < |rows| ==> b[i] == StatOf(rows[i], total)
  {
    seq(|rows|, i requires 0 <= i < |rows| => StatOf(rows[i], total))
  }

  function Percentages(b: seq<CategoryStat>): (ps: seq<real>)
    ensures |ps| == |b| && forall i :: 0 <= i < |b| ==> ps[i] == b[i].percentage
  {
    seq(|b|, i requires 0 <= i < |b| => b[i].percentage)
  }

  /** `monthly_trend`: one point per row, in row order. */
  function Trend(rows: seq<TrendRow>): (t: seq<TrendPoint>)
    ensures |t| == |rows|
    ensures forall i :: 0 <= i < |rows| ==> t[i].period == rows[i].period && t[i].amount == rows[i].total
  {
    seq(|rows|, i requires 0 <= i < |rows| => TrendPoint(rows[i].period, rows[i].total))
  }

  /** The two query results combined into the response: one breakdown
      entry per category row and one trend point per trend row, in order;
      no spending gives an empty response; with positive spending the
      shares add up to 100. */
  function Aggregate(catRows: seq<CategoryRow>, trendRows: seq<TrendRow>): (s: Stats)
    ensures |s.breakdown| == |catRows| && |s.trend| == |trendRows|
    ensures forall i :: 0 <= i < |catRows| ==>
              s.breakdown[i].category == Label(catRows[i].category) && s.breakdown[i].amount == catRows[i].total
    ensures forall i :: 0 <= i < |trendRows| ==>
              s.trend[i].period == trendRows[i].period && s.trend[i].amount == trendRows[i].total
    ensures catRows == [] ==> s.totalSpent == 0.0 && s.topCategory.None? && s.breakdown == []
    ensures catRows != [] ==> s.topCategory == catRows[0].category
    ensures s.totalSpent > 0.0 ==> Sum(Percentages(s.breakdown)) == 100.0
    ensures s.totalSpent <= 0.0 ==> forall i :: 0 <= i < |s.breakdown| ==> s.breakdown[i].percentage == 0.0
  {
    var total := TotalSpent(catRows);
    if total > 0.0 then
      BreakdownSumsToHundred(catRows);
      Stats(total, TopCategory(catRows), Breakdown(catRows, total), Trend(trendRows))
    else
      Stats(total, TopCategory(catRows), Breakdown(catRows, total), Trend(trendRows))
  }

  /** Scaling every element scales the sum. */
  lemma {:induction false} SumScale(xs: seq<real>, ys: seq<real>, c: real)
    requires |xs| == |ys| && forall i :: 0 <= i < |xs| ==> ys[i] == xs[i] * c
    ensures Sum(ys) == Sum(xs) * c
  {
    if xs != [] {
      SumScale(xs[1..], ys[1..], c);
    }
  }

  /** With positive spending the percentages of the breakdown add up to
      100 (before rounding). */
  lemma BreakdownSumsToHundred(rows: seq<CategoryRow>)
    requires TotalSpent(rows) > 0.0
    ensures Sum(Percentages(Breakdown(rows, TotalSpent(rows)))) == 100.0
  {
    var total := TotalSpent(rows);
    var ps := Percentages(Breakdown(rows, total));
    var c := 100.0 / total;
    forall i | 0 <= i < |rows| ensures ps[i] == Totals(rows)[i] * c {
      assert ps[i] * total == rows[i].total * 100.0;
    }
    SumScale(Totals(rows), ps, c);
  }

  /** Without positive spending every percentage is zero. */
  lemma BreakdownZeroWithoutSpending(rows: seq<CategoryRow>, i: nat)
    requires TotalSpent(rows) <= 0.0 && i < |rows|
    ensures Breakdown(rows, TotalSpent(rows))[i].percentage == 0.0
  {
  }

  /** The zero-total guard is the only guard: a refund row can push another
      category above 100 percent. */
  lemma RefundExceedsHundred()
    ensures var rows := [CategoryRow(Some("Food"), 150.0), CategoryRow(Some("Refund"), -50.0)];
            Breakdown(rows, TotalSpent(rows))[0].percentage == 150.0
  {
    var rows := [CategoryRow(Some("Food"), 150.0), CategoryRow(Some("Refund"), -50.0)];
    assert Totals(rows) == [150.0, -50.0];
    assert TotalSpent(rows) == 100.0;
  }

  /** The query orders rows by descending total. */
  predicate DescendingTotals(rows: seq<CategoryRow>) {
    forall i :: 0 < i < |rows| ==> rows[i - 1].total >= rows[i].total
  }

  /** Under the query's ordering the top category carries the largest
      total. */
  lemma {:induction false} TopCategoryIsLargest(rows: seq<CategoryRow>, k: nat)
    requires DescendingTotals(rows) && k < |rows|
    ensures TopCategory(rows) == rows[0].category && rows[k].total <= rows[0].total
  {
    if k > 0 {
      TopCategoryIsLargest(rows, k - 1);
    }
  }

  /** `get_dashboard_stats`. The database runs the two queries built from
      the filters; `catRows` and `trendRows` are what it returns, and an
      error raised by either query propagates. */
  method GetDashboardStats(
    uid: nat, range: TimeRange, today: int, categories: seq<string>,
    catRows: Result<seq<CategoryRow>>, trendRows: Result<seq<TrendRow>>)
    returns (filters: Filters, period: string, r: Result<Stats>)
    ensures |filters.clauses| > 0 && filters.clauses[0] == UserClause
    ensures (DateClause in filters.clauses) <==> range != AllTime
    ensures period == DateColumn(range)
    ensures catRows.Raised? ==> r == Raised(catRows.error)
    ensures catRows.Ok? && trendRows.Raised? ==> r == Raised(trendRows.error)
    ensures r.Ok? <==> catRows.Ok? && trendRows.Ok?
    ensures r.Ok? ==> r.value == Aggregate(catRows.value, trendRows.value)
  {
    var start := StartDate(range, today);
    filters := BuildFilters(uid, start, categories);
    assert UserClause[0] != DateClause[0] && InClause(|categories|)[0] != DateClause[0];
    period := DateColumn(range);
    if catRows.Raised? {
      r := Raised(catRows.error);
    } else if trendRows.Raised? {
      r := Raised(trendRows.error);
    } else {
      r := Ok(Aggregate(catRows.value, trendRows.value));
    }
  }
}
