/** The agent's tools: the catalogue offered to the model, the handlers that
    answer each call from the data getters and the user data store, and the
    dispatcher that turns every outcome, including an exception, into text. */
module Tools {
  import opened PyValues
  import opened Lines
  import opened MockData
  import Persistence

  // ---------------------------------------------------------------------------
  // The catalogue.
  // ---------------------------------------------------------------------------

  datatype ParamType = StringType | NumberType | IntegerType

  /** A declared parameter; `choices` is its enum, empty when it has none. */
  datatype Param = Param(name: string, ptype: ParamType, choices: seq<string>)

  /** A tool as offered to the model (descriptions omitted). */
  datatype ToolSchema = ToolSchema(name: string, params: seq<Param>, required: seq<string>)

  /** The expense categories `record_expense` offers. */
  function ExpenseCategories(): seq<string> {
    ["餐饮", "交通", "购物", "学习用品", "娱乐", "其他"]
  }

  const TodoStatuses: seq<string> := ["all", "pending", "done"]

  /** `TOOL_SCHEMAS`, in order. */
  function ToolSchemas(): seq<ToolSchema> {
    [ToolSchema("query_schedule", [Param("day", StringType, WeekdayNames())], []),
     ToolSchema("query_finance", [Param("category", StringType, [])], []),
     ToolSchema("record_expense",
       [Param("item", StringType, []), Param("amount", NumberType, []),
        Param("category", StringType, ExpenseCategories())],
       ["item", "amount", "category"]),
     ToolSchema("query_health", [], []),
     ToolSchema("query_todos", [Param("status", StringType, TodoStatuses)], []),
     ToolSchema("toggle_todo", [Param("task_id", IntegerType, [])], ["task_id"]),
     ToolSchema("query_exams", [], []),
     ToolSchema("query_travel", [], [])]
  }

  function ToolNames(): (names: seq<string>)
    ensures |names| == |ToolSchemas()|
    ensures forall i :: 0 <= i < |names| ==> names[i] == ToolSchemas()[i].name
  {
    seq(|ToolSchemas()|, i requires 0 <= i < |ToolSchemas()| => ToolSchemas()[i].name)
  }

  /** `TOOL_DISPLAY_NAMES`: the label shown for each tool. */
  function DisplayNames(): map<string, string> {
    map["query_schedule" := "查询课表",
        "query_finance" := "查询财务数据",
        "record_expense" := "记录消费",
        "query_health" := "查询健康数据",
        "query_todos" := "查询待办事项",
        "toggle_todo" := "更新待办状态",
        "query_exams" := "查询考试安排",
        "query_travel" := "查询旅行计划"]
  }

  /** Eight tools with distinct names, each with a display label and no label
      for anything else. */
  lemma CatalogueNames()
    ensures ToolNames() == ["query_schedule", "query_finance", "record_expense", "query_health",
                            "query_todos", "toggle_todo", "query_exams", "query_travel"]
    ensures forall i, j :: 0 <= i < j < |ToolNames()| ==> ToolNames()[i] != ToolNames()[j]
    ensures forall n :: n in DisplayNames() <==> n in ToolNames()
  {
  }

  /** Every required parameter is a declared one. */
  lemma RequiredAreDeclared()
    ensures forall s, r :: s in ToolSchemas() && r in s.required ==>
      exists p :: p in s.params && p.name == r
  {
    var s := ToolSchemas()[2];
    assert s.params[0].name == "item" && s.params[1].name == "amount" && s.params[2].name == "category";
    assert ToolSchemas()[5].params[0].name == "task_id";
  }

  /** The categories offered for an expense are the ones the store has an
      icon for, plus "其他", which gets the generic icon. */
  lemma ExpenseCategoriesHaveIcons()
    ensures forall c :: c in ExpenseCategories() <==> c in Persistence.KnownCategories() || c == "其他"
    ensures forall c :: c in ExpenseCategories() ==> (Persistence.CategoryIcon(c) == "💳" <==> c == "其他")
  {
    forall c | c in ExpenseCategories()
      ensures Persistence.CategoryIcon(c) == "💳" <==> c == "其他"
    {
      Persistence.DefaultIconExactly(c);
    }
  }

  // ---------------------------------------------------------------------------
  // What a call sees besides its arguments.
  // ---------------------------------------------------------------------------

  /** The wall clock: today's weekday, today's date as stored with a new
      expense, and the whole days elapsed since a `%Y-%m-%d` date (`None`
      when the text does not parse). */
  datatype Clock = Clock(weekday: Weekday, date: string, daysSince: string -> Option<int>)

  /** `args.get(key, default)`. */
  function ArgGet(args: map<string, Value>, key: string, default: Value): Value {
    if key in args then args[key] else default
  }

  /** `args[key]`. */
  function ArgSub(args: map<string, Value>, key: string): (r: Result<Value>)
    ensures r.Ok? <==> key in args
    ensures r.Err? ==> r.error == KeyError(key)
  {
    if key in args then Ok(args[key]) else Err(KeyError(key))
  }

  /** Calling an imported getter, which may not exist. */
  function Getter(getter: Option<Value>, name: string): (r: Result<Value>)
    ensures getter.None? <==> r == Err(NameError(name))
  {
    match getter
    case Some(v) => Ok(v)
    case None => Err(NameError(name))
  }

  /** What a handler answers: its lines, or the exception it raised. */
  datatype ToolText = Reply(lines: seq<Line>) | UnknownTool(name: string) | ToolError(error: Exc)

  function AsText(r: Result<seq<Line>>): (t: ToolText)
    ensures t.Reply? <==> r.Ok?
    ensures r.Ok? ==> t == Reply(r.value)
    ensures r.Err? ==> t == ToolError(r.error)
  {
    match r
    case Ok(lines) => Reply(lines)
    case Err(e) => ToolError(e)
  }

  const UnknownPrefix := "未知工具: "
  const ErrorPrefix := "工具执行出错: "

  /** `str(e)` for the exceptions whose message the model keeps; the others
      are shown by their class name. */
  function ExcText(e: Exc): string {
    match e
    case KeyError(key) => "'" + key + "'"
    case NameError(name) => "name '" + name + "' is not defined"
    case TypeError => "TypeError"
    case ValueError => "ValueError"
    case AttributeError => "AttributeError"
  }

  /** The text of the two answers that are not a handler's lines. */
  function ErrorText(t: ToolText): (s: string)
    requires !t.Reply?
    ensures t.UnknownTool? ==> s == UnknownPrefix + t.name
    ensures t.ToolError? ==> ErrorPrefix <= s
  {
    match t
    case UnknownTool(name) => UnknownPrefix + name
    case ToolError(e) => ErrorPrefix + ExcText(e)
  }

  // ---------------------------------------------------------------------------
  // query_schedule
  // ---------------------------------------------------------------------------

  const TodayTitle := "今日课程安排："

  function DayClassRow(c: Value): Result<Line> {
    var cells :- Cells(c, ["time", "course", "location", "teacher", "type"]);
    Ok(Row(DayCourse, cells))
  }

  function TodayClassRow(c: Value): Result<Line> {
    var cells :- Cells(c, ["time", "course", "location", "teacher"]);
    Ok(Row(TodayCourse, cells))
  }

  /** A given day lists that day's classes; no day lists today's, from
      `get_today_schedule`. */
  function ScheduleReply(src: Sources, args: map<string, Value>, clock: Clock): Result<seq<Line>> {
    var day := ArgGet(args, "day", Null);
    if Truthy(day) then
      var items :- Iterate(src.schedule);
      var courses :- FilterBy(items, OnWeekday(day));
      if courses == [] then Ok([Row(NoClassesOn, [day])])
      else
        var rows :- MapAll(courses, DayClassRow);
        Ok([Row(DayTitle, [day])] + rows)
    else
      var today :- Getter(src.todaySchedule, "get_today_schedule");
      if !Truthy(today) then Ok([Row(NoClassesToday, [Str(WeekdayName(clock.weekday))])])
      else
        var items :- Iterate(today);
        var rows :- MapAll(items, TodayClassRow);
        Ok([Fixed(TodayTitle)] + rows)
  }

  method QuerySchedule(src: Sources, args: map<string, Value>, clock: Clock) returns (r: Result<seq<Line>>)
    ensures r == ScheduleReply(src, args, clock)
  {
    var day := ArgGet(args, "day", Null);
    if Truthy(day) {
      var items :- Iterate(src.schedule);
      var courses :- FilterBy(items, OnWeekday(day));
      if courses == [] {
        return Ok([Row(NoClassesOn, [day])]);
      }
      r := AppendEach([Row(DayTitle, [day])], courses, DayClassRow);
    } else {
      var today :- Getter(src.todaySchedule, "get_today_schedule");
      if !Truthy(today) {
        return Ok([Row(NoClassesToday, [Str(WeekdayName(clock.weekday))])]);
      }
      var items :- Iterate(today);
      r := AppendEach([Fixed(TodayTitle)], items, TodayClassRow);
    }
  }

  /** Asking for a day lists exactly the schedule entries on that day, in
      order, one line each after the heading; a day without any gets the
      free-day line. */
  lemma {:induction false} ScheduleForDay(src: Sources, args: map<string, Value>, clock: Clock)
    requires Truthy(ArgGet(args, "day", Null))
    requires ScheduleReply(src, args, clock).Ok?
    ensures Iterate(src.schedule).Ok?
    ensures AllOk(Iterate(src.schedule).value, OnWeekday(ArgGet(args, "day", Null)))
    ensures forall c :: c in Select(Iterate(src.schedule).value, OnWeekday(ArgGet(args, "day", Null))) <==>
      c in Iterate(src.schedule).value && PyEq(Sub(c, "weekday").value, ArgGet(args, "day", Null))
    ensures Select(Iterate(src.schedule).value, OnWeekday(ArgGet(args, "day", Null))) == [] ==>
      ScheduleReply(src, args, clock).value == [Row(NoClassesOn, [ArgGet(args, "day", Null)])]
    ensures |ScheduleReply(src, args, clock).value| ==
      1 + |Select(Iterate(src.schedule).value, OnWeekday(ArgGet(args, "day", Null)))|
    ensures var courses := Select(Iterate(src.schedule).value, OnWeekday(ArgGet(args, "day", Null)));
      courses != [] ==>
        && ScheduleReply(src, args, clock).value[0] == Row(DayTitle, [ArgGet(args, "day", Null)])
        && forall i :: 0 <= i < |courses| ==>
             DayClassRow(courses[i]).Ok? &&
             ScheduleReply(src, args, clock).value[1 + i] == DayClassRow(courses[i]).value
  {
    var day := ArgGet(args, "day", Null);
    var items := Iterate(src.schedule).value;
    FilterByNoRaise(items, OnWeekday(day));
    SelectMembers(items, OnWeekday(day));
    forall c | c in items ensures OnWeekday(day)(c).Ok? {
      var i :| 0 <= i < |items| && items[i] == c;
    }
    var courses := Select(items, OnWeekday(day));
    if courses != [] {
      assert MapAll(courses, DayClassRow).Ok?;
      var title := Row(DayTitle, [day]);
      assert ScheduleReply(src, args, clock).value == [title] + MapAll(courses, DayClassRow).value;
      RowsAfterTitle(title, courses, DayClassRow);
    }
  }

  /** Without a day, a module without `get_today_schedule` raises NameError. */
  lemma ScheduleTodayNeedsGetter(src: Sources, args: map<string, Value>, clock: Clock)
    requires !Truthy(ArgGet(args, "day", Null)) && src.todaySchedule.None?
    ensures ScheduleReply(src, args, clock) == Err(NameError("get_today_schedule"))
  {
  }

  // ---------------------------------------------------------------------------
  // query_finance
  // ---------------------------------------------------------------------------

  const RelatedTitle := "相关消费记录："
  const OverviewTitle := "本月财务概况："
  const CategoriesTitle := "各类别消费："
  const RecentTitle := "最近消费记录："

  /** `t["category"] == category`. */
  function InCategory(category: Value): Value -> Result<bool> {
    (t: Value) =>
      var c :- Sub(t, "category");
      Ok(PyEq(c, category))
  }

  function CategoryTxnRow(t: Value): Result<Line> {
    var date :- Sub(t, "date");
    var item :- Sub(t, "item");
    var amount :- NumericSub(t, "amount");
    Ok(Row(CategoryTxn, [date, item, amount]))
  }

  function RecentTxnRow(t: Value): Result<Line> {
    var date :- Sub(t, "date");
    var item :- Sub(t, "item");
    var amount :- NumericSub(t, "amount");
    var category :- Sub(t, "category");
    Ok(Row(RecentTxn, [date, item, amount, category]))
  }

  function CategoryAmountRow(entry: (string, Value)): Result<Line> {
    var amount :- Numeric(entry.1);
    Ok(Row(CategoryAmount, [Str(entry.0), amount]))
  }

  /** The recent transactions of one category. */
  function CategoryTxns(finance: Value, category: Value): Result<seq<Value>> {
    var recent :- Sub(finance, "recent_transactions");
    var all :- Iterate(recent);
    FilterBy(all, InCategory(category))
  }

  /** The monthly figures that open the overview. */
  function OverviewHead(finance: Value): (r: Result<seq<Line>>)
    ensures r.Ok? ==> |r.value| == 9 && r.value[0] == Fixed(OverviewTitle)
    ensures r.Ok? ==> HasKey(finance, "daily_avg_spent")
  {
    var budget :- NumericSub(finance, "monthly_budget");
    var spent :- NumericSub(finance, "spent");
    var pct :- Sub(finance, "budget_usage_pct");
    var remaining :- NumericSub(finance, "remaining");
    var average :- NumericSub(finance, "daily_avg_spent");
    var days :- Sub(finance, "days_left_in_month");
    var suggested :- NumericSub(finance, "suggested_daily");
    Ok([Fixed(OverviewTitle), Row(Budget, [budget]), Row(Spent, [spent, pct]),
        Row(Remaining, [remaining]), Row(DailyAverage, [average]), Row(DaysLeft, [days]),
        Row(SuggestedDaily, [suggested]), Fixed(""), Fixed(CategoriesTitle)])
  }

  /** The ten most recent transactions, as `recent_transactions[:10]`. */
  function LatestTxns(finance: Value): Result<seq<Value>> {
    var recent :- Sub(finance, "recent_transactions");
    var latest :- SliceFront(recent, 10);
    Iterate(latest)
  }

  /** A category shows its total (0 when the month has none) and at most
      eight of its recent transactions; no category shows the overview, every
      category's total and at most ten recent transactions. The category's
      transactions are filtered before its total is formatted. */
  function FinanceReply(src: Sources, args: map<string, Value>): Result<seq<Line>> {
    var category := ArgGet(args, "category", Null);
    if Truthy(category) then
      var categories :- Sub(src.finance, "categories");
      var amount :- DictGet(categories, category, Int(0));
      var txns :- CategoryTxns(src.finance, category);
      var total :- Numeric(amount);
      var head := [Row(CategoryTitle, [category]), Row(CategoryTotal, [category, total])];
      if txns == [] then Ok(head)
      else
        var rows :- MapAll(Take(txns, 8), CategoryTxnRow);
        Ok(head + [Fixed(RelatedTitle)] + rows)
    else
      var head :- OverviewHead(src.finance);
      var categories :- Sub(src.finance, "categories");
      var entries :- Items(categories);
      var catRows :- MapAll(entries, CategoryAmountRow);
      var txns :- LatestTxns(src.finance);
      var txRows :- MapAll(txns, RecentTxnRow);
      Ok(head + catRows + [Fixed(""), Fixed(RecentTitle)] + txRows)
  }

  /** The overview reads the daily average right after the first monthly
      figures, so a finance record without one raises KeyError there. */
  lemma OverviewWithoutAverage(src: Sources, args: map<string, Value>)
    requires !Truthy(ArgGet(args, "category", Null))
    requires src.finance.Dict? && !HasKey(src.finance, "daily_avg_spent")
    requires HasKey(src.finance, "monthly_budget") && NumberOf(Sub(src.finance, "monthly_budget").value).Some?
    requires HasKey(src.finance, "spent") && NumberOf(Sub(src.finance, "spent").value).Some?
    requires HasKey(src.finance, "remaining") && NumberOf(Sub(src.finance, "remaining").value).Some?
    requires HasKey(src.finance, "budget_usage_pct")
    ensures FinanceReply(src, args) == Err(KeyError("daily_avg_spent"))
  {
  }

  /** On the mock finance record the overview raises KeyError. */
  lemma OverviewOnMockData(src: Sources, args: map<string, Value>)
    requires src.finance == GetFinance() && !Truthy(ArgGet(args, "category", Null))
    ensures FinanceReply(src, args) == Err(KeyError("daily_avg_spent"))
  {
    MockOverviewFigures(src.finance);
    FloatIsNumber(Sub(src.finance, "monthly_budget").value);
    FloatIsNumber(Sub(src.finance, "spent").value);
    FloatIsNumber(Sub(src.finance, "remaining").value);
    OverviewWithoutAverage(src, args);
  }

  method QueryFinance(src: Sources, args: map<string, Value>) returns (r: Result<seq<Line>>)
    ensures r == FinanceReply(src, args)
  {
    var category := ArgGet(args, "category", Null);
    if Truthy(category) {
      var categories :- Sub(src.finance, "categories");
      var amount :- DictGet(categories, category, Int(0));
      var txns :- CategoryTxns(src.finance, category);
      var total :- Numeric(amount);
      var head := [Row(CategoryTitle, [category]), Row(CategoryTotal, [category, total])];
      if txns == [] {
        return Ok(head);
      }
      r := AppendEach(head + [Fixed(RelatedTitle)], Take(txns, 8), CategoryTxnRow);
    } else {
      var lines :- OverviewHead(src.finance);
      var categories :- Sub(src.finance, "categories");
      var entries :- Items(categories);
      lines :- AppendEach(lines, entries, CategoryAmountRow);
      var txns :- LatestTxns(src.finance);
      r := AppendEach(lines + [Fixed(""), Fixed(RecentTitle)], txns, RecentTxnRow);
    }
  }

  /** A category's answer opens with its heading, and its total line shows the
      recorded total, or 0 when the month has none for it. */
  lemma CategoryTotalDefault(src: Sources, args: map<string, Value>)
    requires Truthy(ArgGet(args, "category", Null))
    requires FinanceReply(src, args).Ok?
    ensures Sub(src.finance, "categories").Ok? && Sub(src.finance, "categories").value.Dict?
    ensures |FinanceReply(src, args).value| >= 2
    ensures FinanceReply(src, args).value[0] == Row(CategoryTitle, [ArgGet(args, "category", Null)])
    ensures var category := ArgGet(args, "category", Null);
      var categories := Sub(src.finance, "categories").value;
      FinanceReply(src, args).value[1] ==
        Row(CategoryTotal, [category,
          if category.Str? && Lookup(categories.entries, category.s).Some?
          then Lookup(categories.entries, category.s).value
          else Int(0)])
  {
    CategoryParts(src, args);
  }

  /** How a category's answer is assembled from its total and its transactions. */
  lemma CategoryParts(src: Sources, args: map<string, Value>)
    requires Truthy(ArgGet(args, "category", Null))
    requires FinanceReply(src, args).Ok?
    ensures Sub(src.finance, "categories").Ok?
    ensures DictGet(Sub(src.finance, "categories").value, ArgGet(args, "category", Null), Int(0)).Ok?
    ensures CategoryTxns(src.finance, ArgGet(args, "category", Null)).Ok?
    ensures var category := ArgGet(args, "category", Null);
      var total := DictGet(Sub(src.finance, "categories").value, category, Int(0)).value;
      var head := [Row(CategoryTitle, [category]), Row(CategoryTotal, [category, total])];
      var txns := CategoryTxns(src.finance, category).value;
      if txns == [] then FinanceReply(src, args).value == head
      else
        && MapAll(Take(txns, 8), CategoryTxnRow).Ok?
        && FinanceReply(src, args).value == head + [Fixed(RelatedTitle)] + MapAll(Take(txns, 8), CategoryTxnRow).value
  {
  }

  /** A category's answer: the heading and the total, then, when the category
      has recent transactions, a heading and the first eight of them in order. */
  lemma {:induction false} CategoryRows(src: Sources, args: map<string, Value>)
    requires Truthy(ArgGet(args, "category", Null))
    requires FinanceReply(src, args).Ok?
    ensures Sub(src.finance, "recent_transactions").Ok?
    ensures Iterate(Sub(src.finance, "recent_transactions").value).Ok?
    ensures CategoryTxns(src.finance, ArgGet(args, "category", Null)) ==
      Ok(Select(Iterate(Sub(src.finance, "recent_transactions").value).value,
                InCategory(ArgGet(args, "category", Null))))
    ensures var txns := CategoryTxns(src.finance, ArgGet(args, "category", Null)).value;
      |FinanceReply(src, args).value| == (if txns == [] then 2 else 3 + |Take(txns, 8)|)
    ensures |FinanceReply(src, args).value| <= 11
    ensures var txns := CategoryTxns(src.finance, ArgGet(args, "category", Null)).value;
      txns != [] ==>
        && FinanceReply(src, args).value[2] == Fixed(RelatedTitle)
        && forall i :: 0 <= i < |Take(txns, 8)| ==>
             CategoryTxnRow(Take(txns, 8)[i]).Ok? &&
             FinanceReply(src, args).value[3 + i] == CategoryTxnRow(Take(txns, 8)[i]).value
  {
    var f := src.finance;
    var category := ArgGet(args, "category", Null);
    var recent := Sub(f, "recent_transactions").value;
    FilterByNoRaise(Iterate(recent).value, InCategory(category));
    CategoryParts(src, args);
    var txns := CategoryTxns(f, category).value;
    if txns != [] {
      var latest := Take(txns, 8);
      MapAllNoRaise(latest, CategoryTxnRow);
    }
  }

  /** The overview: the monthly figures, the category totals, a heading and
      the ten latest transactions. */
  lemma {:induction false} OverviewRows(src: Sources, args: map<string, Value>)
    requires !Truthy(ArgGet(args, "category", Null))
    requires FinanceReply(src, args).Ok?
    ensures LatestTxns(src.finance).Ok? && |LatestTxns(src.finance).value| <= 10
    ensures Sub(src.finance, "categories").Ok? && Sub(src.finance, "categories").value.Dict?
    ensures |FinanceReply(src, args).value| ==
      11 + |Sub(src.finance, "categories").value.entries| + |LatestTxns(src.finance).value|
    ensures OverviewHead(src.finance).Ok? && FinanceReply(src, args).value[..9] == OverviewHead(src.finance).value
    ensures var n := |Sub(src.finance, "categories").value.entries|;
      FinanceReply(src, args).value[9 + n] == Fixed("") &&
      FinanceReply(src, args).value[10 + n] == Fixed(RecentTitle)
  {
    OverviewParts(src, args);
    var f := src.finance;
    var head := OverviewHead(f).value;
    var catRows := MapAll(Sub(f, "categories").value.entries, CategoryAmountRow).value;
    var mid := [Fixed(""), Fixed(RecentTitle)];
    var txRows := MapAll(LatestTxns(f).value, RecentTxnRow).value;
    InThirdPart(head, catRows, mid, txRows, 0);
    InThirdPart(head, catRows, mid, txRows, 1);
  }

  /** After the monthly figures the overview shows one total per category, in
      the record's order. */
  lemma OverviewCategoryRows(src: Sources, args: map<string, Value>)
    requires !Truthy(ArgGet(args, "category", Null))
    requires FinanceReply(src, args).Ok?
    ensures Sub(src.finance, "categories").Ok? && Sub(src.finance, "categories").value.Dict?
    ensures var entries := Sub(src.finance, "categories").value.entries;
      forall i :: 0 <= i < |entries| ==>
        CategoryAmountRow(entries[i]).Ok? &&
        9 + i < |FinanceReply(src, args).value| &&
        FinanceReply(src, args).value[9 + i] == CategoryAmountRow(entries[i]).value
  {
    OverviewParts(src, args);
    var f := src.finance;
    var reply := FinanceReply(src, args).value;
    var head := OverviewHead(f).value;
    var entries := Sub(f, "categories").value.entries;
    var catRows := MapAll(entries, CategoryAmountRow).value;
    var txRows := MapAll(LatestTxns(f).value, RecentTxnRow).value;
    forall i | 0 <= i < |entries|
      ensures CategoryAmountRow(entries[i]).Ok? && 9 + i < |reply| && reply[9 + i] == CategoryAmountRow(entries[i]).value
    {
      MapAllAt(entries, CategoryAmountRow, i);
      InSecondPart(head, catRows, [Fixed(""), Fixed(RecentTitle)], txRows, i);
    }
  }

  /** The overview closes with the ten latest transactions, one line each, in
      the record's order. */
  lemma OverviewTxnRows(src: Sources, args: map<string, Value>)
    requires !Truthy(ArgGet(args, "category", Null))
    requires FinanceReply(src, args).Ok?
    ensures Sub(src.finance, "categories").Ok? && Sub(src.finance, "categories").value.Dict?
    ensures LatestTxns(src.finance).Ok?
    ensures var n := |Sub(src.finance, "categories").value.entries|;
      var txns := LatestTxns(src.finance).value;
      forall i :: 0 <= i < |txns| ==>
        RecentTxnRow(txns[i]).Ok? &&
        11 + n + i < |FinanceReply(src, args).value| &&
        FinanceReply(src, args).value[11 + n + i] == RecentTxnRow(txns[i]).value
  {
    OverviewParts(src, args);
    var f := src.finance;
    var reply := FinanceReply(src, args).value;
    var head := OverviewHead(f).value;
    var entries := Sub(f, "categories").value.entries;
    var catRows := MapAll(entries, CategoryAmountRow).value;
    var txns := LatestTxns(f).value;
    var txRows := MapAll(txns, RecentTxnRow).value;
    forall i | 0 <= i < |txns|
      ensures RecentTxnRow(txns[i]).Ok? && 11 + |entries| + i < |reply| &&
        reply[11 + |entries| + i] == RecentTxnRow(txns[i]).value
    {
      MapAllAt(txns, RecentTxnRow, i);
      InLastPart(head, catRows, [Fixed(""), Fixed(RecentTitle)], txRows, i);
    }
  }

  /** How the overview is assembled from the figures, the category totals and
      the latest transactions. */
  lemma OverviewParts(src: Sources, args: map<string, Value>)
    requires !Truthy(ArgGet(args, "category", Null))
    requires FinanceReply(src, args).Ok?
    ensures OverviewHead(src.finance).Ok?
    ensures Sub(src.finance, "categories").Ok? && Sub(src.finance, "categories").value.Dict?
    ensures MapAll(Sub(src.finance, "categories").value.entries, CategoryAmountRow).Ok?
    ensures LatestTxns(src.finance).Ok? && |LatestTxns(src.finance).value| <= 10
    ensures MapAll(LatestTxns(src.finance).value, RecentTxnRow).Ok?
    ensures FinanceReply(src, args).value ==
      OverviewHead(src.finance).value
      + MapAll(Sub(src.finance, "categories").value.entries, CategoryAmountRow).value
      + [Fixed(""), Fixed(RecentTitle)]
      + MapAll(LatestTxns(src.finance).value, RecentTxnRow).value
  {
    var recent := Sub(src.finance, "recent_transactions").value;
    assert SliceFront(recent, 10).Ok?;
  }

  // ---------------------------------------------------------------------------
  // record_expense
  // ---------------------------------------------------------------------------

  /** The confirmation for a new expense; the category must be usable as a
      dict key (the store looks its icon up), and the amount is formatted
      only after the record is stored. */
  function ExpenseReply(args: map<string, Value>, date: string): Result<seq<Line>> {
    var item :- ArgSub(args, "item");
    var amount :- ArgSub(args, "amount");
    var category :- ArgSub(args, "category");
    var icon :- Persistence.IconOf(category);
    var shown :- Numeric(amount);
    Ok([Row(ExpenseRecorded, [item, shown, category, Str(date)])])
  }

  /** The user data file after `record_expense`: untouched when an argument
      is missing, loaded but unchanged when the category is unhashable, and
      otherwise holding the new record in front. */
  function ExpenseEffect(args: map<string, Value>, date: string, f: Persistence.StoredFile): Persistence.StoredFile
    requires f.Stored? ==> Persistence.WellKinded(f.doc)
  {
    if !("item" in args && "amount" in args && "category" in args) then f
    else if !Hashable(args["category"]) then Persistence.AfterLoad(f)
    else
      var record := Persistence.Expense(date, args["item"], args["amount"], args["category"],
                                        Persistence.IconOf(args["category"]).value);
      Persistence.Stored(Persistence.WithExpense(Persistence.Loaded(f), record))
  }

  method RecordExpense(store: Persistence.UserDataStore, args: map<string, Value>, date: string)
    returns (r: Result<seq<Line>>)
    requires store.Valid()
    modifies store
    ensures store.Valid()
    ensures r == ExpenseReply(args, date)
    ensures store.file == ExpenseEffect(args, date, old(store.file))
  {
    var item :- ArgSub(args, "item");
    var amount :- ArgSub(args, "amount");
    var category :- ArgSub(args, "category");
    var record :- store.AddExpense(item, amount, category, date);
    var shown :- Numeric(amount);
    r := Ok([Row(ExpenseRecorded, [item, shown, category, Str(record.date)])]);
  }

  /** An amount that cannot be formatted still leaves the expense recorded,
      although the call answers with an error. */
  lemma ExpenseStoredDespiteError(args: map<string, Value>, date: string, f: Persistence.StoredFile)
    requires f.Stored? ==> Persistence.WellKinded(f.doc)
    requires "item" in args && "amount" in args && "category" in args
    requires args["category"].Str? && args["amount"].Str?
    ensures ExpenseReply(args, date) == Err(ValueError)
    ensures ExpenseEffect(args, date, f).Stored?
    ensures Persistence.ExtraTransactions(ExpenseEffect(args, date, f).doc) ==
      [Persistence.Expense(date, args["item"], args["amount"], args["category"],
                           Persistence.CategoryIcon(args["category"].s))]
      + Persistence.ExtraTransactions(Persistence.Loaded(f))
  {
  }

  // ---------------------------------------------------------------------------
  // query_health
  // ---------------------------------------------------------------------------

  const HealthTitle := "今日健康数据："

  /** Whole days since the date `last`, which must be a `%Y-%m-%d` string. */
  function DaysSince(clock: Clock, last: Value): (r: Result<int>)
    ensures !last.Str? ==> r == Err(TypeError)
    ensures last.Str? && clock.daysSince(last.s).None? ==> r == Err(ValueError)
    ensures last.Str? && clock.daysSince(last.s).Some? ==> r == Ok(clock.daysSince(last.s).value)
  {
    if !last.Str? then Err(TypeError)
    else match clock.daysSince(last.s)
      case None => Err(ValueError)
      case Some(d) => Ok(d)
  }

  /** Today's health figures, the days since the last exercise, and the
      body metrics. */
  function HealthReply(src: Sources, clock: Clock): (r: Result<seq<Line>>)
    ensures r.Ok? ==> |r.value| == 9 && r.value[0] == Fixed(HealthTitle)
    ensures r.Ok? ==>
      && Sub(src.health, "last_exercise").Ok? && Sub(src.health, "last_exercise").value.Str?
      && clock.daysSince(Sub(src.health, "last_exercise").value.s).Some?
      && r.value[5] == Row(SinceExercise, [Int(clock.daysSince(Sub(src.health, "last_exercise").value.s).value)])
  {
    var health := src.health;
    var last :- Sub(health, "last_exercise");
    var days :- DaysSince(clock, last);
    var steps :- NumericSub(health, "today_steps");
    var goal :- NumericSub(health, "step_goal");
    var daily :- Cells(health, HealthDaily);
    var rest :- Cells(health, HealthRest);
    Ok([Fixed(HealthTitle), Row(Steps, [steps, goal]), Row(Sleep, daily[..2]),
        Row(Water, daily[2..4]), Row(ExerciseWeek, daily[4..]), Row(SinceExercise, [Int(days)]),
        Row(Mood, [rest[0]]), Row(Streak, [rest[1]]), Row(BodyMetrics, rest[2..])])
  }

  /** The daily figures and the remaining fields query_health prints, in order. */
  const HealthDaily := ["sleep_hours", "sleep_quality", "water_cups", "water_goal",
    "exercise_this_week", "exercise_goal"]
  const HealthRest := ["mood", "checkin_streak", "bmi", "weight"]

  /** An answer means the record has every field the answer prints. */
  lemma HealthFieldsPresent(src: Sources, clock: Clock)
    requires HealthReply(src, clock).Ok?
    ensures HasKey(src.health, "last_exercise") && HasKey(src.health, "today_steps")
    ensures HasKey(src.health, "step_goal")
    ensures forall i :: 0 <= i < |HealthDaily| ==> HasKey(src.health, HealthDaily[i])
    ensures forall i :: 0 <= i < |HealthRest| ==> HasKey(src.health, HealthRest[i])
  {
    HealthReplyReads(src, clock);
    MapAllNoRaise(HealthDaily, (k: string) => Sub(src.health, k));
    MapAllNoRaise(HealthRest, (k: string) => Sub(src.health, k));
  }

  /** What an answer has read without raising. */
  lemma HealthReplyReads(src: Sources, clock: Clock)
    requires HealthReply(src, clock).Ok?
    ensures HasKey(src.health, "last_exercise") && HasKey(src.health, "today_steps")
    ensures HasKey(src.health, "step_goal")
    ensures Cells(src.health, HealthDaily).Ok? && Cells(src.health, HealthRest).Ok?
  {
  }

  /** The health answer needs body metrics that the mock health record lacks. */
  lemma HealthNeedsBodyMetrics(src: Sources, clock: Clock)
    requires !HasKey(src.health, "bmi")
    ensures HealthReply(src, clock).Err?
  {
    assert HealthRest[2] == "bmi";
    if HealthReply(src, clock).Ok? {
      HealthFieldsPresent(src, clock);
    }
  }

  /** A record that has every field printed before the body metrics, with a
      parsable last exercise and numeric step figures, but no `bmi`, makes
      query_health raise KeyError("bmi"). */
  lemma HealthWithoutBmi(src: Sources, clock: Clock)
    requires src.health.Dict? && !HasKey(src.health, "bmi")
    requires Sub(src.health, "last_exercise").Ok? && Sub(src.health, "last_exercise").value.Str?
    requires clock.daysSince(Sub(src.health, "last_exercise").value.s).Some?
    requires Sub(src.health, "today_steps").Ok? && NumberOf(Sub(src.health, "today_steps").value).Some?
    requires Sub(src.health, "step_goal").Ok? && NumberOf(Sub(src.health, "step_goal").value).Some?
    requires HasKey(src.health, "sleep_hours") && HasKey(src.health, "sleep_quality")
    requires HasKey(src.health, "water_cups") && HasKey(src.health, "water_goal")
    requires HasKey(src.health, "exercise_this_week") && HasKey(src.health, "exercise_goal")
    requires HasKey(src.health, "mood") && HasKey(src.health, "checkin_streak")
    ensures HealthReply(src, clock) == Err(KeyError("bmi"))
  {
    DailyCellsOk(src.health);
    CellsMissing(src.health, HealthRest, 2);
  }

  /** A record with the six daily figures reads them without raising. */
  lemma DailyCellsOk(h: Value)
    requires HasKey(h, "sleep_hours") && HasKey(h, "sleep_quality")
    requires HasKey(h, "water_cups") && HasKey(h, "water_goal")
    requires HasKey(h, "exercise_this_week") && HasKey(h, "exercise_goal")
    ensures Cells(h, HealthDaily).Ok?
  {
    forall i | 0 <= i < |HealthDaily| ensures HasKey(h, HealthDaily[i]) {
      if i < 2 { assert HealthDaily[i] in {"sleep_hours", "sleep_quality"}; }
      else if i < 4 { assert HealthDaily[i] in {"water_cups", "water_goal"}; }
      else { assert HealthDaily[i] in {"exercise_this_week", "exercise_goal"}; }
    }
    MapAllErr(HealthDaily, (k: string) => Sub(h, k));
  }

  /** On the mock health record, read on a day the clock can count from its
      last exercise, query_health raises KeyError("bmi"). */
  lemma HealthOnMockData(src: Sources, clock: Clock)
    requires src.health == GetHealth()
    requires clock.daysSince(MockLastExercise).Some?
    ensures HealthReply(src, clock) == Err(KeyError("bmi"))
  {
    MockHealthHasNoBmi(src.health);
    MockHealthFigures(src.health);
    MockHealthKeys(src.health);
    IntIsNumber(Sub(src.health, "today_steps").value);
    IntIsNumber(Sub(src.health, "step_goal").value);
    HealthWithoutBmi(src, clock);
  }

  // ---------------------------------------------------------------------------
  // query_todos
  // ---------------------------------------------------------------------------

  const NoMatchingTodos := "没有符合条件的待办事项。"
  const PendingTitle := "未完成的待办事项："
  const DoneTitle := "已完成的待办事项："
  const AllTitle := "全部待办事项："

  /** The todos a status keeps, and the title they are listed under. */
  datatype TodoSelection = TodoSelection(kept: Value, title: string)

  /** "pending" keeps the todos not done and "done" the ones done; any other
      status keeps the list as it is. */
  function SelectTodos(todos: Value, status: Value): Result<TodoSelection> {
    if PyEq(status, Str("pending")) then
      var items :- Iterate(todos);
      var kept :- FilterBy(items, NotDone);
      Ok(TodoSelection(List(kept), PendingTitle))
    else if PyEq(status, Str("done")) then
      var items :- Iterate(todos);
      var kept :- FilterBy(items, IsDone);
      Ok(TodoSelection(List(kept), DoneTitle))
    else Ok(TodoSelection(todos, AllTitle))
  }

  function DoneMark(done: bool): string {
    if done then "✅" else "⬜"
  }

  function TodoRow(t: Value): Result<Line> {
    var done :- Sub(t, "done");
    var cells :- Cells(t, ["id", "priority", "task", "deadline"]);
    Ok(Row(TodoItem, [Str(DoneMark(Truthy(done)))] + cells))
  }

  function TodosReply(src: Sources, args: map<string, Value>): Result<seq<Line>> {
    var status := ArgGet(args, "status", Str("all"));
    var selection :- SelectTodos(src.todos, status);
    if !Truthy(selection.kept) then Ok([Fixed(NoMatchingTodos)])
    else
      var items :- Iterate(selection.kept);
      var rows :- MapAll(items, TodoRow);
      Ok([Fixed(selection.title)] + rows)
  }

  /** A todo without an id cannot be listed. */
  lemma TodoRowWithoutId(t: Value)
    requires t.Dict? && HasKey(t, "done") && !HasKey(t, "id")
    ensures TodoRow(t) == Err(KeyError("id"))
  {
    CellsMissing(t, ["id", "priority", "task", "deadline"], 0);
  }

  /** When no todo has an id and at least one is pending and one is done,
      every status selects some todo and the listing raises KeyError. */
  lemma TodosWithoutId(src: Sources, args: map<string, Value>, p: nat, d: nat)
    requires src.todos.List? && p < |src.todos.items| && d < |src.todos.items|
    requires forall i :: 0 <= i < |src.todos.items| ==>
      src.todos.items[i].Dict? && HasKey(src.todos.items[i], "done") && !HasKey(src.todos.items[i], "id")
    requires Sub(src.todos.items[p], "done").Ok? && !Truthy(Sub(src.todos.items[p], "done").value)
    requires Sub(src.todos.items[d], "done").Ok? && Truthy(Sub(src.todos.items[d], "done").value)
    ensures TodosReply(src, args) == Err(KeyError("id"))
  {
    var status := ArgGet(args, "status", Str("all"));
    SelectionNonEmpty(src.todos, status, p, d);
    var kept := SelectTodos(src.todos, status).value.kept.items;
    TodoRowWithoutId(kept[0]);
    MapAllFirstError(kept, TodoRow, 0);
  }

  /** Each status selects some todo when one is pending and one is done;
      the first selected is one of the todos. */
  lemma SelectionNonEmpty(todos: Value, status: Value, p: nat, d: nat)
    requires todos.List? && p < |todos.items| && d < |todos.items|
    requires forall i :: 0 <= i < |todos.items| ==> HasKey(todos.items[i], "done")
    requires Sub(todos.items[p], "done").Ok? && !Truthy(Sub(todos.items[p], "done").value)
    requires Sub(todos.items[d], "done").Ok? && Truthy(Sub(todos.items[d], "done").value)
    ensures SelectTodos(todos, status).Ok? && SelectTodos(todos, status).value.kept.List?
    ensures |SelectTodos(todos, status).value.kept.items| > 0
    ensures SelectTodos(todos, status).value.kept.items[0] in todos.items
  {
    var items := todos.items;
    if PyEq(status, Str("pending")) {
      FilterByOk(items, NotDone);
      SelectMembers(items, NotDone);
      assert items[p] in Select(items, NotDone);
    } else if PyEq(status, Str("done")) {
      FilterByOk(items, IsDone);
      SelectMembers(items, IsDone);
      assert items[d] in Select(items, IsDone);
    }
  }

  /** On the mock todos, which carry no id, every listing raises KeyError. */
  lemma TodosOnMockData(src: Sources, args: map<string, Value>)
    requires src.todos == GetTodos()
    ensures TodosReply(src, args) == Err(KeyError("id"))
  {
    forall i | 0 <= i < 5
      ensures GetTodos().items[i].Dict? && HasKey(GetTodos().items[i], "done") && !HasKey(GetTodos().items[i], "id")
    {
      MockTodosHaveNoId(i);
    }
    MockTodoDone(0);
    MockTodoDone(4);
    TodosWithoutId(src, args, 0, 4);
  }

  method QueryTodos(src: Sources, args: map<string, Value>) returns (r: Result<seq<Line>>)
    ensures r == TodosReply(src, args)
  {
    var status := ArgGet(args, "status", Str("all"));
    var selection :- SelectTodos(src.todos, status);
    if !Truthy(selection.kept) {
      return Ok([Fixed(NoMatchingTodos)]);
    }
    var items :- Iterate(selection.kept);
    r := AppendEach([Fixed(selection.title)], items, TodoRow);
  }

  /** On a list of todos that all carry a done flag, "pending" keeps exactly
      the ones not done and "done" exactly the ones done, both in order, and
      any other status keeps them all. */
  lemma {:induction false} TodoStatusFilter(todos: seq<Value>, status: Value)
    requires forall i :: 0 <= i < |todos| ==> HasKey(todos[i], "done")
    ensures SelectTodos(List(todos), status).Ok?
    ensures PyEq(status, Str("pending")) ==>
      SelectTodos(List(todos), status).value == TodoSelection(List(Select(todos, NotDone)), PendingTitle)
    ensures !PyEq(status, Str("pending")) && PyEq(status, Str("done")) ==>
      SelectTodos(List(todos), status).value == TodoSelection(List(Select(todos, IsDone)), DoneTitle)
    ensures !PyEq(status, Str("pending")) && !PyEq(status, Str("done")) ==>
      SelectTodos(List(todos), status).value == TodoSelection(List(todos), AllTitle)
    ensures forall t :: t in Select(todos, NotDone) <==> t in todos && HasKey(t, "done") && !Truthy(Sub(t, "done").value)
    ensures forall t :: t in Select(todos, IsDone) <==> t in todos && HasKey(t, "done") && Truthy(Sub(t, "done").value)
    ensures |Select(todos, NotDone)| + |Select(todos, IsDone)| == |todos|
  {
    assert AllOk(todos, NotDone) && AllOk(todos, IsDone);
    FilterByOk(todos, NotDone);
    FilterByOk(todos, IsDone);
    SelectMembers(todos, NotDone);
    SelectMembers(todos, IsDone);
    forall t | t in todos ensures HasKey(t, "done") {
      var i :| 0 <= i < |todos| && todos[i] == t;
    }
    PendingDoneSplit(todos);
  }

  /** An empty selection answers the fixed "none" line; otherwise the title
      comes first and then one line per kept todo, in order. */
  lemma {:induction false} TodosReplyLines(src: Sources, args: map<string, Value>)
    requires TodosReply(src, args).Ok?
    ensures SelectTodos(src.todos, ArgGet(args, "status", Str("all"))).Ok?
    ensures var kept := SelectTodos(src.todos, ArgGet(args, "status", Str("all"))).value.kept;
      !Truthy(kept) ==> TodosReply(src, args).value == [Fixed(NoMatchingTodos)]
    ensures var selection := SelectTodos(src.todos, ArgGet(args, "status", Str("all"))).value;
      Truthy(selection.kept) ==>
        && Iterate(selection.kept).Ok?
        && |TodosReply(src, args).value| == 1 + |Iterate(selection.kept).value|
        && TodosReply(src, args).value[0] == Fixed(selection.title)
        && forall i :: 0 <= i < |Iterate(selection.kept).value| ==>
             TodoRow(Iterate(selection.kept).value[i]).Ok? &&
             TodosReply(src, args).value[1 + i] == TodoRow(Iterate(selection.kept).value[i]).value
  {
    var selection := SelectTodos(src.todos, ArgGet(args, "status", Str("all"))).value;
    if Truthy(selection.kept) {
      var items := Iterate(selection.kept).value;
      MapAllNoRaise(items, TodoRow);
      var rows := MapAll(items, TodoRow).value;
      assert TodosReply(src, args).value == [Fixed(selection.title)] + rows;
    }
  }

  // ---------------------------------------------------------------------------
  // toggle_todo
  // ---------------------------------------------------------------------------

  /** `t["id"] != task_id` without raising. */
  predicate IdDiffers(t: Value, taskId: Value) {
    HasKey(t, "id") && !PyEq(Sub(t, "id").value, taskId)
  }

  /** The search loop from position `from`: the index of the first todo whose
      id equals `taskId`, `None` if there is none, or what reading an id raises. */
  function FirstMatch(items: seq<Value>, taskId: Value, from: nat): (r: Result<Option<nat>>)
    requires from <= |items|
    ensures r.Ok? && r.value.Some? ==> from <= r.value.value < |items|
    decreases |items| - from
  {
    if from == |items| then Ok(None)
    else
      var id :- Sub(items[from], "id");
      if PyEq(id, taskId) then Ok(Some(from)) else FirstMatch(items, taskId, from + 1)
  }

  /** The search finds the first todo with a matching id, after todos that
      all have other ids; it finds nothing only when every todo has another
      id; and it raises only on a todo without an id reached before any match. */
  lemma FirstMatchSpec(items: seq<Value>, taskId: Value, from: nat)
    requires from <= |items|
    ensures FirstMatch(items, taskId, from).Ok? && FirstMatch(items, taskId, from).value.Some? ==>
      var k := FirstMatch(items, taskId, from).value.value;
      HasKey(items[k], "id") && PyEq(Sub(items[k], "id").value, taskId) &&
      forall j :: from <= j < k ==> IdDiffers(items[j], taskId)
    ensures FirstMatch(items, taskId, from) == Ok(None) <==>
      forall j :: from <= j < |items| ==> IdDiffers(items[j], taskId)
    ensures FirstMatch(items, taskId, from).Err? ==>
      exists k :: from <= k < |items| && !HasKey(items[k], "id") &&
        FirstMatch(items, taskId, from).error == Sub(items[k], "id").error &&
        forall j :: from <= j < k ==> IdDiffers(items[j], taskId)
  {
    FirstMatchFound(items, taskId, from);
    FirstMatchNone(items, taskId, from);
    FirstMatchRaises(items, taskId, from);
  }

  /** A found index matches, after todos that all have other ids. */
  lemma {:induction false} FirstMatchFound(items: seq<Value>, taskId: Value, from: nat)
    requires from <= |items|
    ensures FirstMatch(items, taskId, from).Ok? && FirstMatch(items, taskId, from).value.Some? ==>
      var k := FirstMatch(items, taskId, from).value.value;
      HasKey(items[k], "id") && PyEq(Sub(items[k], "id").value, taskId) &&
      forall j :: from <= j < k ==> IdDiffers(items[j], taskId)
    decreases |items| - from
  {
    if from < |items| && HasKey(items[from], "id") && !PyEq(Sub(items[from], "id").value, taskId) {
      FirstMatchFound(items, taskId, from + 1);
      assert IdDiffers(items[from], taskId);
    }
  }

  /** Nothing is found exactly when every todo has another id. */
  lemma {:induction false} FirstMatchNone(items: seq<Value>, taskId: Value, from: nat)
    requires from <= |items|
    ensures FirstMatch(items, taskId, from) == Ok(None) <==>
      forall j :: from <= j < |items| ==> IdDiffers(items[j], taskId)
    decreases |items| - from
  {
    if from < |items| {
      FirstMatchNone(items, taskId, from + 1);
      if !IdDiffers(items[from], taskId) {
        assert FirstMatch(items, taskId, from) != Ok(None);
      }
    }
  }

  /** The search raises only on a todo without an id, reached before any match. */
  lemma {:induction false} FirstMatchRaises(items: seq<Value>, taskId: Value, from: nat)
    requires from <= |items|
    ensures FirstMatch(items, taskId, from).Err? ==>
      exists k :: from <= k < |items| && !HasKey(items[k], "id") &&
        FirstMatch(items, taskId, from).error == Sub(items[k], "id").error &&
        forall j :: from <= j < k ==> IdDiffers(items[j], taskId)
    decreases |items| - from
  {
    if from < |items| && FirstMatch(items, taskId, from).Err? {
      if !HasKey(items[from], "id") {
        assert from <= from < |items|;
      } else {
        assert IdDiffers(items[from], taskId);
        FirstMatchRaises(items, taskId, from + 1);
        var k :| from + 1 <= k < |items| && !HasKey(items[k], "id") &&
          FirstMatch(items, taskId, from + 1).error == Sub(items[k], "id").error &&
          forall j :: from + 1 <= j < k ==> IdDiffers(items[j], taskId);
        assert forall j :: from <= j < k ==> IdDiffers(items[j], taskId);
      }
    }
  }

  /** The search loop over the todos, stopping at the first matching id. */
  method FindTodo(items: seq<Value>, taskId: Value) returns (r: Result<Option<nat>>)
    ensures r == FirstMatch(items, taskId, 0)
  {
    var i := 0;
    while i < |items|
      invariant i <= |items|
      invariant FirstMatch(items, taskId, i) == FirstMatch(items, taskId, 0)
      decreases |items| - i
    {
      var id :- Sub(items[i], "id");
      if PyEq(id, taskId) {
        return Ok(Some(i));
      }
      i := i + 1;
    }
    r := Ok(None);
  }

  function StatusText(done: bool): string {
    if done then "已完成" else "未完成"
  }

  /** The answer to `toggle_todo`: not found, or the task and its new status. */
  function ToggleReply(src: Sources, args: map<string, Value>): Result<seq<Line>> {
    var taskId :- ArgSub(args, "task_id");
    var items :- Iterate(src.todos);
    var found :- FirstMatch(items, taskId, 0);
    if found.None? then Ok([Row(TodoNotFound, [taskId])])
    else
      var target := items[found.value];
      var done :- Sub(target, "done");
      var task :- Sub(target, "task");
      Ok([Row(TodoToggled, [task, Str(StatusText(!Truthy(done)))])])
  }

  /** The user data file after `toggle_todo`: the found todo's override is set
      to the opposite of its done flag; nothing is written when there is no
      match or the call raises first. */
  function ToggleEffect(src: Sources, args: map<string, Value>, f: Persistence.StoredFile): Persistence.StoredFile
    requires f.Stored? ==> Persistence.WellKinded(f.doc)
  {
    if "task_id" !in args then f
    else match Iterate(src.todos)
      case Err(_) => f
      case Ok(items) =>
        match FirstMatch(items, args["task_id"], 0)
        case Err(_) => f
        case Ok(None) => f
        case Ok(Some(k)) =>
          match Sub(items[k], "done")
          case Err(_) => f
          case Ok(done) =>
            Persistence.Stored(Persistence.WithTodoStatus(Persistence.Loaded(f), args["task_id"], !Truthy(done)))
  }

  method ToggleTodo(store: Persistence.UserDataStore, src: Sources, args: map<string, Value>)
    returns (r: Result<seq<Line>>)
    requires store.Valid()
    modifies store
    ensures store.Valid()
    ensures r == ToggleReply(src, args)
    ensures store.file == ToggleEffect(src, args, old(store.file))
  {
    var taskId :- ArgSub(args, "task_id");
    var items :- Iterate(src.todos);
    var found :- FindTodo(items, taskId);
    if found.None? {
      return Ok([Row(TodoNotFound, [taskId])]);
    }
    var target := items[found.value];
    var done :- Sub(target, "done");
    var newStatus := !Truthy(done);
    store.UpdateTodoStatus(taskId, newStatus);
    var task :- Sub(target, "task");
    r := Ok([Row(TodoToggled, [task, Str(StatusText(newStatus))])]);
  }

  /** An id that no todo has answers "not found" and writes nothing. */
  lemma ToggleNotFound(src: Sources, args: map<string, Value>, f: Persistence.StoredFile)
    requires f.Stored? ==> Persistence.WellKinded(f.doc)
    requires "task_id" in args && src.todos.List?
    requires forall j :: 0 <= j < |src.todos.items| ==> IdDiffers(src.todos.items[j], args["task_id"])
    ensures ToggleReply(src, args) == Ok([Row(TodoNotFound, [args["task_id"]])])
    ensures ToggleEffect(src, args, f) == f
  {
    FirstMatchSpec(src.todos.items, args["task_id"], 0);
  }

  /** The first todo with the id is the one toggled: the answer names its
      task and the opposite of its done flag as the new status. */
  lemma ToggleFoundReply(src: Sources, args: map<string, Value>, k: nat)
    requires "task_id" in args && src.todos.List? && k < |src.todos.items|
    requires HasKey(src.todos.items[k], "id") && PyEq(Sub(src.todos.items[k], "id").value, args["task_id"])
    requires forall j :: 0 <= j < k ==> IdDiffers(src.todos.items[j], args["task_id"])
    requires HasKey(src.todos.items[k], "done") && HasKey(src.todos.items[k], "task")
    ensures ToggleReply(src, args) ==
      Ok([Row(TodoToggled, [Sub(src.todos.items[k], "task").value,
                            Str(StatusText(!Truthy(Sub(src.todos.items[k], "done").value)))])])
  {
    FirstMatchAt(src.todos.items, args["task_id"], 0, k);
  }

  /** Toggling the first todo with the id sets its override to the opposite
      of its done flag, and no other part of the user data changes. */
  lemma ToggleFoundEffect(src: Sources, args: map<string, Value>, f: Persistence.StoredFile, k: nat)
    requires f.Stored? ==> Persistence.WellKinded(f.doc)
    requires "task_id" in args && src.todos.List? && k < |src.todos.items|
    requires HasKey(src.todos.items[k], "id") && PyEq(Sub(src.todos.items[k], "id").value, args["task_id"])
    requires forall j :: 0 <= j < k ==> IdDiffers(src.todos.items[j], args["task_id"])
    requires HasKey(src.todos.items[k], "done")
    ensures ToggleEffect(src, args, f) ==
      Persistence.Stored(Persistence.WithTodoStatus(Persistence.Loaded(f), args["task_id"],
                                                    !Truthy(Sub(src.todos.items[k], "done").value)))
    ensures ToggleEffect(src, args, f).Stored?
    ensures Persistence.OnlySectionChanged(Persistence.Loaded(f), ToggleEffect(src, args, f).doc, Persistence.TodosKey)
    ensures Persistence.TodoOverrides(ToggleEffect(src, args, f).doc) ==
      Persistence.TodoOverrides(Persistence.Loaded(f))[args["task_id"] := !Truthy(Sub(src.todos.items[k], "done").value)]
  {
    FirstMatchAt(src.todos.items, args["task_id"], 0, k);
  }

  /** As written, todos without an id cannot be toggled: reading the first
      todo's id raises KeyError("id") whatever id is asked for. */
  lemma ToggleIdlessTodos(src: Sources, args: map<string, Value>)
    requires "task_id" in args && src.todos.List? && |src.todos.items| > 0
    requires src.todos.items[0].Dict? && !HasKey(src.todos.items[0], "id")
    ensures ToggleReply(src, args) == Err(KeyError("id"))
  {
  }

  /** On the mock todos every `toggle_todo` call answers with the error. */
  lemma ToggleOnMockTodos(src: Sources, clock: Clock, args: map<string, Value>)
    requires "task_id" in args && src.todos == GetTodos()
    ensures Execute(src, clock, "toggle_todo", args) == ToolError(KeyError("id"))
  {
    MockTodosHaveNoId(0);
    ToggleIdlessTodos(src, args);
  }

  /** With the todos numbered 1, 2, ..., asking for id `k + 1` toggles the
      todo at position `k`. */
  lemma ToggleNumberedTodo(todos: seq<Value>, src: Sources, args: map<string, Value>, k: nat)
    requires forall i :: 0 <= i < |todos| ==> todos[i].Dict?
    requires src.todos == List(NumberedTodos(todos))
    requires k < |todos| && HasKey(todos[k], "done") && HasKey(todos[k], "task")
    requires "task_id" in args && args["task_id"] == Int(k + 1)
    ensures ToggleReply(src, args) ==
      Ok([Row(TodoToggled, [Sub(todos[k], "task").value, Str(StatusText(!Truthy(Sub(todos[k], "done").value)))])])
  {
    var numbered := NumberedTodos(todos);
    forall j | 0 <= j < k ensures IdDiffers(numbered[j], Int(k + 1)) {
      NumberedFields(todos, j, "id");
    }
    NumberedFields(todos, k, "done");
    NumberedFields(todos, k, "task");
    ToggleFoundReply(src, args, k);
  }

  /** The search from `from` stops at `k` when `k` is the first match. */
  lemma {:induction false} FirstMatchAt(items: seq<Value>, taskId: Value, from: nat, k: nat)
    requires from <= k < |items|
    requires HasKey(items[k], "id") && PyEq(Sub(items[k], "id").value, taskId)
    requires forall j :: from <= j < k ==> IdDiffers(items[j], taskId)
    ensures FirstMatch(items, taskId, from) == Ok(Some(k))
    decreases k - from
  {
    if from < k {
      assert IdDiffers(items[from], taskId);
      FirstMatchAt(items, taskId, from + 1, k);
    }
  }

  // ---------------------------------------------------------------------------
  // query_exams
  // ---------------------------------------------------------------------------

  const NoExams := "近期没有考试安排。"
  const ExamsTitle := "近期考试安排："
  const Urgent := "🔴 紧急！"
  const Soon := "🟡 注意"
  const Later := "🔵"

  /** The urgency band of an exam `daysLeft` days away: urgent up to 3 days,
      a warning up to 7, and plain after that. The three bands cover every
      number and do not overlap; a value that is not a number raises TypeError. */
  function UrgencyMark(daysLeft: Value): (r: Result<string>)
    ensures r.Err? <==> NumberOf(daysLeft).None?
    ensures r.Err? ==> r.error == TypeError
    ensures r.Ok? ==> (r.value == Urgent <==> NumberOf(daysLeft).value <= 3.0)
    ensures r.Ok? ==> (r.value == Soon <==> 3.0 < NumberOf(daysLeft).value <= 7.0)
    ensures r.Ok? ==> (r.value == Later <==> 7.0 < NumberOf(daysLeft).value)
  {
    match NumberOf(daysLeft)
    case None => Err(TypeError)
    case Some(days) => Ok(if days <= 3.0 then Urgent else if days <= 7.0 then Soon else Later)
  }

  function ExamRow(e: Value): Result<Line> {
    var daysLeft :- Sub(e, "days_left");
    var mark :- UrgencyMark(daysLeft);
    var cells :- Cells(e, ["course", "type", "date", "days_left", "location"]);
    Ok(Row(ExamItem, [Str(mark)] + cells))
  }

  function ExamsReply(src: Sources): Result<seq<Line>> {
    if !Truthy(src.exams) then Ok([Fixed(NoExams)])
    else
      var items :- Iterate(src.exams);
      var rows :- MapAll(items, ExamRow);
      Ok([Fixed(ExamsTitle)] + rows)
  }

  /** An exam list whose first record has a numeric `days_left` but no type
      raises KeyError on "type". */
  lemma ExamsWithoutType(src: Sources)
    requires src.exams.List? && |src.exams.items| > 0 && src.exams.items[0].Dict?
    requires HasKey(src.exams.items[0], "course") && !HasKey(src.exams.items[0], "type")
    requires Sub(src.exams.items[0], "days_left").Ok? && NumberOf(Sub(src.exams.items[0], "days_left").value).Some?
    ensures ExamsReply(src) == Err(KeyError("type"))
  {
    ExamRowWithoutType(src.exams.items[0]);
    MapAllFirstError(src.exams.items, ExamRow, 0);
  }

  /** An exam with a numeric `days_left` but no type cannot be listed. */
  lemma ExamRowWithoutType(e: Value)
    requires e.Dict? && HasKey(e, "course") && !HasKey(e, "type")
    requires Sub(e, "days_left").Ok? && NumberOf(Sub(e, "days_left").value).Some?
    ensures ExamRow(e) == Err(KeyError("type"))
  {
    CellsMissing(e, ["course", "type", "date", "days_left", "location"], 1);
  }

  /** On the mock exams, which carry no type, `query_exams` raises KeyError. */
  lemma ExamsOnMockData(src: Sources)
    requires src.exams == GetUpcomingExams()
    ensures ExamsReply(src) == Err(KeyError("type"))
  {
    MockExamsHaveNoType(0);
    ExamsWithoutType(src);
  }

  method QueryExams(src: Sources) returns (r: Result<seq<Line>>)
    ensures r == ExamsReply(src)
  {
    if !Truthy(src.exams) {
      return Ok([Fixed(NoExams)]);
    }
    var items :- Iterate(src.exams);
    r := AppendEach([Fixed(ExamsTitle)], items, ExamRow);
  }

  /** Every exam gets one line, in order, marked with its urgency band. */
  lemma {:induction false} ExamLines(src: Sources)
    requires Truthy(src.exams) && ExamsReply(src).Ok?
    ensures Iterate(src.exams).Ok?
    ensures |ExamsReply(src).value| == 1 + |Iterate(src.exams).value|
    ensures forall i :: 0 <= i < |Iterate(src.exams).value| ==>
      ExamRow(Iterate(src.exams).value[i]).Ok? &&
      ExamsReply(src).value[1 + i] == ExamRow(Iterate(src.exams).value[i]).value &&
      ExamsReply(src).value[1 + i].cells[0] ==
        Str(UrgencyMark(Sub(Iterate(src.exams).value[i], "days_left").value).value)
  {
    var items := Iterate(src.exams).value;
    MapAllNoRaise(items, ExamRow);
    var rows := MapAll(items, ExamRow).value;
    assert ExamsReply(src).value == [Fixed(ExamsTitle)] + rows;
  }

  // ---------------------------------------------------------------------------
  // query_travel
  // ---------------------------------------------------------------------------

  const ItineraryTitle := "行程安排："
  const Free := "免费"

  function StopRow(stop: Value): Result<Line> {
    var cost :- Sub(stop, "cost");
    var paid :- Above(cost, 0);
    var shown :- if paid then Numeric(cost) else Ok(Str(Free));
    var cells :- Cells(stop, ["time", "activity", "location"]);
    Ok(Row(Stop, cells + [shown]))
  }

  function AsStrings(parts: seq<string>): seq<Value> {
    seq(|parts|, i requires 0 <= i < |parts| => Str(parts[i]))
  }

  /** The trip's figures, one line per stop, then the packing list. */
  function TravelHead(travel: Value): Result<seq<Line>> {
    var name :- Sub(travel, "trip_name");
    var date :- Sub(travel, "date");
    var budget :- NumericSub(travel, "budget");
    var cost :- NumericSub(travel, "total_estimated_cost");
    var companions :- Sub(travel, "companions");
    var names :- JoinableStrings(companions);
    Ok([Row(TripName, [name]), Row(TripDate, [date]), Row(TripBudget, [budget]), Row(TripCost, [cost]),
        Row(Companions, [List(AsStrings(names))]), Fixed(""), Fixed(ItineraryTitle)])
  }

  function PackingLine(travel: Value): Result<Line> {
    var packing :- Sub(travel, "packing_list");
    var items :- JoinableStrings(packing);
    Ok(Row(PackingList, [List(AsStrings(items))]))
  }

  function TravelReply(src: Sources): Result<seq<Line>> {
    var travel :- Getter(src.travel, "get_travel_plan");
    var head :- TravelHead(travel);
    var itinerary :- Sub(travel, "itinerary");
    var stops :- Iterate(itinerary);
    var rows :- MapAll(stops, StopRow);
    var packing :- PackingLine(travel);
    Ok(head + rows + [Fixed(""), packing])
  }

  method QueryTravel(src: Sources) returns (r: Result<seq<Line>>)
    ensures r == TravelReply(src)
  {
    var travel :- Getter(src.travel, "get_travel_plan");
    var lines :- TravelHead(travel);
    var itinerary :- Sub(travel, "itinerary");
    var stops :- Iterate(itinerary);
    lines :- AppendEach(lines, stops, StopRow);
    var packing :- PackingLine(travel);
    r := Ok(lines + [Fixed(""), packing]);
  }

  /** A stop costs its price when that is above 0 and is free otherwise. */
  lemma StopCost(stop: Value)
    requires StopRow(stop).Ok?
    ensures var cost := NumberOf(Sub(stop, "cost").value);
      && cost.Some?
      && StopRow(stop).value.cells[3] == (if cost.value > 0.0 then Sub(stop, "cost").value else Str(Free))
  {
  }

  // ---------------------------------------------------------------------------
  // execute_tool
  // ---------------------------------------------------------------------------

  /** The tools that write to the user data file. */
  predicate Writes(name: string) {
    name == "record_expense" || name == "toggle_todo"
  }

  /** What `execute_tool` answers: the handler's lines, its exception, or the
      unknown-tool message. */
  function Execute(src: Sources, clock: Clock, name: string, args: map<string, Value>): ToolText {
    if name == "query_schedule" then AsText(ScheduleReply(src, args, clock))
    else if name == "query_finance" then AsText(FinanceReply(src, args))
    else if name == "record_expense" then AsText(ExpenseReply(args, clock.date))
    else if name == "query_health" then AsText(HealthReply(src, clock))
    else if name == "query_todos" then AsText(TodosReply(src, args))
    else if name == "toggle_todo" then AsText(ToggleReply(src, args))
    else if name == "query_exams" then AsText(ExamsReply(src))
    else if name == "query_travel" then AsText(TravelReply(src))
    else UnknownTool(name)
  }

  /** The user data file after `execute_tool`. */
  function Effect(src: Sources, clock: Clock, name: string, args: map<string, Value>, f: Persistence.StoredFile)
    : Persistence.StoredFile
    requires f.Stored? ==> Persistence.WellKinded(f.doc)
  {
    if name == "record_expense" then ExpenseEffect(args, clock.date, f)
    else if name == "toggle_todo" then ToggleEffect(src, args, f)
    else f
  }

  /** `execute_tool`: runs the handler the name selects, turning anything it
      raises into an error answer. */
  method ExecuteTool(store: Persistence.UserDataStore, src: Sources, clock: Clock, name: string,
                     args: map<string, Value>) returns (out: ToolText)
    requires store.Valid()
    modifies store
    ensures store.Valid()
    ensures out == Execute(src, clock, name, args)
    ensures store.file == Effect(src, clock, name, args, old(store.file))
  {
    var r: Result<seq<Line>>;
    if name == "query_schedule" {
      r := QuerySchedule(src, args, clock);
    } else if name == "query_finance" {
      r := QueryFinance(src, args);
    } else if name == "record_expense" {
      r := RecordExpense(store, args, clock.date);
    } else if name == "query_health" {
      r := HealthReply(src, clock);
    } else if name == "query_todos" {
      r := QueryTodos(src, args);
    } else if name == "toggle_todo" {
      r := ToggleTodo(store, src, args);
    } else if name == "query_exams" {
      r := QueryExams(src);
    } else if name == "query_travel" {
      r := QueryTravel(src);
    } else {
      return UnknownTool(name);
    }
    out := AsText(r);
  }

  /** A name outside the catalogue, and only such a name, gets the
      unknown-tool answer; it runs no handler and writes nothing. */
  lemma UnknownNames(src: Sources, clock: Clock, name: string, args: map<string, Value>, f: Persistence.StoredFile)
    requires f.Stored? ==> Persistence.WellKinded(f.doc)
    ensures Execute(src, clock, name, args).UnknownTool? <==> name !in ToolNames()
    ensures name !in ToolNames() ==>
      && Execute(src, clock, name, args) == UnknownTool(name)
      && ErrorText(Execute(src, clock, name, args)) == UnknownPrefix + name
      && Effect(src, clock, name, args, f) == f
  {
    CatalogueNames();
  }

  /** An error answer comes from a catalogued tool whose handler raised, and
      its text starts with the error prefix. */
  lemma ErrorsComeFromHandlers(src: Sources, clock: Clock, name: string, args: map<string, Value>)
    requires Execute(src, clock, name, args).ToolError?
    ensures name in ToolNames()
    ensures ErrorPrefix <= ErrorText(Execute(src, clock, name, args))
  {
    CatalogueNames();
  }

  /** Only `record_expense` and `toggle_todo` write to the user data file. */
  lemma ReadOnlyTools(src: Sources, clock: Clock, name: string, args: map<string, Value>, f: Persistence.StoredFile)
    requires f.Stored? ==> Persistence.WellKinded(f.doc)
    requires !Writes(name)
    ensures Effect(src, clock, name, args, f) == f
  {
  }
}
