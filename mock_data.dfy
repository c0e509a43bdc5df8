/** The mock data centre: the fixed records the assistant reads, and the
    context summary built from them for the system prompt. */
module MockData {
  import opened PyValues
  import opened Lines

  /** `datetime.weekday()`: 0 is Monday. */
  type Weekday = d: int | 0 <= d < 7

  /** The weekday names used as the `weekday` field of schedule entries. */
  function WeekdayNames(): seq<string> {
    ["周一", "周二", "周三", "周四", "周五", "周六", "周日"]
  }

  function WeekdayName(d: Weekday): (r: string)
    ensures r in WeekdayNames()
  {
    WeekdayNames()[d]
  }

  lemma WeekdayNamesDistinct()
    ensures forall i, j :: 0 <= i < j < 7 ==> WeekdayNames()[i] != WeekdayNames()[j]
  {
  }

  /** What the data getters return. `todaySchedule` and `travel` stand for
      `get_today_schedule` and `get_travel_plan`, which the tool handlers import
      by name; `None` means the name is not defined. */
  datatype Sources = Sources(
    schedule: Value,
    todaySchedule: Option<Value>,
    finance: Value,
    health: Value,
    todos: Value,
    exams: Value,
    travel: Option<Value>)

  function Course(weekday: string, time: string, course: string, location: string, teacher: string): Value {
    Dict([("weekday", Str(weekday)), ("time", Str(time)), ("course", Str(course)),
          ("location", Str(location)), ("teacher", Str(teacher))])
  }

  /** `get_schedule`: the week's seven classes, each a record. */
  function GetSchedule(): (r: Value)
    ensures r.List? && |r.items| == 7
    ensures forall i :: 0 <= i < |r.items| ==> r.items[i].Dict?
  {
    List([
      Course("周一", "08:30-10:05", "高等数学 II", "教学楼 A-301", "王教授"),
      Course("周一", "14:00-15:35", "大学物理", "实验楼 B-205", "李教授"),
      Course("周二", "10:15-11:50", "Python 程序设计", "计算机楼 C-102", "张教授"),
      Course("周三", "08:30-10:05", "线性代数", "教学楼 A-405", "陈教授"),
      Course("周三", "14:00-15:35", "英语听说", "外语楼 D-201", "Emily"),
      Course("周四", "10:15-11:50", "数据结构", "计算机楼 C-301", "刘教授"),
      Course("周五", "08:30-10:05", "思想政治理论", "教学楼 A-101", "赵教授")
    ])
  }

  function Transaction(date: string, item: string, amount: real, category: string): Value {
    Dict([("date", Str(date)), ("item", Str(item)), ("amount", Float(amount)), ("category", Str(category))])
  }

  /** `get_finance`: a record of six entries: four monthly figures, the
      category totals and the recent transactions. */
  function GetFinance(): (r: Value)
    ensures r.Dict? && |r.entries| == 6
  {
    Dict([
      ("monthly_budget", Float(2000.0)),
      ("spent", Float(1650.0)),
      ("remaining", Float(350.0)),
      ("budget_usage_pct", Float(82.5)),
      ("categories", Dict([
        ("餐饮", Float(820.0)),
        ("交通", Float(150.0)),
        ("购物", Float(380.0)),
        ("学习用品", Float(120.0)),
        ("娱乐", Float(100.0)),
        ("其他", Float(80.0))])),
      ("recent_transactions", List([
        Transaction("2026-02-19", "食堂午餐", 15.0, "餐饮"),
        Transaction("2026-02-18", "奶茶", 18.0, "餐饮"),
        Transaction("2026-02-18", "地铁充值", 50.0, "交通"),
        Transaction("2026-02-17", "教材《数据结构》", 45.0, "学习用品"),
        Transaction("2026-02-16", "电影票", 39.9, "娱乐")]))
    ])
  }

  /** `get_health`: a record of eleven figures. */
  function GetHealth(): (r: Value)
    ensures r.Dict? && |r.entries| == 11
  {
    Dict([
      ("today_steps", Int(4523)),
      ("step_goal", Int(8000)),
      ("sleep_hours", Float(6.5)),
      ("sleep_quality", Str("一般")),
      ("water_cups", Int(4)),
      ("water_goal", Int(8)),
      ("exercise_this_week", Int(1)),
      ("exercise_goal", Int(3)),
      ("last_exercise", Str(MockLastExercise)),
      ("mood", Str("😐 一般")),
      ("checkin_streak", Int(5))
    ])
  }

  /** The date of the mock record's last exercise. */
  const MockLastExercise := "2026-02-15"

  /** The mock health record has no `bmi`. */
  lemma MockHealthHasNoBmi(h: Value)
    requires h == GetHealth()
    ensures h.Dict? && !HasKey(h, "bmi")
  {
    HealthEntriesLookup(h.entries);
  }

  /** The mock step figures and the date of the last exercise. */
  lemma MockHealthFigures(h: Value)
    requires h == GetHealth()
    ensures Sub(h, "last_exercise") == Ok(Str(MockLastExercise))
    ensures Sub(h, "today_steps") == Ok(Int(4523)) && Sub(h, "step_goal") == Ok(Int(8000))
  {
    HealthEntriesLookup(h.entries);
  }

  /** Looking up `bmi`, the step figures and the last exercise among the
      health entries. */
  lemma HealthEntriesLookup(e: seq<(string, Value)>)
    requires |e| == 11
    requires e[0] == ("today_steps", Int(4523)) && e[1] == ("step_goal", Int(8000))
    requires e[2].0 == "sleep_hours" && e[3].0 == "sleep_quality" && e[4].0 == "water_cups"
    requires e[5].0 == "water_goal" && e[6].0 == "exercise_this_week" && e[7].0 == "exercise_goal"
    requires e[8] == ("last_exercise", Str(MockLastExercise)) && e[9].0 == "mood" && e[10].0 == "checkin_streak"
    ensures Lookup(e, "bmi").None?
    ensures Lookup(e, "last_exercise") == Some(Str(MockLastExercise))
    ensures Lookup(e, "today_steps") == Some(Int(4523)) && Lookup(e, "step_goal") == Some(Int(8000))
  {
    // No key has the length of "bmi"; only two of the keys before
    // "last_exercise" have its length, and they differ from it in the first letter.
    assert |e[0].0| == 11 && |e[1].0| == 9 && |e[2].0| == 11 && |e[3].0| == 13 && |e[4].0| == 10;
    assert |e[5].0| == 10 && |e[6].0| == 18 && |e[7].0| == 13 && |e[8].0| == 13;
    assert |e[9].0| == 4 && |e[10].0| == 14;
    assert e[3].0[0] != "last_exercise"[0] && e[7].0[0] != "last_exercise"[0];
    LookupAt(e, "today_steps", 0);
    LookupAt(e, "step_goal", 1);
    LookupAt(e, "last_exercise", 8);
  }

  /** The mock health record has the daily figures, the mood and the streak. */
  lemma MockHealthKeys(h: Value)
    requires h == GetHealth()
    ensures HasKey(h, "sleep_hours") && HasKey(h, "sleep_quality") && HasKey(h, "water_cups")
    ensures HasKey(h, "water_goal") && HasKey(h, "exercise_this_week") && HasKey(h, "exercise_goal")
    ensures HasKey(h, "mood") && HasKey(h, "checkin_streak")
  {
    var e := h.entries;
    assert e[2].0 == "sleep_hours" && e[3].0 == "sleep_quality" && e[4].0 == "water_cups";
    assert e[5].0 == "water_goal" && e[6].0 == "exercise_this_week" && e[7].0 == "exercise_goal";
    assert e[9].0 == "mood" && e[10].0 == "checkin_streak";
  }

  function Todo(task: string, deadline: string, priority: string, done: bool): Value {
    Dict([("task", Str(task)), ("deadline", Str(deadline)), ("priority", Str(priority)), ("done", Bool(done))])
  }

  /** `get_todos`: five todo records. */
  function GetTodos(): (r: Value)
    ensures r.List? && |r.items| == 5
    ensures forall i :: 0 <= i < |r.items| ==> r.items[i].Dict?
  {
    List([
      Todo("提交高数作业", "2026-02-20", "🔴 紧急", false),
      Todo("复习线性代数期中", "2026-02-26", "🟡 重要", false),
      Todo("Python 实验报告", "2026-02-22", "🟡 重要", false),
      Todo("归还图书馆的书", "2026-02-21", "🟢 普通", false),
      Todo("社团例会", "2026-02-20", "🟢 普通", true)
    ])
  }

  function Exam(course: string, date: string, daysLeft: int, location: string): Value {
    Dict([("course", Str(course)), ("date", Str(date)), ("days_left", Int(daysLeft)), ("location", Str(location))])
  }

  /** `get_upcoming_exams`: two exam records. */
  function GetUpcomingExams(): (r: Value)
    ensures r.List? && |r.items| == 2
    ensures forall i :: 0 <= i < |r.items| ==> r.items[i].Dict?
  {
    List([
      Exam("线性代数", "2026-02-26", 7, "教学楼 A-101"),
      Exam("高等数学 II", "2026-03-05", 14, "教学楼 A-301")
    ])
  }

  /** The getters of the mock data module; it defines neither
      `get_today_schedule` nor `get_travel_plan`. */
  function MockSources(): (r: Sources)
    ensures r.todaySchedule.None? && r.travel.None?
  {
    Sources(GetSchedule(), None, GetFinance(), GetHealth(), GetTodos(), GetUpcomingExams(), None)
  }

  // ---------------------------------------------------------------------------
  // Tests the summary and the handlers apply to single records.
  // ---------------------------------------------------------------------------

  /** `not t["done"]`. */
  function NotDone(t: Value): (r: Result<bool>)
    ensures r.Ok? <==> HasKey(t, "done")
    ensures r.Ok? ==> (r.value <==> !Truthy(Sub(t, "done").value))
  {
    var done :- Sub(t, "done");
    Ok(!Truthy(done))
  }

  /** `t["done"]` as a filter test. */
  function IsDone(t: Value): (r: Result<bool>)
    ensures r.Ok? <==> HasKey(t, "done")
    ensures r.Ok? ==> (r.value <==> Truthy(Sub(t, "done").value))
  {
    var done :- Sub(t, "done");
    Ok(Truthy(done))
  }

  /** `"紧急" in t["priority"]`. */
  function IsUrgent(t: Value): Result<bool> {
    var priority :- Sub(t, "priority");
    Contains(priority, "紧急")
  }

  /** `c["weekday"] == day`. */
  function OnWeekday(day: Value): Value -> Result<bool> {
    (c: Value) =>
      var w :- Sub(c, "weekday");
      Ok(PyEq(w, day))
  }

  /** Every record has a done flag, and it is pending exactly when not done. */
  lemma PendingDoneSplit(items: seq<Value>)
    requires forall i :: 0 <= i < |items| ==> HasKey(items[i], "done")
    ensures |Select(items, NotDone)| + |Select(items, IsDone)| == |items|
  {
    SelectSplit(items, NotDone, IsDone);
  }

  // ---------------------------------------------------------------------------
  // The context summary.
  // ---------------------------------------------------------------------------

  datatype ContextSummary = ContextSummary(
    schedule: seq<Line>,
    finance: seq<Line>,
    health: seq<Line>,
    todo: seq<Line>)

  const BudgetWarning := "⚠️ 预算已超过80%，需要注意节省！"
  const NoUrgent := "。"
  const ExamHeader := "\n📝 近期考试："

  /** Budget line, then the warning when more than 80% of the budget is used. */
  function FinanceSummaryOf(finance: Value): Result<seq<Line>> {
    var budget :- Sub(finance, "monthly_budget");
    var spent :- Sub(finance, "spent");
    var pct :- Sub(finance, "budget_usage_pct");
    var remaining :- Sub(finance, "remaining");
    var over :- Above(pct, 80);
    Ok([Row(FinanceOverview, [budget, spent, pct, remaining])] + (if over then [Fixed(BudgetWarning)] else []))
  }

  const HealthSummaryKeys := ["today_steps", "step_goal", "sleep_hours", "sleep_quality",
    "exercise_this_week", "exercise_goal", "water_cups", "water_goal", "checkin_streak"]

  function HealthSummaryOf(health: Value): Result<seq<Line>> {
    var cells :- Cells(health, HealthSummaryKeys);
    Ok([Row(HealthOverview, cells)])
  }

  /** The count of pending todos, then the count of urgent ones if there are any. */
  function TodoHeader(pending: seq<Value>, urgent: seq<Value>): seq<Line> {
    [Row(PendingCount, [Int(|pending|)]),
     if urgent != [] then Row(UrgentCount, [Int(|urgent|)]) else Fixed(NoUrgent)]
  }

  function PendingRow(t: Value): Result<Line> {
    var cells :- Cells(t, ["priority", "task", "deadline"]);
    Ok(Row(PendingItem, cells))
  }

  function TodoSummaryOf(todos: Value): Result<seq<Line>> {
    var items :- Iterate(todos);
    var pending :- FilterBy(items, NotDone);
    var urgent :- FilterBy(pending, IsUrgent);
    var rows :- MapAll(pending, PendingRow);
    Ok(TodoHeader(pending, urgent) + rows)
  }

  function TodayCourseRow(c: Value): Result<Line> {
    var cells :- Cells(c, ["time", "course", "location"]);
    Ok(Row(TodayCourseItem, cells))
  }

  function ExamReminderRow(e: Value): Result<Line> {
    var cells :- Cells(e, ["course", "date", "days_left"]);
    Ok(Row(ExamReminder, cells))
  }

  /** Today's classes, or a free-day line. */
  function TodayPart(schedule: Value, today: Weekday): Result<seq<Line>> {
    var name := Str(WeekdayName(today));
    var items :- Iterate(schedule);
    var courses :- FilterBy(items, OnWeekday(name));
    if courses != [] then
      var rows :- MapAll(courses, TodayCourseRow);
      Ok([Row(TodayHeader, [name, Int(|courses|)])] + rows)
    else Ok([Row(NoClassToday, [name])])
  }

  /** The exam reminders, present only when there are exams. */
  function ExamPart(exams: Value): Result<seq<Line>> {
    if Truthy(exams) then
      var list :- Iterate(exams);
      var rows :- MapAll(list, ExamReminderRow);
      Ok([Fixed(ExamHeader)] + rows)
    else Ok([])
  }

  /** Today's classes, or a free-day line, followed by the exam reminders. */
  function ScheduleSummaryOf(schedule: Value, exams: Value, today: Weekday): Result<seq<Line>> {
    var head :- TodayPart(schedule, today);
    var reminders :- ExamPart(exams);
    Ok(head + reminders)
  }

  /** The summary of the given data as seen on weekday `today`; the pieces
      are computed finance first, then health, todos and schedule. */
  function ContextSummaryOf(src: Sources, today: Weekday): Result<ContextSummary> {
    var finance :- FinanceSummaryOf(src.finance);
    var health :- HealthSummaryOf(src.health);
    var todo :- TodoSummaryOf(src.todos);
    var schedule :- ScheduleSummaryOf(src.schedule, src.exams, today);
    Ok(ContextSummary(schedule, finance, health, todo))
  }

  /** `build_context_summary`, with its loops. */
  method BuildContextSummary(src: Sources, today: Weekday) returns (r: Result<ContextSummary>)
    ensures r == ContextSummaryOf(src, today)
  {
    var finance :- FinanceSummaryOf(src.finance);
    var health :- HealthSummaryOf(src.health);

    var todoItems :- Iterate(src.todos);
    var pending :- FilterBy(todoItems, NotDone);
    var urgent :- FilterBy(pending, IsUrgent);
    var todo :- AppendEach(TodoHeader(pending, urgent), pending, PendingRow);

    var name := Str(WeekdayName(today));
    var items :- Iterate(src.schedule);
    var courses :- FilterBy(items, OnWeekday(name));
    var head: seq<Line>;
    if courses != [] {
      head :- AppendEach([Row(TodayHeader, [name, Int(|courses|)])], courses, TodayCourseRow);
    } else {
      head := [Row(NoClassToday, [name])];
    }
    assert TodayPart(src.schedule, today) == Ok(head);
    var reminders: seq<Line> := [];
    if Truthy(src.exams) {
      var exams :- Iterate(src.exams);
      reminders :- AppendEach([Fixed(ExamHeader)], exams, ExamReminderRow);
    }
    var schedule := head + reminders;
    r := Ok(ContextSummary(schedule, finance, health, todo));
  }

  // ---------------------------------------------------------------------------
  // What the summary says.
  // ---------------------------------------------------------------------------

  /** The budget warning appears exactly when the usage percentage is above 80;
      a non-numeric percentage raises TypeError. */
  lemma {:induction false} FinanceWarningRule(finance: Value)
    requires HasKey(finance, "monthly_budget") && HasKey(finance, "spent")
    requires HasKey(finance, "budget_usage_pct") && HasKey(finance, "remaining")
    ensures var pct := Sub(finance, "budget_usage_pct").value;
      && (FinanceSummaryOf(finance).Err? <==> NumberOf(pct).None?)
      && (FinanceSummaryOf(finance).Err? ==> FinanceSummaryOf(finance).error == TypeError)
      && (FinanceSummaryOf(finance).Ok? ==>
            (Fixed(BudgetWarning) in FinanceSummaryOf(finance).value <==> NumberOf(pct).value > 80.0))
  {
  }

  /** A todo summary that does not raise is the header over the records
      that are not done and those of them that are urgent, then one row per
      pending record. */
  lemma {:induction false} TodoSummaryParts(todos: Value)
    requires TodoSummaryOf(todos).Ok?
    ensures Iterate(todos).Ok?
    ensures AllOk(Iterate(todos).value, NotDone)
    ensures AllOk(Select(Iterate(todos).value, NotDone), IsUrgent)
    ensures MapAll(Select(Iterate(todos).value, NotDone), PendingRow).Ok?
    ensures TodoSummaryOf(todos).value ==
      TodoHeader(Select(Iterate(todos).value, NotDone), Select(Select(Iterate(todos).value, NotDone), IsUrgent))
      + MapAll(Select(Iterate(todos).value, NotDone), PendingRow).value
  {
    var items := Iterate(todos).value;
    FilterByNoRaise(items, NotDone);
    var pending := Select(items, NotDone);
    FilterByNoRaise(pending, IsUrgent);
  }

  /** The pending records are exactly the listed records whose done flag is
      false, the urgent ones exactly the pending ones whose priority mentions
      urgency, and there are never more urgent than pending records. */
  lemma {:induction false} PendingAndUrgent(items: seq<Value>)
    requires AllOk(items, NotDone)
    ensures forall t :: t in Select(items, NotDone) <==> t in items && !Truthy(Sub(t, "done").value)
    ensures forall t :: t in Select(Select(items, NotDone), IsUrgent) <==>
      t in Select(items, NotDone) && IsUrgent(t) == Ok(true)
    ensures |Select(Select(items, NotDone), IsUrgent)| <= |Select(items, NotDone)| <= |items|
  {
    SelectMembers(items, NotDone);
    SelectMembers(Select(items, NotDone), IsUrgent);
    forall t | t in items ensures NotDone(t).Ok? {
      var i :| 0 <= i < |items| && items[i] == t;
    }
  }

  /** The todo summary lists every pending record, one line each, after the
      pending count and the urgent count or a full stop when none is urgent. */
  lemma {:induction false} TodoSummaryLines(todos: Value)
    requires TodoSummaryOf(todos).Ok?
    ensures Iterate(todos).Ok?
    ensures |TodoSummaryOf(todos).value| == 2 + |Select(Iterate(todos).value, NotDone)|
    ensures TodoSummaryOf(todos).value[0] == Row(PendingCount, [Int(|Select(Iterate(todos).value, NotDone)|)])
    ensures TodoSummaryOf(todos).value[1] ==
      if Select(Select(Iterate(todos).value, NotDone), IsUrgent) != []
      then Row(UrgentCount, [Int(|Select(Select(Iterate(todos).value, NotDone), IsUrgent)|)])
      else Fixed(NoUrgent)
    ensures forall i :: 0 <= i < |Select(Iterate(todos).value, NotDone)| ==>
      PendingRow(Select(Iterate(todos).value, NotDone)[i]).Ok? &&
      TodoSummaryOf(todos).value[2 + i] == PendingRow(Select(Iterate(todos).value, NotDone)[i]).value
  {
    TodoSummaryParts(todos);
    var pending := Select(Iterate(todos).value, NotDone);
    var urgent := Select(pending, IsUrgent);
    var rows := MapAll(pending, PendingRow).value;
    var lines := TodoSummaryOf(todos).value;
    assert lines == TodoHeader(pending, urgent) + rows;
    MapAllNoRaise(pending, PendingRow);
    forall i | 0 <= i < |pending|
      ensures PendingRow(pending[i]).Ok? && lines[2 + i] == PendingRow(pending[i]).value
    {
      assert lines[2 + i] == rows[i];
    }
  }

  /** A todo without a done flag makes the summary raise KeyError("done")
      when every record before it has one. */
  lemma {:induction false} TodoSummaryMissingDone(todos: Value, k: nat)
    requires todos.List? && k < |todos.items| && !HasKey(todos.items[k], "done")
    requires todos.items[k].Dict?
    requires forall j :: 0 <= j < k ==> HasKey(todos.items[j], "done")
    ensures TodoSummaryOf(todos) == Err(KeyError("done"))
  {
    var items := todos.items;
    FilterByErr(items, NotDone);
    assert FirstFailure(items, NotDone, k);
    var k' :| FirstFailure(items, NotDone, k') && FilterBy(items, NotDone).error == NotDone(items[k']).error;
    assert k' == k;
  }

  /** Today's classes are the schedule entries whose weekday is today's
      name, in order. */
  lemma {:induction false} TodayCourses(items: seq<Value>, today: Weekday)
    requires AllOk(items, OnWeekday(Str(WeekdayName(today))))
    ensures forall c :: c in Select(items, OnWeekday(Str(WeekdayName(today)))) <==>
      c in items && PyEq(Sub(c, "weekday").value, Str(WeekdayName(today)))
    ensures forall c :: c in Select(items, OnWeekday(Str(WeekdayName(today)))) ==>
      Sub(c, "weekday") == Ok(Str(WeekdayName(today)))
  {
    var day := Str(WeekdayName(today));
    SelectMembers(items, OnWeekday(day));
    forall c | c in items ensures OnWeekday(day)(c).Ok? {
      var i :| 0 <= i < |items| && items[i] == c;
    }
  }

  /** Without classes today the schedule part is the free-day line, otherwise
      today's count and one line per course of today, in schedule order. */
  lemma {:induction false} TodayPartLines(schedule: Value, today: Weekday)
    requires TodayPart(schedule, today).Ok?
    ensures Iterate(schedule).Ok?
    ensures AllOk(Iterate(schedule).value, OnWeekday(Str(WeekdayName(today))))
    ensures |TodayPart(schedule, today).value| ==
      1 + |Select(Iterate(schedule).value, OnWeekday(Str(WeekdayName(today))))|
    ensures var courses := Select(Iterate(schedule).value, OnWeekday(Str(WeekdayName(today))));
      TodayPart(schedule, today).value[0] ==
        if courses == [] then Row(NoClassToday, [Str(WeekdayName(today))])
        else Row(TodayHeader, [Str(WeekdayName(today)), Int(|courses|)])
    ensures var courses := Select(Iterate(schedule).value, OnWeekday(Str(WeekdayName(today))));
      forall i :: 0 <= i < |courses| ==>
        TodayCourseRow(courses[i]).Ok? &&
        TodayPart(schedule, today).value[1 + i] == TodayCourseRow(courses[i]).value
  {
    var name := Str(WeekdayName(today));
    var items := Iterate(schedule).value;
    assert FilterBy(items, OnWeekday(name)).Ok?;
    FilterByNoRaise(items, OnWeekday(name));
    var courses := Select(items, OnWeekday(name));
    if courses != [] {
      assert MapAll(courses, TodayCourseRow).Ok?;
      var title := Row(TodayHeader, [name, Int(|courses|)]);
      assert TodayPart(schedule, today).value == [title] + MapAll(courses, TodayCourseRow).value;
      RowsAfterTitle(title, courses, TodayCourseRow);
    }
  }

  /** The reminders are empty without exams, and otherwise the header and
      one line per exam, in list order. */
  lemma {:induction false} ExamPartLines(exams: Value)
    requires ExamPart(exams).Ok?
    ensures !Truthy(exams) ==> ExamPart(exams).value == []
    ensures Truthy(exams) ==>
      && Iterate(exams).Ok?
      && |ExamPart(exams).value| == 1 + |Iterate(exams).value|
      && ExamPart(exams).value[0] == Fixed(ExamHeader)
      && forall i :: 0 <= i < |Iterate(exams).value| ==>
           ExamReminderRow(Iterate(exams).value[i]).Ok? &&
           ExamPart(exams).value[1 + i] == ExamReminderRow(Iterate(exams).value[i]).value
  {
    if Truthy(exams) {
      var list := Iterate(exams).value;
      assert ExamPart(exams).value == [Fixed(ExamHeader)] + MapAll(list, ExamReminderRow).value;
      RowsAfterTitle(Fixed(ExamHeader), list, ExamReminderRow);
    }
  }

  /** The schedule summary: the free-day line or today's count, one line per
      course of today in schedule order, and, exactly when there are exams,
      the exam header and one reminder per exam in list order. */
  lemma {:induction false} ScheduleSummaryShape(schedule: Value, exams: Value, today: Weekday)
    requires ScheduleSummaryOf(schedule, exams, today).Ok?
    ensures Iterate(schedule).Ok?
    ensures AllOk(Iterate(schedule).value, OnWeekday(Str(WeekdayName(today))))
    ensures Truthy(exams) ==> Iterate(exams).Ok?
    ensures |ScheduleSummaryOf(schedule, exams, today).value| ==
      1 + |Select(Iterate(schedule).value, OnWeekday(Str(WeekdayName(today))))|
      + (if Truthy(exams) then 1 + |Iterate(exams).value| else 0)
    ensures var courses := Select(Iterate(schedule).value, OnWeekday(Str(WeekdayName(today))));
      && ScheduleSummaryOf(schedule, exams, today).value[0] ==
           (if courses == [] then Row(NoClassToday, [Str(WeekdayName(today))])
            else Row(TodayHeader, [Str(WeekdayName(today)), Int(|courses|)]))
      && forall i :: 0 <= i < |courses| ==>
           TodayCourseRow(courses[i]).Ok? &&
           ScheduleSummaryOf(schedule, exams, today).value[1 + i] == TodayCourseRow(courses[i]).value
    ensures var courses := Select(Iterate(schedule).value, OnWeekday(Str(WeekdayName(today))));
      Truthy(exams) ==>
        && ScheduleSummaryOf(schedule, exams, today).value[1 + |courses|] == Fixed(ExamHeader)
        && forall i :: 0 <= i < |Iterate(exams).value| ==>
             ExamReminderRow(Iterate(exams).value[i]).Ok? &&
             ScheduleSummaryOf(schedule, exams, today).value[2 + |courses| + i] ==
               ExamReminderRow(Iterate(exams).value[i]).value
  {
    TodayPartLines(schedule, today);
    ExamPartLines(exams);
    var head := TodayPart(schedule, today).value;
    var reminders := ExamPart(exams).value;
    var lines := ScheduleSummaryOf(schedule, exams, today).value;
    assert lines == head + reminders;
    assert forall i :: 0 <= i < |head| ==> lines[i] == head[i];
    assert forall i :: 0 <= i < |reminders| ==> lines[|head| + i] == reminders[i];
  }

  /** With the mock finance figures the summary warns about the budget;
      `MockFinanceFields` shows the mock data has those figures. */
  lemma MockFinanceWarns(finance: Value)
    requires Sub(finance, "monthly_budget") == Ok(Float(2000.0))
    requires Sub(finance, "spent") == Ok(Float(1650.0))
    requires Sub(finance, "remaining") == Ok(Float(350.0))
    requires Sub(finance, "budget_usage_pct") == Ok(Float(82.5))
    ensures FinanceSummaryOf(finance) ==
      Ok([Row(FinanceOverview, [Float(2000.0), Float(1650.0), Float(82.5), Float(350.0)]), Fixed(BudgetWarning)])
  {
    FinanceSummaryFromFields(finance, Float(2000.0), Float(1650.0), Float(82.5), Float(350.0));
    var overview := Row(FinanceOverview, [Float(2000.0), Float(1650.0), Float(82.5), Float(350.0)]);
    assert NumberOf(Float(82.5)).value > 80.0;
    assert [overview] + [Fixed(BudgetWarning)] == [overview, Fixed(BudgetWarning)];
  }

  lemma FinanceSummaryFromFields(finance: Value, budget: Value, spent: Value, pct: Value, remaining: Value)
    requires Sub(finance, "monthly_budget") == Ok(budget) && Sub(finance, "spent") == Ok(spent)
    requires Sub(finance, "budget_usage_pct") == Ok(pct) && Sub(finance, "remaining") == Ok(remaining)
    requires NumberOf(pct).Some?
    ensures FinanceSummaryOf(finance) == Ok([Row(FinanceOverview, [budget, spent, pct, remaining])]
      + if NumberOf(pct).value > 80.0 then [Fixed(BudgetWarning)] else [])
  {
  }

  lemma MockFinanceFields()
    ensures Sub(GetFinance(), "monthly_budget") == Ok(Float(2000.0))
    ensures Sub(GetFinance(), "spent") == Ok(Float(1650.0))
    ensures Sub(GetFinance(), "remaining") == Ok(Float(350.0))
    ensures Sub(GetFinance(), "budget_usage_pct") == Ok(Float(82.5))
  {
    var e := GetFinance().entries;
    FiguresLookup(e);
  }

  /** Looking up the four monthly figures at the head of a finance record. */
  lemma FiguresLookup(e: seq<(string, Value)>)
    requires |e| >= 4
    requires e[0] == ("monthly_budget", Float(2000.0)) && e[1] == ("spent", Float(1650.0))
    requires e[2] == ("remaining", Float(350.0)) && e[3] == ("budget_usage_pct", Float(82.5))
    ensures Lookup(e, "monthly_budget") == Some(Float(2000.0))
    ensures Lookup(e, "spent") == Some(Float(1650.0))
    ensures Lookup(e, "remaining") == Some(Float(350.0))
    ensures Lookup(e, "budget_usage_pct") == Some(Float(82.5))
  {
    // The four keys differ in length, hence pairwise.
    assert |e[0].0| == 14 && |e[1].0| == 5 && |e[2].0| == 9 && |e[3].0| == 16;
    assert Lookup(e, "monthly_budget") == Some(Float(2000.0)) by { LookupAt(e, "monthly_budget", 0); }
    assert Lookup(e, "spent") == Some(Float(1650.0)) by { LookupAt(e, "spent", 1); }
    assert Lookup(e, "remaining") == Some(Float(350.0)) by { LookupAt(e, "remaining", 2); }
    LookupAt(e, "budget_usage_pct", 3);
  }

  /** Of the five mock todos the first four are pending. */
  lemma MockPendingTodos()
    ensures Select(GetTodos().items, NotDone) == GetTodos().items[..4]
  {
    var items := GetTodos().items;
    forall i | 0 <= i < 5 ensures NotDone(items[i]) == Ok(i < 4) {
      MockTodoDone(i);
    }
    var first := items[..4];
    assert forall i :: 0 <= i < 4 ==> first[i] == items[i];
    SelectAll(first, NotDone);
    assert items[..|items| - 1] == first;
  }

  lemma MockTodoDone(i: nat)
    requires i < 5
    ensures NotDone(GetTodos().items[i]) == Ok(i < 4)
  {
    TodoLookup(GetTodos().items[i].entries);
  }

  /** The mock todos carry no id. */
  lemma MockTodosHaveNoId(i: nat)
    requires i < 5
    ensures GetTodos().items[i].Dict? && !HasKey(GetTodos().items[i], "id")
    ensures HasKey(GetTodos().items[i], "done")
  {
    TodoLookup(GetTodos().items[i].entries);
  }

  /** Looking up the fields of a todo record's four entries. */
  lemma TodoLookup(e: seq<(string, Value)>)
    requires |e| == 4 && e[0].0 == "task" && e[1].0 == "deadline" && e[2].0 == "priority" && e[3].0 == "done"
    ensures Lookup(e, "done") == Some(e[3].1)
    ensures Lookup(e, "id").None?
  {
    // The keys differ from "done" and "id" in length or first letter.
    assert |e[0].0| == 4 && |e[1].0| == 8 && |e[2].0| == 8 && |e[3].0| == 4;
    assert e[0].0[0] != "done"[0];
    LookupAt(e, "done", 3);
  }

  /** An exam record has a course and days left, and no type. */
  lemma ExamRecordFields(course: string, date: string, daysLeft: int, location: string)
    ensures !HasKey(Exam(course, date, daysLeft, location), "type")
    ensures HasKey(Exam(course, date, daysLeft, location), "course")
    ensures Sub(Exam(course, date, daysLeft, location), "days_left") == Ok(Int(daysLeft))
  {
    var e := Exam(course, date, daysLeft, location).entries;
    LookupAt(e, "course", 0);
    LookupAt(e, "days_left", 2);
  }

  /** The mock exams carry no type. */
  lemma MockExamsHaveNoType(i: nat)
    requires i < 2
    ensures GetUpcomingExams().items[i].Dict? && !HasKey(GetUpcomingExams().items[i], "type")
    ensures HasKey(GetUpcomingExams().items[i], "course")
    ensures Sub(GetUpcomingExams().items[i], "days_left") == Ok(Int(if i == 0 then 7 else 14))
  {
    if i == 0 {
      ExamRecordFields("线性代数", "2026-02-26", 7, "教学楼 A-101");
    } else {
      ExamRecordFields("高等数学 II", "2026-03-05", 14, "教学楼 A-301");
    }
  }

  /** The mock finance record has no daily average. */
  lemma MockFinanceHasNoDailyAverage()
    ensures !HasKey(GetFinance(), "daily_avg_spent")
  {
    var e := GetFinance().entries;
    // No key of the record has the length of "daily_avg_spent".
    assert |e[0].0| == 14 && |e[1].0| == 5 && |e[2].0| == 9 && |e[3].0| == 16;
    assert |e[4].0| == 10 && |e[5].0| == 19;
  }

  /** What the finance overview reads of the mock finance record: three
      numeric figures and the usage percentage, but no daily average. */
  lemma MockOverviewFigures(f: Value)
    requires f == GetFinance()
    ensures f.Dict? && !HasKey(f, "daily_avg_spent") && HasKey(f, "budget_usage_pct")
    ensures Sub(f, "monthly_budget") == Ok(Float(2000.0)) && Sub(f, "spent") == Ok(Float(1650.0))
    ensures Sub(f, "remaining") == Ok(Float(350.0))
  {
    MockFinanceFields();
    MockFinanceHasNoDailyAverage();
  }

  /** Todo records numbered 1, 2, ... in list order under `id`, the field the
      tool handlers look todos up by. */
  function NumberedTodos(todos: seq<Value>): (r: seq<Value>)
    requires forall i :: 0 <= i < |todos| ==> todos[i].Dict?
    ensures |r| == |todos|
  {
    seq(|todos|, i requires 0 <= i < |todos| => Dict([("id", Int(i + 1))] + todos[i].entries))
  }

  /** A numbered todo has its number as id and otherwise the fields it had. */
  lemma NumberedFields(todos: seq<Value>, i: nat, key: string)
    requires forall i :: 0 <= i < |todos| ==> todos[i].Dict?
    requires i < |todos|
    ensures Sub(NumberedTodos(todos)[i], "id") == Ok(Int(i + 1))
    ensures key != "id" ==> Sub(NumberedTodos(todos)[i], key) == Sub(todos[i], key)
  {
    var entries := [("id", Int(i + 1))] + todos[i].entries;
    assert NumberedTodos(todos)[i] == Dict(entries);
    LookupAt(entries, "id", 0);
    assert entries[1..] == todos[i].entries;
  }
}
