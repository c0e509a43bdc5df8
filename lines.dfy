/** The text the handlers and the context summary produce, kept abstract:
    a line is either fixed text or one of the handlers' f-string templates
    together with the values it interpolates, in order. How a value is
    rendered (float precision, thousands separators) is not modelled. */
module Lines {
  import opened PyValues

  /** The f-string templates, by what they show. */
  datatype RowKind =
    // query_schedule
    | NoClassesOn        // [day]: no classes that day
    | DayTitle           // [day]: heading of a day's classes
    | DayCourse          // [time, course, location, teacher, type]
    | NoClassesToday     // [weekday name]: no classes today
    | TodayCourse        // [time, course, location, teacher]
    // query_finance
    | CategoryTitle      // [category]
    | CategoryTotal      // [category, amount]
    | CategoryTxn        // [date, item, amount]
    | Budget             // [monthly budget]
    | Spent              // [spent, usage percentage]
    | Remaining          // [remaining]
    | DailyAverage       // [daily average spent]
    | DaysLeft           // [days left in month]
    | SuggestedDaily     // [suggested daily limit]
    | CategoryAmount     // [category, amount]
    | RecentTxn          // [date, item, amount, category]
    // record_expense
    | ExpenseRecorded    // [item, amount, category, record date]
    // query_health
    | Steps              // [steps, step goal]
    | Sleep              // [hours, quality]
    | Water              // [cups, goal]
    | ExerciseWeek       // [sessions this week, goal]
    | SinceExercise      // [days since last exercise]
    | Mood               // [mood]
    | Streak             // [check-in streak]
    | BodyMetrics        // [bmi, weight]
    // query_todos and toggle_todo
    | TodoItem           // [done mark, id, priority, task, deadline]
    | TodoNotFound       // [task id]
    | TodoToggled        // [task, new status text]
    // query_exams
    | ExamItem           // [urgency mark, course, type, date, days left, location]
    // query_travel
    | TripName           // [trip name]
    | TripDate           // [date]
    | TripBudget         // [budget]
    | TripCost           // [estimated cost]
    | Companions         // [companion names]
    | Stop               // [time, activity, location, cost or "free"]
    | PackingList        // [items]
    // context summary
    | FinanceOverview    // [budget, spent, usage percentage, remaining]
    | HealthOverview     // [steps, goal, sleep hours, quality, exercise, goal, water, goal, streak]
    | PendingCount       // [number of pending todos]
    | UrgentCount        // [number of urgent pending todos]
    | PendingItem        // [priority, task, deadline]
    | TodayHeader        // [weekday name, number of classes]
    | TodayCourseItem    // [time, course, location]
    | NoClassToday       // [weekday name]
    | ExamReminder       // [course, date, days left]

  datatype Line = Fixed(text: string) | Row(kind: RowKind, cells: seq<Value>)

  /** `for x in items: lines.append(row(x))`, stopping at the first row that raises. */
  method AppendEach<A>(lines: seq<Line>, items: seq<A>, row: A -> Result<Line>) returns (r: Result<seq<Line>>)
    ensures r.Ok? <==> MapAll(items, row).Ok?
    ensures r.Ok? ==> r.value == lines + MapAll(items, row).value
    ensures r.Err? ==> r.error == MapAll(items, row).error
  {
    var acc := lines;
    for i := 0 to |items|
      invariant MapAll(items[..i], row).Ok?
      invariant acc == lines + MapAll(items[..i], row).value
    {
      assert items[..i + 1][..i] == items[..i];
      var next := row(items[i]);
      if next.Err? {
        MapAllExtendErr(items, row, i + 1);
        return Err(next.error);
      }
      acc := acc + [next.value];
    }
    assert items[..|items|] == items;
    r := Ok(acc);
  }

  /** In a reply assembled from four parts, the second part's lines follow the first. */
  lemma InSecondPart(head: seq<Line>, rows: seq<Line>, mid: seq<Line>, tail: seq<Line>, i: nat)
    requires i < |rows|
    ensures (head + rows + mid + tail)[|head| + i] == rows[i]
  {
  }

  /** In a reply assembled from four parts, the third part's lines follow the second. */
  lemma InThirdPart(head: seq<Line>, rows: seq<Line>, mid: seq<Line>, tail: seq<Line>, i: nat)
    requires i < |mid|
    ensures (head + rows + mid + tail)[|head| + |rows| + i] == mid[i]
  {
  }

  /** In a reply assembled from four parts, the last part's lines close it. */
  lemma InLastPart(head: seq<Line>, rows: seq<Line>, mid: seq<Line>, tail: seq<Line>, i: nat)
    requires i < |tail|
    ensures (head + rows + mid + tail)[|head| + |rows| + |mid| + i] == tail[i]
  {
  }

  /** Each item's row follows the title at its own position. */
  lemma RowsAfterTitle<A>(title: Line, items: seq<A>, row: A -> Result<Line>)
    requires MapAll(items, row).Ok?
    ensures |[title] + MapAll(items, row).value| == 1 + |items|
    ensures forall i :: 0 <= i < |items| ==>
      row(items[i]).Ok? && ([title] + MapAll(items, row).value)[1 + i] == row(items[i]).value
  {
    MapAllNoRaise(items, row);
  }
}
