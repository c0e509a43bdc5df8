# UniLife OS tool layer in Dafny

UniLife OS is a campus-life assistant for students: a chat model answers
questions about the week's classes, money, health, todos, exams and a trip by
calling eight tools. This project models the part of the repository that
holds the logic:

- the tool catalogue and the dispatcher `execute_tool`, with every handler;
- the user data store, a JSON file of user-made changes (todo overrides,
  added expenses, health overrides, chat history, checked packing items),
  reached through load-modify-save helpers;
- the mock data getters and `build_context_summary`, which condenses the
  data into text for the system prompt.

The files:

- `py_values.dfy` (`PyValues`): the Python values the handlers work on
  (`None`, bools, ints, floats as reals, strings, lists, insertion-ordered
  dicts), and the Python operations they apply, each returning a `Result` that
  carries the exception Python would raise. Among them are `d[k]`, `d.get`,
  truthiness, `==`, `>` against an int, `in`, iteration, slicing and
  numeric format codes. `MapAll` and `FilterBy` are list comprehensions, which
  raise at the first element that raises. `Select` is the reference meaning of
  a filter that does not raise.
- `lines.dfy` (`Lines`): the text a handler builds. A line is fixed text or
  one of the f-string templates with the values it interpolates. `AppendEach`
  is the `for x in xs: lines.append(...)` loop shared by all handlers.
- `persistence.dfy` (`Persistence`): the store as the class `UserDataStore`
  whose `file` field is the JSON file (missing, unreadable, or a document).
  There is one method per helper, with its frame ("nothing else changes").
- `mock_data.dfy` (`MockData`): the constant getters as fixtures, and the
  context summary as a function plus the method with its loops.
- `tools.dfy` (`Tools`): the catalogue, one specification function per
  handler with the method that runs its loops, and `Execute`/`ExecuteTool`
  for the dispatcher. Each outcome is a `Reply`, an `UnknownTool` or a
  `ToolError` carrying the exception that `except Exception` caught.

The model follows the code in these respects:

- The data getters return constants and do not read the store. A recorded
  expense or a toggled todo is therefore not visible to a later
  `query_finance` or `query_todos`, and `Execute` does not depend on the
  store at all.
- `execute_tool` turns every exception a handler raises into text; the
  failed import is modelled as a NameError at call time (see Left out).
- The tools layer answers one call at a time; it holds no loop over several
  rounds of tool calls, so none is modelled.
- Several handlers read fields that the mock records do not have, so on the
  mock data they answer with a KeyError:
  - `query_health` prints `bmi` and `weight`; on the mock record it raises
    KeyError("bmi") (`Tools.HealthOnMockData`), and any record without `bmi`
    makes it raise (`Tools.HealthNeedsBodyMetrics`);
  - `query_exams` prints each exam's `type` (`Tools.ExamsOnMockData`);
  - `query_todos` prints each todo's `id` (`Tools.TodosOnMockData`, for every
    status);
  - the `query_finance` overview prints `daily_avg_spent`
    (`Tools.OverviewOnMockData`);
  - `query_schedule` with a day that has classes prints each class's `type`,
    which the mock classes lack as well; no lemma states this case.

## Model

| member | source | states |
|---|---|---|
| Tools.ToolNames | modules/tools.py:14-147 | the tool names are those of the catalogue entries, in catalogue order |
| Tools.CatalogueNames | modules/tools.py:14-159 | the catalogue lists eight tools in this order: query_schedule, query_finance, record_expense, query_health, query_todos, toggle_todo, query_exams, query_travel; the names are distinct; exactly these names have a display label |
| Tools.RequiredAreDeclared | modules/tools.py:49-75 | every parameter a tool requires is one it declares |
| Tools.ExpenseCategoriesHaveIcons | modules/tools.py:66-70 | the categories offered by record_expense are the store's five icon categories plus 其他; among them only 其他 gets the generic 💳 icon |
| Tools.ExecuteTool | modules/tools.py:164-189 | the answer is `Execute` of the call; the user data file becomes `Effect` of the call; the store stays valid |
| Tools.UnknownNames | modules/tools.py:186-187 | a name gets the unknown-tool answer iff it is not in the catalogue; that answer's text is exactly `未知工具: ` + name, and the file is unchanged |
| Tools.ErrorsComeFromHandlers | modules/tools.py:188-189 | an error answer only comes from a catalogued tool, and its text starts with `工具执行出错: ` |
| Tools.ReadOnlyTools | modules/tools.py:164-185 | every tool other than record_expense and toggle_todo leaves the file unchanged |
| Tools.AsText | modules/tools.py:166-189 | a handler's lines become the reply and its exception becomes the error answer |
| Tools.ErrorText | modules/tools.py:187-189 | the unknown-tool text is the prefix plus the name; an error text starts with the error prefix |
| Tools.ArgSub | modules/tools.py:256-258 | `args[key]` succeeds iff the key is present, and raises KeyError(key) otherwise |
| Tools.Getter | modules/tools.py:6-9 | a getter that the data module does not define raises NameError with its name |
| Tools.QuerySchedule | modules/tools.py:194-215 | computes `ScheduleReply`: the courses of a given day, or today's courses from `get_today_schedule`, each line appended in order |
| Tools.ScheduleForDay | modules/tools.py:193-203 | with a day, the listed courses are exactly the schedule entries whose weekday equals the day, in order; with none, the free-day line; otherwise line 0 is the title naming the day and line 1+i is the row of the i-th listed course |
| Tools.ScheduleTodayNeedsGetter | modules/tools.py:204-206 | without a day and without `get_today_schedule`, the call raises NameError |
| Tools.QueryFinance | modules/tools.py:218-252 | computes `FinanceReply`: a category view or the month overview, with the rows appended in order |
| Tools.CategoryTotalDefault | modules/tools.py:221-224 | a category answer opens with the heading naming the category, and its second line is the total line carrying that category's recorded amount, or 0 when the month records none |
| Tools.CategoryParts | modules/tools.py:221-231 | a category answer is the heading and the total line, followed, when some recent transaction matches, by the related-records title and one row per match among the first eight |
| Tools.CategoryRows | modules/tools.py:221-231 | the matching transactions are exactly the recent ones whose category equals the asked one, in order; the answer has two lines when none matches, otherwise three plus the first eight matches (at most eleven); then line 2 is the related-records title and line 3+i is the row of the i-th of the first eight matches |
| Tools.OverviewRows | modules/tools.py:233-252 | the overview has eleven fixed lines plus one per category total and one per recent transaction among the first ten; its first nine lines are the figures and the category title, and the blank line and the recent-records title follow the category lines |
| Tools.OverviewParts | modules/tools.py:233-252 | the overview is the head, the category lines, the blank line with the recent-records title, and the transaction lines, in that order |
| Tools.OverviewCategoryRows | modules/tools.py:244-245 | line 9+i of the overview is the line of the i-th category total, in the record's order |
| Tools.OverviewTxnRows | modules/tools.py:247-250 | line 11+n+i of the overview (n category lines) is the row of the i-th of the first ten recent transactions |
| Tools.OverviewWithoutAverage | modules/tools.py:233-238 | an overview of a record whose first figures are numbers but which has no `daily_avg_spent` raises KeyError("daily_avg_spent") |
| Tools.OverviewOnMockData | modules/tools.py:233-238 | on the mock finance record the overview raises KeyError("daily_avg_spent") |
| Tools.RecordExpense | modules/tools.py:255-260 | computes `ExpenseReply` and leaves the file as `ExpenseEffect` says: untouched when an argument is missing, loaded only when the category is unhashable, otherwise with the new record in front |
| Tools.ExpenseStoredDespiteError | modules/tools.py:259-260 | an amount that cannot be formatted answers with ValueError, but only after the record was stored in front of the earlier ones |
| Tools.DaysSince | modules/tools.py:265-266 | a non-string date raises TypeError and an unparsable one ValueError; otherwise the result is the clock's day count |
| Tools.HealthReply | modules/tools.py:263-278 | an answer has nine lines and opens with the title; its sixth line is the clock's day count since `last_exercise`, which must be a date string the clock can parse |
| Tools.HealthFieldsPresent | modules/tools.py:263-278 | an answer means the record holds every field the answer prints |
| Tools.HealthNeedsBodyMetrics | modules/tools.py:276 | a health record without `bmi` makes query_health raise |
| Tools.DailyCellsOk | modules/tools.py:268-274 | a record holding the six daily fields yields all six |
| Tools.HealthWithoutBmi | modules/tools.py:263-278 | a record that holds every field printed before `bmi`, with a parsable `last_exercise` and numeric step figures, but no `bmi`, makes query_health raise KeyError("bmi") |
| Tools.HealthOnMockData | modules/tools.py:263-278 | on the mock health record query_health raises KeyError("bmi") |
| Tools.QueryTodos | modules/tools.py:281-301 | computes `TodosReply`: the selected todos, one line each in order, or the fixed none-line |
| Tools.TodoStatusFilter | modules/tools.py:283-292 | "pending" keeps exactly the todos not done, and "done" exactly those done, both in list order; any other status keeps all; pending and done together number as many as the list |
| Tools.TodosReplyLines | modules/tools.py:294-301 | an empty selection gives only the fixed none-line; otherwise the title comes first and then one line per kept todo, in order |
| Tools.TodoRowWithoutId | modules/tools.py:300 | a todo with `done` but without `id` makes its line raise KeyError("id") |
| Tools.SelectionNonEmpty | modules/tools.py:283-292 | when one todo is pending and one is done, every status selects at least one todo, and the first selected is one of the todos |
| Tools.TodosWithoutId | modules/tools.py:281-301 | when no todo has an id and one is pending and one done, query_todos raises KeyError("id") for every status |
| Tools.TodosOnMockData | modules/tools.py:281-301 | on the mock todos query_todos raises KeyError("id") for every status |
| Tools.FirstMatch | modules/tools.py:307-311 | a found index lies within the list |
| Tools.FirstMatchSpec | modules/tools.py:307-311 | the search returns the first todo whose id equals the asked id, after todos whose ids all differ; it returns none iff every todo has another id; it raises only at a todo without an id that comes before any match |
| Tools.FirstMatchFound | modules/tools.py:307-311 | a found index holds the asked id, and every todo before it has another id |
| Tools.FirstMatchNone | modules/tools.py:307-311 | the search finds nothing iff every todo has another id |
| Tools.FirstMatchRaises | modules/tools.py:307-311 | the search raises only at a todo without an id, after todos that all have other ids |
| Tools.FirstMatchAt | modules/tools.py:308-311 | the search stops at the first matching position |
| Tools.FindTodo | modules/tools.py:307-311 | the search loop with `break` computes `FirstMatch` |
| Tools.ToggleTodo | modules/tools.py:304-318 | computes `ToggleReply` and leaves the file as `ToggleEffect` says: written only after a match whose done flag was read, and before its task is read |
| Tools.ToggleNotFound | modules/tools.py:312-313 | an id that no todo has gives the not-found answer naming the id and writes nothing |
| Tools.ToggleFoundReply | modules/tools.py:315-318 | for the first todo with the id, the answer names its task and the opposite of its done flag |
| Tools.ToggleFoundEffect | modules/tools.py:315-316 | for the first todo with the id, its override becomes the opposite of its done flag even when the todo has no task to report, and no other section or override changes |
| Tools.ToggleIdlessTodos | modules/tools.py:308-309 | todos without an id make toggle_todo raise KeyError("id") for every id asked |
| Tools.ToggleOnMockTodos | modules/mock_data.py:71-84 | on the mock todos every toggle_todo call answers with the KeyError("id") error |
| Tools.ToggleNumberedTodo | modules/tools.py:304-318 | with the todos numbered 1, 2, …, asking for id k+1 toggles the todo at position k |
| Tools.UrgencyMark | modules/tools.py:327 | urgent iff days left ≤ 3, a warning iff 3 < days ≤ 7, plain iff days > 7; the bands are exhaustive and disjoint; a non-number raises TypeError |
| Tools.QueryExams | modules/tools.py:321-333 | computes `ExamsReply`: the none-line, or the title and one line per exam, appended in order |
| Tools.ExamLines | modules/tools.py:325-333 | one line per exam, in list order, each opening with that exam's urgency band |
| Tools.ExamRowWithoutType | modules/tools.py:327-331 | an exam with a course and a numeric `days_left` but no `type` makes its line raise KeyError("type") |
| Tools.ExamsWithoutType | modules/tools.py:321-333 | an exam list whose first exam has no `type` makes query_exams raise KeyError("type") |
| Tools.ExamsOnMockData | modules/tools.py:321-333 | on the mock exams query_exams raises KeyError("type") |
| Tools.QueryTravel | modules/tools.py:336-353 | computes `TravelReply`: the trip figures, one line per stop in order, then the packing list |
| Tools.StopCost | modules/tools.py:348 | a stop shows its cost when above 0 and "免费" otherwise |
| Lines.AppendEach | modules/tools.py:200-203 | the append loop ends with the prefix followed by one row per item, in order, or raises what the first failing row raises |
| Lines.InSecondPart | modules/tools.py:243-250 | in a listing of four parts, the second part's i-th line sits after the first part |
| Lines.InThirdPart | modules/tools.py:243-250 | the third part's i-th line sits after the first two parts |
| Lines.InLastPart | modules/tools.py:243-250 | the last part's i-th line sits after the first three parts |
| Lines.RowsAfterTitle | modules/mock_data.py:139-145 | after a title, each item's row sits at its own position plus one |
| MockData.BuildContextSummary | modules/mock_data.py:95-161 | the summary equals `ContextSummaryOf`, with its loops appending in order |
| MockData.TodoSummaryParts | modules/mock_data.py:124-131 | the todo summary is the header over the pending and urgent selections, then one row per pending todo |
| MockData.PendingAndUrgent | modules/mock_data.py:124-125 | pending is exactly the todos not done; urgent is exactly the pending todos whose priority contains 紧急; so urgent ≤ pending ≤ all |
| MockData.TodoSummaryLines | modules/mock_data.py:126-131 | the summary reports the pending count; it has the urgent clause iff some pending todo is urgent, and a full stop otherwise; then one line per pending todo, in order |
| MockData.TodoSummaryMissingDone | modules/mock_data.py:124 | a todo without `done`, reached when every earlier todo has one, makes the summary raise KeyError("done") |
| MockData.FinanceWarningRule | modules/mock_data.py:107-112 | the budget warning appears iff the usage percentage is above 80; a non-numeric percentage raises TypeError |
| MockData.FinanceSummaryFromFields | modules/mock_data.py:107-112 | the finance summary carries the four figures, then the warning exactly when the percentage is above 80 |
| MockData.TodayCourses | modules/mock_data.py:137 | today's courses are exactly the schedule entries whose weekday is today's name |
| MockData.ScheduleSummaryShape | modules/mock_data.py:137-154 | with no course today the summary opens with the free-day line, otherwise with today's count; line 1+i is the row of today's i-th course; when there are exams, the exam header follows the courses and line 2+c+i (c courses) is the row of the i-th exam; nothing else follows |
| MockData.TodayPartLines | modules/mock_data.py:134-145 | the today part is the free-day line, or the header with the count followed by one row per course of today, each at its position |
| MockData.ExamPartLines | modules/mock_data.py:148-154 | the exam part is empty without exams; otherwise the header followed by one row per exam, each at its position |
| MockData.WeekdayName | modules/mock_data.py:134-136 | every weekday index has one of the seven names |
| MockData.WeekdayNamesDistinct | modules/mock_data.py:134-136 | the seven weekday names are distinct |
| MockData.NotDone | modules/mock_data.py:124 | the test succeeds iff the todo has `done`, and is then true iff `done` is falsy |
| MockData.IsDone | modules/tools.py:289 | the test succeeds iff the todo has `done`, and is then true iff `done` is truthy |
| MockData.PendingDoneSplit | modules/tools.py:286-289 | when every todo has `done`, the pending and the done todos together number as many as the list |
| MockData.MockFinanceWarns | modules/mock_data.py:26-53 | with the mock figures (82.5% used) the finance summary carries the warning |
| MockData.MockFinanceFields | modules/mock_data.py:29-32 | the mock finance record holds budget 2000, spent 1650, remaining 350 and 82.5% |
| MockData.MockPendingTodos | modules/mock_data.py:71-84 | the first four mock todos are pending |
| MockData.MockTodoDone | modules/mock_data.py:74-83 | each mock todo's done flag, as the pending test reads it |
| MockData.MockTodosHaveNoId | modules/mock_data.py:73-84 | no mock todo carries an `id` |
| MockData.GetSchedule | modules/mock_data.py:7-24 | the week holds seven classes, each a record |
| MockData.GetFinance | modules/mock_data.py:26-53 | the finance data is a record of six entries |
| MockData.GetHealth | modules/mock_data.py:55-69 | the health data is a record of eleven entries |
| MockData.HealthEntriesLookup | modules/mock_data.py:55-69 | in the mock health entries `bmi` is absent, and `last_exercise`, `today_steps` and `step_goal` hold the mock date, 4523 and 8000 |
| MockData.MockHealthHasNoBmi | modules/mock_data.py:55-69 | the mock health record has no `bmi` |
| MockData.MockHealthFigures | modules/mock_data.py:55-69 | the mock health record's last exercise is 2026-02-15, with 4523 steps of a goal of 8000 |
| MockData.MockHealthKeys | modules/mock_data.py:55-69 | the mock health record holds the sleep, water, exercise, mood and streak fields |
| MockData.GetTodos | modules/mock_data.py:71-84 | the todos are five records |
| MockData.GetUpcomingExams | modules/mock_data.py:86-93 | the exams are two records |
| MockData.MockSources | modules/mock_data.py:7-93 | the data module defines neither `get_today_schedule` nor `get_travel_plan` |
| MockData.ExamRecordFields | modules/mock_data.py:86-93 | an exam record has a course and its days left, and no type |
| MockData.MockExamsHaveNoType | modules/mock_data.py:86-93 | the mock exams have a course and 7 and 14 days left, and no type |
| MockData.MockFinanceHasNoDailyAverage | modules/mock_data.py:26-53 | the mock finance record has no `daily_avg_spent` |
| MockData.MockOverviewFigures | modules/mock_data.py:26-53 | the mock finance record has the budget, spent and remaining figures and the usage percentage, but no daily average |
| MockData.NumberedTodos | modules/mock_data.py:71-84 | the mock todos with ids 1, 2, … added, keeping the order |
| MockData.NumberedFields | modules/mock_data.py:71-84 | a numbered todo has its number as id and otherwise keeps its fields |
| Persistence.InitDefaultData | modules/persistence.py:44-48 | the default document holds the five sections, each of the right kind |
| Persistence.DefaultDataFits | modules/persistence.py:13-19 | the default entries have the five default keys, each with the right kind of section |
| Persistence.Backfill | modules/persistence.py:29-30 | after the back-fill the keys are the old keys plus the default keys; old keys keep their values, and each added key holds its default |
| Persistence.SetDefaults | modules/persistence.py:29-30 | the `setdefault` loop computes `Backfill` |
| Persistence.BackfillDefaultsComplete | modules/persistence.py:29-31 | back-filling a well-formed document yields a complete one |
| Persistence.BackfillNoop | modules/persistence.py:29-30 | a document that already has every default key is left as it is |
| Persistence.Loaded | modules/persistence.py:22-34 | a readable well-formed file loads into a complete document |
| Persistence.LoadedComplete | modules/persistence.py:22-34 | after loading, every default key is present, stored keys keep their values, and the keys are the stored ones plus the defaults; a missing or unreadable file loads as the defaults |
| Persistence.LoadStoredComplete | modules/persistence.py:22-31 | saving a complete document and loading it gives it back |
| Persistence.UserDataStore.constructor | modules/persistence.py:10-11 | the store starts with the given file |
| Persistence.UserDataStore.SaveUserData | modules/persistence.py:37-41 | the file holds exactly the saved document |
| Persistence.UserDataStore.LoadUserData | modules/persistence.py:22-34 | returns `Loaded` of the file; a missing or unreadable file is replaced by the defaults, and a readable one is not rewritten |
| Persistence.WithTodoStatus | modules/persistence.py:53-57 | only the todos section changes, and its overrides map the id to the given flag |
| Persistence.UserDataStore.UpdateTodoStatus | modules/persistence.py:53-57 | the file becomes the loaded data with the id's override set; all other sections and overrides are unchanged |
| Persistence.WithExpense | modules/persistence.py:60-72 | only the expense section changes, and it becomes the new record followed by the old ones |
| Persistence.UserDataStore.AddExpense | modules/persistence.py:60-72 | returns the record (date, item, amount, category, icon) and stores it in front of the earlier ones; an unhashable category raises TypeError after the load and stores nothing |
| Persistence.WithHealth | modules/persistence.py:75-97 | only the health section changes, and it holds the given overrides |
| Persistence.WithPacking | modules/persistence.py:100-108 | only the packing section changes, and it holds the given items |
| Persistence.WithChat | modules/persistence.py:111-128 | only the chat section changes, and it holds the given messages |
| Persistence.CategoryIcon | modules/persistence.py:155-165 | the five categories map to their own icons, and a category outside the known six maps to 💳 |
| Persistence.DefaultIconExactly | modules/persistence.py:155-165 | the icon is 💳 iff the category is 其他 or not one of the five |
| Persistence.IconOf | modules/persistence.py:68 | a string category gets its icon, other hashable values 💳, and an unhashable value raises TypeError |
| Persistence.UserDataStore.IncrementWater | modules/persistence.py:75-81 | the water count becomes the old count (0 when absent) plus 1 and is returned; nothing else changes |
| Persistence.UserDataStore.LogExercise | modules/persistence.py:84-89 | only the exercise override changes, and it becomes true |
| Persistence.UserDataStore.LogMood | modules/persistence.py:92-97 | only the mood override changes, and it becomes the given mood |
| Persistence.RemoveFirst | modules/persistence.py:106-107 | removing a present item drops exactly one occurrence; an absent item leaves the list unchanged |
| Persistence.RemoveFirstKeepsNoDuplicates | modules/persistence.py:106-107 | on a duplicate-free list, the removal removes the item entirely and keeps all other items |
| Persistence.UpdatedPackingSpec | modules/persistence.py:100-108 | the checked list stays duplicate-free; it contains the item iff it was checked, and other items are unaffected |
| Persistence.UserDataStore.UpdatePacking | modules/persistence.py:100-108 | the checked list becomes `UpdatedPacking` of the old one; nothing else changes |
| Persistence.UserDataStore.SaveChatHistory | modules/persistence.py:111-115 | the chat history becomes the given messages; nothing else changes |
| Persistence.UserDataStore.LoadChatHistory | modules/persistence.py:118-121 | returns the stored history of the loaded data |
| Persistence.UserDataStore.ClearChatHistory | modules/persistence.py:124-128 | the chat history becomes empty; nothing else changes |
| Persistence.UserDataStore.ChatRoundTrip | modules/persistence.py:111-121 | saving messages and loading them returns the same messages |
| Persistence.UserDataStore.ClearThenLoad | modules/persistence.py:118-128 | clearing the history and then loading it returns an empty list |
| Persistence.ChatSaveLoad | modules/persistence.py:111-121 | the document that save_chat_history writes loads back unchanged and holds the messages |
| Persistence.UserDataStore.GetTodoOverrides | modules/persistence.py:131-134 | returns the todo overrides of the loaded data |
| Persistence.UserDataStore.GetExtraTransactions | modules/persistence.py:137-140 | returns the added expenses of the loaded data |
| Persistence.UserDataStore.GetHealthOverrides | modules/persistence.py:143-146 | returns the health overrides of the loaded data |
| Persistence.UserDataStore.GetPackingChecked | modules/persistence.py:149-152 | returns the checked packing items of the loaded data |
| PyValues.FilterByErr | modules/tools.py:197 | a filter comprehension raises iff its test raises on some element, and it raises what the test raises on the first such element |
| PyValues.FilterByOk | modules/tools.py:197 | a filter whose test never raises keeps exactly the accepted elements, in order |
| PyValues.MapAllErr | modules/tools.py:200-203 | a loop over rows raises iff some row raises, and it raises what the first such row raises |
| PyValues.MapAllOk | modules/tools.py:200-203 | a loop whose rows never raise yields each row in order |
| PyValues.MapAllAt | modules/tools.py:200-203 | a loop whose rows never raise puts item i's row at position i |
| PyValues.MapAllFirstError | modules/tools.py:200-203 | a loop over rows raises what the first raising row raises |
| PyValues.CellsMissing | modules/tools.py:300 | reading fields in turn raises KeyError at the first field the record lacks |
| PyValues.SelectMembers | modules/mock_data.py:124 | a filter keeps an element iff the element is in the input and accepted |
| PyValues.SelectAppend | modules/mock_data.py:124 | filtering preserves order, because it distributes over concatenation |
| PyValues.SelectSplit | modules/tools.py:286-289 | a test and its negation split a list into two parts whose sizes add up to its length |
| PyValues.Sub | modules/tools.py:197 | `d[k]` succeeds iff `d` is a dict holding `k`; otherwise it raises KeyError(k) on a dict and TypeError on anything else |
| PyValues.Above | modules/mock_data.py:111 | `v > n` compares numbers (bools count as 0 and 1) and raises TypeError for anything else |
| PyValues.DictGet | modules/tools.py:223 | `d.get(k, default)` raises for a non-dict or an unhashable key; otherwise it returns the entry or the default |
| PyValues.Contains | modules/mock_data.py:125 | `in` succeeds exactly on strings, lists and dicts |
| PyValues.Iterate | modules/tools.py:298 | iteration works on lists, dicts and strings, and yields nothing exactly for a falsy value |
| PyValues.Numeric | modules/tools.py:226 | a numeric format code accepts numbers, raises ValueError for a string and TypeError for anything else |
| PyValues.Take | modules/tools.py:229 | `s[:n]` has min(n, len s) elements and is a prefix of `s` |
| PyValues.SliceFront | modules/tools.py:249 | slicing a list keeps at most its first n items |

## Left out

- Message wording and number formatting: a line keeps the template and its
  values, not the rendered text. Float precision, thousands separators and
  `str()` of nested values are not modelled. The messages of TypeError,
  ValueError and AttributeError are shown by their class name only.
- Tool descriptions in the catalogue: only names, parameter types, enums and
  required lists are kept.
- File I/O: the JSON file is the store's `file` field. A missing file and an
  unparsable file both load as the defaults. The case where the JSON parses
  but holds the wrong kind of value under a default key is excluded by
  `UserDataStore.Valid`.
- Persistence.Loaded: `StoredFile` has no case for a file that loads without
  being a usable document, so every `Unreadable` file loads as the defaults.
  The source differs in three cases. Valid JSON whose top level is not an
  object makes `data.setdefault` (modules/persistence.py:30) raise
  AttributeError. Content that is not UTF-8 makes the read at
  modules/persistence.py:27 raise UnicodeDecodeError. The handler at
  modules/persistence.py:32 catches neither, so both escape `load_user_data`.
  When an unreadable file does fall back to `_init_default_data`, that
  function calls `save_user_data`, which can fail in the same way. The model
  writes the defaults without a failure path.
- The todo override map is keyed by the id value itself, not by `str(id)`.
  Two ids that differ but print the same share one key in the source and do
  not in the model.
- The wall clock is a `Clock` parameter: today's weekday, today's date, and
  the day count since a `%Y-%m-%d` date, which is given rather than computed.
- The import of `get_today_schedule` and `get_travel_plan`, which
  mock_data.py does not define, fails when the module loads. The model
  instead raises NameError when the handler calls the missing getter, so the
  rest of the dispatcher can still be stated.
- Python `==` between nested containers holding numbers of different types
  (`[1] == [1.0]`) is structural in the model.
- Section contents are typed: health overrides are the water count, the
  exercise flag and the mood; todo overrides are booleans; packing items are
  strings. Extra keys in the health overrides, which Python keeps and writes
  back, a `water_cups` that is not an int (on which `increment_water` raises
  TypeError), non-boolean todo overrides and non-string packing items are
  not represented.
- Dict equality in the model (`PyEq` on two dicts) depends on entry order;
  Python's does not.
- A dict with a repeated key: `Lookup` returns the first binding, while
  `json.loads` keeps the last.
- Tools.RequiredAreDeclared: does not state that declared enums constrain the
  arguments, because `execute_tool` does not validate arguments against the
  schema either.
- The Streamlit UI, the chat-completion client and the configuration
  loading are not part of this model.

## Findings

| source | as written | input that shows it | evidently intended | confidence | as-written member | corrected member |
|---|---|---|---|---|---|---|
| modules/tools.py:308-309 | the todo search reads `t["id"]`, but the mock todos at modules/mock_data.py:73-84 have no `id` field | `toggle_todo` with `{"task_id": 1}` on the mock data answers with the KeyError("id") error instead of toggling the first todo | the todos carry ids 1, 2, … in list order, so that id k+1 finds the todo at position k | not executed | Tools.ToggleOnMockTodos | Tools.ToggleNumberedTodo |
