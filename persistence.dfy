/** The user-delta store: a JSON file holding only what the user changed on
    top of the mock data (todo completion overrides, added expenses, health
    overrides, the chat transcript and the checked packing items). Every
    helper loads the file, back-fills missing sections, changes one section
    and writes the whole document back. The file is the field `file` of a
    `UserDataStore`; reading and writing it are assignments to that field. */
module Persistence {
  import opened PyValues

  /** Health values the user logged today; absent keys fall back to mock data. */
  datatype HealthOverrides = HealthOverrides(waterCups: Option<int>, exerciseToday: Option<bool>, mood: Option<string>)

  /** One expense the user recorded. `item`, `amount` and `category` are stored
      as given by the caller, which for the tool path is whatever the model sent. */
  datatype Expense = Expense(date: string, item: Value, amount: Value, category: Value, icon: string)

  /** The value stored under one top-level key of the document. */
  datatype Section =
    | TodoStatus(overrides: map<Value, bool>)
    | Transactions(records: seq<Expense>)
    | Health(health: HealthOverrides)
    | Messages(messages: seq<Value>)
    | Packing(checked: seq<string>)
    | Other(value: Value)

  type Document = map<string, Section>

  /** The state of the data file: absent, unreadable (an I/O error or invalid
      JSON), or holding a document. */
  datatype StoredFile = Missing | Unreadable | Stored(doc: Document)

  const TodosKey := "todos"
  const ExpensesKey := "extra_transactions"
  const HealthKey := "health_overrides"
  const ChatKey := "chat_messages"
  const PackingKey := "packing_checked"

  const NoHealthOverrides := HealthOverrides(None, None, None)

  /** The default document, in its declared key order. */
  function DefaultData(): seq<(string, Section)> {
    [ (TodosKey, TodoStatus(map[])),
      (ExpensesKey, Transactions([])),
      (HealthKey, Health(NoHealthOverrides)),
      (ChatKey, Messages([])),
      (PackingKey, Packing([])) ]
  }

  /** The keys of the default document. */
  function DefaultKeys(): set<string> {
    {TodosKey, ExpensesKey, HealthKey, ChatKey, PackingKey}
  }

  /** The document written when there is no usable file. */
  function InitDefaultData(): (doc: Document)
    ensures Complete(doc)
  {
    map[TodosKey := TodoStatus(map[]), ExpensesKey := Transactions([]),
        HealthKey := Health(NoHealthOverrides), ChatKey := Messages([]), PackingKey := Packing([])]
  }

  /** The section under `key` has the kind the helpers expect for that key. */
  predicate KindFits(key: string, section: Section) {
    && (key == TodosKey ==> section.TodoStatus?)
    && (key == ExpensesKey ==> section.Transactions?)
    && (key == HealthKey ==> section.Health?)
    && (key == ChatKey ==> section.Messages?)
    && (key == PackingKey ==> section.Packing?)
  }

  /** Each default key that is present holds the kind of section the helpers expect. */
  predicate WellKinded(doc: Document) {
    forall k :: k in doc ==> KindFits(k, doc[k])
  }

  /** Every default key is present with the right kind of section. */
  predicate Complete(doc: Document) {
    WellKinded(doc) && DefaultKeys() <= doc.Keys
  }

  /** The keys a list of default entries names. */
  function KeysOf(defaults: seq<(string, Section)>): set<string> {
    if defaults == [] then {} else {defaults[0].0} + KeysOf(defaults[1..])
  }

  lemma DefaultDataFits()
    ensures KeysOf(DefaultData()) == DefaultKeys()
    ensures forall e :: e in DefaultData() ==> KindFits(e.0, e.1)
  {
  }

  /** `data.setdefault(key, default)` for each default entry, in order: keys
      already present keep their values, each missing default key is added
      with a default section, and no other key appears. */
  function Backfill(doc: Document, defaults: seq<(string, Section)>): (r: Document)
    ensures r.Keys == doc.Keys + KeysOf(defaults)
    ensures forall k :: k in doc ==> r[k] == doc[k]
    ensures forall k :: k in r && k !in doc ==> (k, r[k]) in defaults
    decreases |defaults|
  {
    if defaults == [] then doc
    else
      var entry := defaults[0];
      assert defaults == [entry] + defaults[1..];
      Backfill(if entry.0 in doc then doc else doc[entry.0 := entry.1], defaults[1..])
  }

  /** Back-filling a well-kinded document with fitting defaults completes it. */
  lemma BackfillDefaultsComplete(doc: Document)
    requires WellKinded(doc)
    ensures Complete(Backfill(doc, DefaultData()))
  {
    var r := Backfill(doc, DefaultData());
    DefaultDataFits();
    forall k | k in r ensures KindFits(k, r[k]) {
      if k !in doc {
        var e := (k, r[k]);
        assert e in DefaultData();
      }
    }
  }

  /** What `load_user_data` returns for a file state: a complete document. */
  function Loaded(f: StoredFile): (r: Document)
    ensures (f.Stored? ==> WellKinded(f.doc)) ==> Complete(r)
  {
    match f
    case Stored(doc) =>
      if WellKinded(doc) then BackfillDefaultsComplete(doc); Backfill(doc, DefaultData())
      else Backfill(doc, DefaultData())
    case _ => InitDefaultData()
  }

  /** The file after `load_user_data`: an absent or unreadable file is replaced
      by the default document, a readable one is left as it is. */
  function AfterLoad(f: StoredFile): StoredFile {
    if f.Stored? then f else Stored(InitDefaultData())
  }

  /** A document that already has every default key is loaded unchanged. */
  lemma {:induction false} BackfillNoop(doc: Document, defaults: seq<(string, Section)>)
    requires KeysOf(defaults) <= doc.Keys
    ensures Backfill(doc, defaults) == doc
    decreases |defaults|
  {
    if defaults != [] {
      BackfillNoop(doc, defaults[1..]);
    }
  }

  /** After loading, every default key is present with the right kind of section,
      keys the file already had keep their values, and nothing else is added. */
  lemma LoadedComplete(f: StoredFile)
    requires f.Stored? ==> WellKinded(f.doc)
    ensures Complete(Loaded(f))
    ensures f.Stored? ==> forall k :: k in f.doc ==> k in Loaded(f) && Loaded(f)[k] == f.doc[k]
    ensures f.Stored? ==> Loaded(f).Keys == f.doc.Keys + DefaultKeys()
    ensures !f.Stored? ==> Loaded(f) == InitDefaultData()
  {
    DefaultDataFits();
  }

  /** Loading a complete document gives that document back. */
  lemma LoadStoredComplete(doc: Document)
    requires Complete(doc)
    ensures Loaded(Stored(doc)) == doc
  {
    DefaultDataFits();
    BackfillNoop(doc, DefaultData());
  }

  // Section accessors of a complete document.

  function TodoOverrides(doc: Document): map<Value, bool>
    requires Complete(doc)
  {
    doc[TodosKey].overrides
  }

  function ExtraTransactions(doc: Document): seq<Expense>
    requires Complete(doc)
  {
    doc[ExpensesKey].records
  }

  function HealthOf(doc: Document): HealthOverrides
    requires Complete(doc)
  {
    doc[HealthKey].health
  }

  function ChatMessages(doc: Document): seq<Value>
    requires Complete(doc)
  {
    doc[ChatKey].messages
  }

  function PackingChecked(doc: Document): seq<string>
    requires Complete(doc)
  {
    doc[PackingKey].checked
  }

  /** `doc` is `before` with only the section under `key` replaced. */
  predicate OnlySectionChanged(before: Document, doc: Document, key: string) {
    && doc.Keys == before.Keys
    && forall k :: k in before && k != key ==> doc[k] == before[k]
  }

  /** The data with the done flag of `todoId` set to `done`. */
  function WithTodoStatus(doc: Document, todoId: Value, done: bool): (r: Document)
    requires Complete(doc)
    ensures Complete(r) && OnlySectionChanged(doc, r, TodosKey)
    ensures TodoOverrides(r) == TodoOverrides(doc)[todoId := done]
  {
    doc[TodosKey := TodoStatus(TodoOverrides(doc)[todoId := done])]
  }

  /** The data with `record` in front of the user's earlier expenses. */
  function WithExpense(doc: Document, record: Expense): (r: Document)
    requires Complete(doc)
    ensures Complete(r) && OnlySectionChanged(doc, r, ExpensesKey)
    ensures ExtraTransactions(r) == [record] + ExtraTransactions(doc)
  {
    doc[ExpensesKey := Transactions([record] + ExtraTransactions(doc))]
  }

  /** The data with today's health overrides replaced by `health`. */
  function WithHealth(doc: Document, health: HealthOverrides): (r: Document)
    requires Complete(doc)
    ensures Complete(r) && OnlySectionChanged(doc, r, HealthKey)
    ensures HealthOf(r) == health
  {
    doc[HealthKey := Health(health)]
  }

  /** The data with the checked packing items replaced by `checked`. */
  function WithPacking(doc: Document, checked: seq<string>): (r: Document)
    requires Complete(doc)
    ensures Complete(r) && OnlySectionChanged(doc, r, PackingKey)
    ensures PackingChecked(r) == checked
  {
    doc[PackingKey := Packing(checked)]
  }

  /** The data with the chat transcript replaced by `messages`. */
  function WithChat(doc: Document, messages: seq<Value>): (r: Document)
    requires Complete(doc)
    ensures Complete(r) && OnlySectionChanged(doc, r, ChatKey)
    ensures ChatMessages(r) == messages
  {
    doc[ChatKey := Messages(messages)]
  }

  /** The icon stored with an expense of the given category. */
  function CategoryIcon(category: string): (icon: string)
    ensures category == "餐饮" ==> icon == "🍜"
    ensures category == "交通" ==> icon == "🚇"
    ensures category == "购物" ==> icon == "🛒"
    ensures category == "学习用品" ==> icon == "📚"
    ensures category == "娱乐" ==> icon == "🎬"
    ensures category !in KnownCategories() ==> icon == "💳"
  {
    var icons := map["餐饮" := "🍜", "交通" := "🚇", "购物" := "🛒",
                     "学习用品" := "📚", "娱乐" := "🎬", "其他" := "💳"];
    if category in icons then icons[category] else "💳"
  }

  /** The six categories the icon table names. */
  function KnownCategories(): set<string> {
    {"餐饮", "交通", "购物", "学习用品", "娱乐", "其他"}
  }

  /** The fallback icon is used exactly for "其他" and for unknown categories. */
  lemma DefaultIconExactly(category: string)
    ensures CategoryIcon(category) == "💳" <==> category == "其他" || category !in KnownCategories()
  {
  }

  /** `icons.get(category, "💳")` for an arbitrary value: a list or dict key raises. */
  function IconOf(category: Value): (r: Result<string>)
    ensures r.Err? <==> !Hashable(category)
    ensures category.Str? ==> r == Ok(CategoryIcon(category.s))
    ensures Hashable(category) && !category.Str? ==> r == Ok("💳")
  {
    if !Hashable(category) then Err(TypeError)
    else if category.Str? then Ok(CategoryIcon(category.s))
    else Ok("💳")
  }

  /** `packing.remove(item)`: drops the first occurrence. */
  function RemoveFirst(s: seq<string>, item: string): (r: seq<string>)
    ensures item in s ==> |r| == |s| - 1 && multiset(r) == multiset(s) - multiset{item}
    ensures item !in s ==> r == s
  {
    if s == [] then []
    else
      assert s == [s[0]] + s[1..];
      if s[0] == item then s[1..]
      else [s[0]] + RemoveFirst(s[1..], item)
  }

  /** The checked list after `update_packing(item, checked)`. */
  function UpdatedPacking(packing: seq<string>, item: string, checked: bool): seq<string> {
    if checked && item !in packing then packing + [item]
    else if !checked && item in packing then RemoveFirst(packing, item)
    else packing
  }

  /** No item occurs twice. */
  predicate NoDuplicates(s: seq<string>) {
    forall i, j :: 0 <= i < j < |s| ==> s[i] != s[j]
  }

  lemma {:induction false} RemoveFirstKeepsNoDuplicates(s: seq<string>, item: string)
    requires NoDuplicates(s)
    ensures NoDuplicates(RemoveFirst(s, item))
    ensures item !in RemoveFirst(s, item)
    ensures forall x :: x in RemoveFirst(s, item) <==> x in s && x != item
  {
    if s != [] && s[0] != item {
      var tail := RemoveFirst(s[1..], item);
      RemoveFirstKeepsNoDuplicates(s[1..], item);
      assert s[0] !in s[1..] by {
        forall j | 0 <= j < |s[1..]| ensures s[1..][j] != s[0] {
          assert s[1..][j] == s[j + 1];
        }
      }
      assert forall x :: x in s <==> x == s[0] || x in s[1..];
      var r := [s[0]] + tail;
      forall i, j | 0 <= i < j < |r| ensures r[i] != r[j] {
        if i > 0 {
          assert r[i] == tail[i - 1] && r[j] == tail[j - 1];
        } else {
          assert r[j] in tail;
        }
      }
    } else if s != [] {
      assert forall x :: x in s <==> x == s[0] || x in s[1..];
      assert s[0] !in s[1..] by {
        forall j | 0 <= j < |s[1..]| ensures s[1..][j] != s[0] {
          assert s[1..][j] == s[j + 1];
        }
      }
      forall i, j | 0 <= i < j < |s[1..]| ensures s[1..][i] != s[1..][j] {
        assert s[1..][i] == s[i + 1] && s[1..][j] == s[j + 1];
      }
    }
  }

  /** Checking an item makes it present, unchecking makes it absent, the list
      never gains a duplicate, and no other item is added or removed. */
  lemma UpdatedPackingSpec(packing: seq<string>, item: string, checked: bool)
    requires NoDuplicates(packing)
    ensures NoDuplicates(UpdatedPacking(packing, item, checked))
    ensures item in UpdatedPacking(packing, item, checked) <==> checked
    ensures forall x :: x != item ==> (x in UpdatedPacking(packing, item, checked) <==> x in packing)
  {
    var r := UpdatedPacking(packing, item, checked);
    if checked && item !in packing {
      forall i, j | 0 <= i < j < |r| ensures r[i] != r[j] {
        if j == |packing| {
          assert r[i] == packing[i];
        } else {
          assert r[i] == packing[i] && r[j] == packing[j];
        }
      }
    } else if !checked && item in packing {
      RemoveFirstKeepsNoDuplicates(packing, item);
    }
  }

  /** The back-fill loop of `load_user_data`: `setdefault` for each entry in turn. */
  method SetDefaults(doc: Document, defaults: seq<(string, Section)>) returns (data: Document)
    ensures data == Backfill(doc, defaults)
  {
    data := doc;
    for i := 0 to |defaults|
      invariant Backfill(data, defaults[i..]) == Backfill(doc, defaults)
    {
      var entry := defaults[i];
      assert defaults[i..] == [entry] + defaults[i + 1..];
      if entry.0 !in data {
        data := data[entry.0 := entry.1];
      }
    }
    assert defaults[|defaults|..] == [];
  }

  /** The user data file and the helpers that load, change and save it. */
  class UserDataStore {
    var file: StoredFile

    /** A stored document never holds the wrong kind of section under a default key. */
    ghost predicate Valid()
      reads this
    {
      file.Stored? ==> WellKinded(file.doc)
    }

    constructor (initial: StoredFile)
      requires initial.Stored? ==> WellKinded(initial.doc)
      ensures Valid() && file == initial
    {
      file := initial;
    }

    /** `save_user_data`: the file now holds `data`. */
    method SaveUserData(data: Document)
      requires WellKinded(data)
      modifies this
      ensures Valid() && file == Stored(data)
    {
      file := Stored(data);
    }

    /** `load_user_data`: back-fills a readable document key by key; an absent
        or unreadable file is replaced by the default document, which is returned. */
    method LoadUserData() returns (data: Document)
      requires Valid()
      modifies this
      ensures Valid()
      ensures file == AfterLoad(old(file))
      ensures data == Loaded(old(file)) && Complete(data)
    {
      LoadedComplete(file);
      match file {
        case Stored(doc) =>
          data := SetDefaults(doc, DefaultData());
        case _ =>
          data := InitDefaultData();
          SaveUserData(data);
      }
    }

    /** `update_todo_status`: records `done` for `todoId`, nothing else changes. */
    method UpdateTodoStatus(todoId: Value, done: bool)
      requires Valid()
      modifies this
      ensures Valid() && file == Stored(WithTodoStatus(Loaded(old(file)), todoId, done))
      ensures file.Stored? && Complete(file.doc)
      ensures OnlySectionChanged(Loaded(old(file)), file.doc, TodosKey)
      ensures TodoOverrides(file.doc) == TodoOverrides(Loaded(old(file)))[todoId := done]
    {
      var data := LoadUserData();
      data := WithTodoStatus(data, todoId, done);
      SaveUserData(data);
    }

    /** `add_expense`: puts the new record in front of the earlier ones and
        returns it. A category that cannot be a dict key raises after the load. */
    method AddExpense(item: Value, amount: Value, category: Value, date: string) returns (r: Result<Expense>)
      requires Valid()
      modifies this
      ensures Valid()
      ensures r.Err? <==> !Hashable(category)
      ensures r.Err? ==> r.error == TypeError && file == AfterLoad(old(file))
      ensures r.Ok? ==> r.value == Expense(date, item, amount, category, IconOf(category).value)
      ensures r.Ok? ==>
        && file == Stored(WithExpense(Loaded(old(file)), r.value))
        && file.Stored? && Complete(file.doc)
        && OnlySectionChanged(Loaded(old(file)), file.doc, ExpensesKey)
        && ExtraTransactions(file.doc) == [r.value] + ExtraTransactions(Loaded(old(file)))
    {
      var data := LoadUserData();
      var icon :- IconOf(category);
      var record := Expense(date, item, amount, category, icon);
      data := WithExpense(data, record);
      SaveUserData(data);
      r := Ok(record);
    }

    /** `increment_water`: one more cup than before (none logged counts as 0). */
    method IncrementWater() returns (cups: int)
      requires Valid()
      modifies this
      ensures Valid() && file.Stored? && Complete(file.doc)
      ensures var before := HealthOf(Loaded(old(file)));
        && cups == (if before.waterCups.Some? then before.waterCups.value else 0) + 1
        && HealthOf(file.doc) == before.(waterCups := Some(cups))
      ensures OnlySectionChanged(Loaded(old(file)), file.doc, HealthKey)
    {
      var data := LoadUserData();
      var overrides := HealthOf(data);
      cups := (if overrides.waterCups.Some? then overrides.waterCups.value else 0) + 1;
      SaveUserData(WithHealth(data, overrides.(waterCups := Some(cups))));
    }

    /** `log_exercise`: marks today's exercise as done. */
    method LogExercise()
      requires Valid()
      modifies this
      ensures Valid() && file.Stored? && Complete(file.doc)
      ensures HealthOf(file.doc) == HealthOf(Loaded(old(file))).(exerciseToday := Some(true))
      ensures OnlySectionChanged(Loaded(old(file)), file.doc, HealthKey)
    {
      var data := LoadUserData();
      SaveUserData(WithHealth(data, HealthOf(data).(exerciseToday := Some(true))));
    }

    /** `log_mood`: records today's mood. */
    method LogMood(mood: string)
      requires Valid()
      modifies this
      ensures Valid() && file.Stored? && Complete(file.doc)
      ensures HealthOf(file.doc) == HealthOf(Loaded(old(file))).(mood := Some(mood))
      ensures OnlySectionChanged(Loaded(old(file)), file.doc, HealthKey)
    {
      var data := LoadUserData();
      SaveUserData(WithHealth(data, HealthOf(data).(mood := Some(mood))));
    }

    /** `update_packing`: appends a newly checked item, removes an unchecked one. */
    method UpdatePacking(item: string, checked: bool)
      requires Valid()
      modifies this
      ensures Valid() && file.Stored? && Complete(file.doc)
      ensures PackingChecked(file.doc) == UpdatedPacking(PackingChecked(Loaded(old(file))), item, checked)
      ensures OnlySectionChanged(Loaded(old(file)), file.doc, PackingKey)
    {
      var data := LoadUserData();
      var packing := PackingChecked(data);
      if checked && item !in packing {
        packing := packing + [item];
      } else if !checked && item in packing {
        packing := RemoveFirst(packing, item);
      }
      SaveUserData(WithPacking(data, packing));
    }

    /** `save_chat_history`: replaces the stored transcript. */
    method SaveChatHistory(messages: seq<Value>)
      requires Valid()
      modifies this
      ensures Valid() && file.Stored? && Complete(file.doc)
      ensures ChatMessages(file.doc) == messages
      ensures OnlySectionChanged(Loaded(old(file)), file.doc, ChatKey)
    {
      var data := LoadUserData();
      SaveUserData(WithChat(data, messages));
    }

    /** `load_chat_history`. */
    method LoadChatHistory() returns (messages: seq<Value>)
      requires Valid()
      modifies this
      ensures Valid() && file == AfterLoad(old(file))
      ensures messages == ChatMessages(Loaded(old(file)))
    {
      var data := LoadUserData();
      messages := ChatMessages(data);
    }

    /** `clear_chat_history`: the stored transcript becomes empty. */
    method ClearChatHistory()
      requires Valid()
      modifies this
      ensures Valid() && file.Stored? && Complete(file.doc)
      ensures ChatMessages(file.doc) == []
      ensures OnlySectionChanged(Loaded(old(file)), file.doc, ChatKey)
    {
      var data := LoadUserData();
      SaveUserData(WithChat(data, []));
    }

    /** `get_todo_overrides`. */
    method GetTodoOverrides() returns (overrides: map<Value, bool>)
      requires Valid()
      modifies this
      ensures Valid() && file == AfterLoad(old(file))
      ensures overrides == TodoOverrides(Loaded(old(file)))
    {
      var data := LoadUserData();
      overrides := TodoOverrides(data);
    }

    /** `get_extra_transactions`. */
    method GetExtraTransactions() returns (records: seq<Expense>)
      requires Valid()
      modifies this
      ensures Valid() && file == AfterLoad(old(file))
      ensures records == ExtraTransactions(Loaded(old(file)))
    {
      var data := LoadUserData();
      records := ExtraTransactions(data);
    }

    /** `get_health_overrides`. */
    method GetHealthOverrides() returns (health: HealthOverrides)
      requires Valid()
      modifies this
      ensures Valid() && file == AfterLoad(old(file))
      ensures health == HealthOf(Loaded(old(file)))
    {
      var data := LoadUserData();
      health := HealthOf(data);
    }

    /** `get_packing_checked`. */
    method GetPackingChecked() returns (checked: seq<string>)
      requires Valid()
      modifies this
      ensures Valid() && file == AfterLoad(old(file))
      ensures checked == PackingChecked(Loaded(old(file)))
    {
      var data := LoadUserData();
      checked := PackingChecked(data);
    }

    /** Saving a transcript and loading it back returns that transcript. */
    method ChatRoundTrip(messages: seq<Value>) returns (loaded: seq<Value>)
      requires Valid()
      modifies this
      ensures Valid() && loaded == messages
    {
      SaveChatHistory(messages);
      LoadStoredComplete(file.doc);
      loaded := LoadChatHistory();
    }

    /** After clearing, loading the transcript returns the empty list. */
    method ClearThenLoad() returns (loaded: seq<Value>)
      requires Valid()
      modifies this
      ensures Valid() && loaded == []
    {
      ClearChatHistory();
      LoadStoredComplete(file.doc);
      loaded := LoadChatHistory();
    }
  }

  /** Saving a transcript into any loaded document and reading it back from
      the saved file returns that document, holding the transcript. */
  lemma ChatSaveLoad(f: StoredFile, messages: seq<Value>)
    requires f.Stored? ==> WellKinded(f.doc)
    ensures Loaded(Stored(WithChat(Loaded(f), messages))) == WithChat(Loaded(f), messages)
    ensures ChatMessages(Loaded(Stored(WithChat(Loaded(f), messages)))) == messages
  {
    LoadStoredComplete(WithChat(Loaded(f), messages));
  }
}
